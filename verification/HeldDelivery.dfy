/** Which way Attach goes after hello (cmd/egress-broker/registry.go): events that were buffered wait
    for the client's heartbeat or the fallback timer, and with nothing buffered the connection is
    settled at once. And which calls of a connection happen once. Read off the steps of a run. */
module HeldDelivery {
  import opened Wrappers
  import SocketMode
  import opened SessionCore
  import opened SessionMachine
  import opened LogRefinement
  import opened Placement
  import opened Delivery
  import opened Content
  import opened FallbackDelivery
  import opened SessionInvariant

  // ---- Events that were buffered

  /** The handler of a connection attached to a non-empty buffer, before any heartbeat. */
  predicate Waits(pc: Pc) {
    || (pc.Writing? && pc.purpose.ForHello? && pc.purpose.buffered > 0)
    || (pc.HelloSent? && pc.buffered > 0)
    || pc.Ready? || pc.Finished?
  }

  predicate Unready(s: State, c: Conn) {
    && c in s.conns && s.conns[c].settler.None?
    && Handler(c) in s.threads.pcs && Waits(s.threads.pcs[Handler(c)])
  }

  /** The client's heartbeat on `c`, or a fallback timer delivering to it. */
  predicate Releases(cfg: Config, l: Label, c: Conn) {
    l == LPing(Handler(c)) || (cfg.deliverDelay > 0 && l.LDeliver? && l.thread.Fallback? && l.thread.target == c)
  }

  lemma DeliverLeavesUnready(cfg: Config, s: State, t: Thread, ids: seq<string>, c: Conn)
    requires HeartbeatOnly(cfg, s) && Unready(s, c) && MayDeliver(s, t, ids) && !Releases(cfg, LDeliver(t, ids), c)
    ensures Unready(Deliver'(s, t, ids), c)
  {
    hide StampAll, RecordIds, RecordStamps;
    assert ConnOf(t) != c;
  }

  lemma EventLeavesUnready(s: State, raw: SocketMode.Raw, id: string, c: Conn)
    requires Unready(s, c)
    ensures Unready(Event'(s, raw, id), c)
  {
    hide SocketMode.RewriteEnvelopeId;
  }

  lemma StepLeavesUnready(cfg: Config, s: State, l: Label, c: Conn)
    requires HeartbeatOnly(cfg, s) && Unready(s, c) && Enabled(cfg, s, l) && !Releases(cfg, l, c)
    ensures Unready(Apply(cfg, s, l), c)
  {
    hide HeartbeatOnly, SocketMode.IsEventFrame;
    if l.LDeliver? {
      DeliverLeavesUnready(cfg, s, l.thread, l.ids, c);
    } else if l.LEvent? {
      EventLeavesUnready(s, l.raw, l.id, c);
    } else if IsIdleLabel(l) {
      IdleLabelFrame(cfg, s, l);
    }
  }

  lemma {:induction false} RunLeavesUnready(cfg: Config, s: State, ls: seq<Label>, c: Conn)
    requires Inv(cfg, s) && Unready(s, c) && IsRun(cfg, s, ls) && forall l :: l in ls ==> !Releases(cfg, l, c)
    ensures Inv(cfg, After(cfg, s, ls)) && Unready(After(cfg, s, ls), c)
    decreases |ls|
  {
    hide Enabled, Apply, Unready, Releases, HeartbeatOnly, LogInv, FreshInv, PlaceInv, FlowInv, ContentInv;
    if ls != [] {
      StepLeavesUnready(cfg, s, ls[0], c);
      StepKeepsInv(cfg, s, ls[0]);
      hide Inv;
      RunLeavesUnready(cfg, Apply(cfg, s, ls[0]), ls[1..], c);
    }
  }

  lemma SettledHasSettler(cfg: Config, s: State, c: Conn)
    requires Inv(cfg, s) && c in s.conns
    ensures s.core.link.sink == Some(c) && s.core.link.settled ==> s.conns[c].settler.Some?
    ensures ShapeOk(s.conns[c])
  {
    hide LogInv, FreshInv, ContentInv, ShapeOk, HeartbeatOnly, FallbackInv;
  }

  lemma UnsettledSawHello(h: ConnLog)
    requires ShapeOk(h) && h.settler.None?
    ensures h.tried <= [Hello]
  {
    assert h.tried == HelloPart(h.helloTried);
  }

  lemma AttachedIsUnready(cfg: Config, s: State, c: Conn)
    requires c !in s.conns && s.core.mail.buffer != []
    ensures Unready(Apply(cfg, s, LAttach(c)), c)
  {
  }

  /** A connection attached while events are buffered gets hello and no event, buffered or new, and
      is not settled, on any continuation without a heartbeat of its client and without its fallback
      timer delivering; with no positive delay, on any without a heartbeat. */
  lemma HeldUntilHeartbeat(cfg: Config, s: State, c: Conn, ls: seq<Label>)
    requires Reachable(cfg, s) && c !in s.conns && s.core.mail.buffer != [] && IsRun(cfg, Apply(cfg, s, LAttach(c)), ls)
    requires LPing(Handler(c)) !in ls
    requires cfg.deliverDelay > 0 ==>
               forall l :: l in ls ==> !(l.LDeliver? && l.thread.Fallback? && l.thread.target == c)
    ensures var s' := After(cfg, Apply(cfg, s, LAttach(c)), ls);
            && c in s'.conns && s'.conns[c].tried <= [Hello]
            && !(s'.core.link.sink == Some(c) && s'.core.link.settled)
  {
    hide Reachable, Inv, IsRun, After, Apply, ShapeOk, Waits;
    var s1 := Apply(cfg, s, LAttach(c));
    AttachedIsUnready(cfg, s, c);
    ReachableStep(cfg, s, LAttach(c));
    ReachableInv(cfg, s1);
    RunLeavesUnready(cfg, s1, ls, c);
    var s' := After(cfg, s1, ls);
    SettledHasSettler(cfg, s', c);
    UnsettledSawHello(s'.conns[c]);
  }

  // ---- Nothing buffered

  /** Before its hello is done the handler knows nothing was buffered; after, the connection, if it
      is still current, is settled. */
  predicate SettlesAtOnce(s: State, c: Conn) {
    && c in s.conns && Handler(c) in s.threads.pcs
    && var pc := s.threads.pcs[Handler(c)];
       && (pc.Writing? && pc.purpose.ForHello? ==> pc.purpose.buffered == 0)
       && (pc.HelloSent? ==> pc.buffered == 0)
       && (s.core.link.sink == Some(c) ==> s.core.link.settled || BeforeSettling(pc))
  }

  lemma DeliverSettlesAtOnce(s: State, t: Thread, ids: seq<string>, c: Conn)
    requires SettlesAtOnce(s, c) && MayDeliver(s, t, ids)
    ensures SettlesAtOnce(Deliver'(s, t, ids), c)
  {
    hide StampAll, RecordIds, RecordStamps;
  }

  lemma EventSettlesAtOnce(s: State, raw: SocketMode.Raw, id: string, c: Conn)
    requires SettlesAtOnce(s, c)
    ensures SettlesAtOnce(Event'(s, raw, id), c)
  {
    hide SocketMode.RewriteEnvelopeId;
  }

  lemma StepSettlesAtOnce(cfg: Config, s: State, l: Label, c: Conn)
    requires SettlesAtOnce(s, c) && Enabled(cfg, s, l)
    ensures SettlesAtOnce(Apply(cfg, s, l), c)
  {
    hide SocketMode.IsEventFrame;
    if l.LDeliver? {
      DeliverSettlesAtOnce(s, l.thread, l.ids, c);
    } else if l.LEvent? {
      EventSettlesAtOnce(s, l.raw, l.id, c);
    } else if IsIdleLabel(l) {
      IdleLabelFrame(cfg, s, l);
    }
  }

  lemma {:induction false} RunSettlesAtOnce(cfg: Config, s: State, ls: seq<Label>, c: Conn)
    requires SettlesAtOnce(s, c) && IsRun(cfg, s, ls)
    ensures SettlesAtOnce(After(cfg, s, ls), c)
    decreases |ls|
  {
    hide Enabled, Apply, SettlesAtOnce;
    if ls != [] {
      StepSettlesAtOnce(cfg, s, ls[0], c);
      RunSettlesAtOnce(cfg, Apply(cfg, s, ls[0]), ls[1..], c);
    }
  }

  /** A connection attached with nothing buffered is settled by the time Attach returns, if it is
      still current, whatever else happens meanwhile: it waits for no heartbeat and no timer. */
  lemma NothingHeldSettlesAtOnce(cfg: Config, s: State, c: Conn, ls: seq<Label>)
    requires c !in s.conns && s.core.mail.buffer == [] && IsRun(cfg, Apply(cfg, s, LAttach(c)), ls)
    requires At(After(cfg, Apply(cfg, s, LAttach(c)), ls), Handler(c), Ready)
    ensures var s' := After(cfg, Apply(cfg, s, LAttach(c)), ls);
            s'.core.link.sink == Some(c) ==> s'.core.link.settled
  {
    var s1 := Apply(cfg, s, LAttach(c));
    assert SettlesAtOnce(s1, c);
    hide IsRun, After, Apply;
    RunSettlesAtOnce(cfg, s1, ls, c);
  }

  // ---- Stopped timers

  /** The steps that stop the fallback timer: an attach, the current connection's detach, and the
      delivery that settles a connection. */
  predicate StopsFallback(s: State, l: Label) {
    || l.LAttach?
    || (l.LDetach? && s.core.link.sink == Some(l.conn))
    || (l.LDeliver? && !l.thread.Reader? && Settles(s.core.link, ConnOf(l.thread)))
  }

  predicate Gone(link: Link, tm: nat) {
    tm !in link.pending && tm < link.nextTimer
  }

  lemma StepKeepsGone(cfg: Config, s: State, l: Label, tm: nat)
    requires Gone(s.core.link, tm) && Enabled(cfg, s, l)
    ensures l != LFallbackFires(tm) && Gone(Apply(cfg, s, l).core.link, tm)
  {
    hide SocketMode.RewriteEnvelopeId, SocketMode.IsEventFrame, StampAll, RecordIds, RecordStamps;
  }

  lemma {:induction false} RunKeepsGone(cfg: Config, s: State, ls: seq<Label>, tm: nat)
    requires Gone(s.core.link, tm) && IsRun(cfg, s, ls)
    ensures LFallbackFires(tm) !in ls
    decreases |ls|
  {
    hide Enabled, Apply, Gone;
    if ls != [] {
      StepKeepsGone(cfg, s, ls[0], tm);
      RunKeepsGone(cfg, Apply(cfg, s, ls[0]), ls[1..], tm);
      assert ls == [ls[0]] + ls[1..];
    }
  }

  /** A fallback timer the session points at when it is stopped never fires afterwards. */
  lemma StoppedTimerNeverFires(cfg: Config, s: State, l: Label, ls: seq<Label>, tm: nat)
    requires Reachable(cfg, s) && Enabled(cfg, s, l) && StopsFallback(s, l)
    requires s.core.link.deliverTmr == Some(tm) && tm in s.core.link.pending && IsRun(cfg, Apply(cfg, s, l), ls)
    ensures LFallbackFires(tm) !in ls
  {
    hide Reachable, Inv, IsRun, StampAll, RecordIds, RecordStamps;
    ReachableInv(cfg, s);
    PendingIsOld(cfg, s, tm);
    assert Gone(Apply(cfg, s, l).core.link, tm);
    RunKeepsGone(cfg, Apply(cfg, s, l), ls, tm);
  }

  lemma PendingIsOld(cfg: Config, s: State, tm: nat)
    requires Inv(cfg, s) && tm in s.core.link.pending
    ensures tm < s.core.link.nextTimer
  {
    hide LogInv, PlaceInv, FlowInv, ContentInv;
  }

  // ---- Calls that happen once

  /** Delivery is idempotent per attach: a heartbeat on a connection that is settled or no longer
      current leaves everything as it was. */
  lemma RepeatedHeartbeatChangesNothing(cfg: Config, s: State, c: Conn, ids: seq<string>)
    requires At(s, Handler(c), Ready) && !Settles(s.core.link, c)
    ensures Enabled(cfg, s, LPing(Handler(c)))
    ensures var s1 := Apply(cfg, s, LPing(Handler(c)));
            Enabled(cfg, s1, LDeliver(Handler(c), ids)) && Apply(cfg, s1, LDeliver(Handler(c), ids)) == s
  {
    var t := Handler(c);
    assert s.threads.pcs[t := Pinged][t := Ready] == s.threads.pcs;
  }

  /** A handler that has detached, or a fallback that has started to deliver. */
  predicate PastIt(pcs: map<Thread, Pc>, t: Thread) {
    && t in pcs && (t.Handler? ==> pcs[t].Finished?) && (t.Fallback? ==> !pcs[t].Ready?)
    && !t.Reader?
  }

  lemma StepKeepsPast(cfg: Config, s: State, l: Label, t: Thread)
    requires FreshInv(s) && PastIt(s.threads.pcs, t) && Enabled(cfg, s, l)
    ensures PastIt(Apply(cfg, s, l).threads.pcs, t)
  {
    hide SocketMode.RewriteEnvelopeId, SocketMode.IsEventFrame, StampAll, RecordIds, RecordStamps;
    if IsIdleLabel(l) {
      hide Apply, Enabled, FreshInv;
      IdleLabelFrame(cfg, s, l);
    }
  }

  /** The step is taken by handler or fallback `t` out of its loop or at its start. */
  predicate Begins(l: Label, t: Thread) {
    || (l.LDeliver? && l.thread == t)
    || (t.Handler? && (l == LPing(t) || l == LDetach(t.conn) || (l.LAck? && l.conn == t.conn)))
  }

  lemma PastBeginsNothing(cfg: Config, s: State, l: Label, t: Thread)
    requires PastIt(s.threads.pcs, t) && Enabled(cfg, s, l)
    ensures !Begins(l, t)
  {
  }

  lemma {:induction false} RunKeepsPast(cfg: Config, s: State, ls: seq<Label>, t: Thread)
    requires Inv(cfg, s) && PastIt(s.threads.pcs, t) && IsRun(cfg, s, ls)
    ensures forall l :: l in ls ==> !Begins(l, t)
    decreases |ls|
  {
    hide Enabled, Apply, PastIt, Begins, LogInv, PlaceInv, FlowInv, ContentInv, FreshInv;
    if ls != [] {
      PastBeginsNothing(cfg, s, ls[0], t);
      StepKeepsPast(cfg, s, ls[0], t);
      StepKeepsInv(cfg, s, ls[0]);
      hide Inv;
      RunKeepsPast(cfg, Apply(cfg, s, ls[0]), ls[1..], t);
      assert ls == [ls[0]] + ls[1..];
    }
  }

  /** After its detach a handler reads no ack and no heartbeat and detaches no more; a fallback timer
      delivers once. */
  lemma DetachAndFallbackHappenOnce(cfg: Config, s: State, l: Label, ls: seq<Label>)
    requires Reachable(cfg, s) && Enabled(cfg, s, l) && IsRun(cfg, Apply(cfg, s, l), ls)
    requires l.LDetach? || (l.LDeliver? && l.thread.Fallback?)
    ensures l.LDetach? ==>
              forall m :: m in ls ==>
                m != LDetach(l.conn) && m != LPing(Handler(l.conn)) && !(m.LAck? && m.conn == l.conn)
    ensures l.LDeliver? ==> forall m :: m in ls ==> !(m.LDeliver? && m.thread == l.thread)
  {
    hide Reachable, Inv, IsRun, StampAll, RecordIds, RecordStamps;
    var t := if l.LDetach? then Handler(l.conn) else l.thread;
    var s1 := Apply(cfg, s, l);
    assert PastIt(s1.threads.pcs, t);
    hide Apply, Enabled, PastIt;
    ReachableStep(cfg, s, l);
    ReachableInv(cfg, s1);
    RunKeepsPast(cfg, s1, ls, t);
  }
}
