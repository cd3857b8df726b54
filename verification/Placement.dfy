/** Which goroutine may be where: `sinkWrite` has one holder, each connection is settled by one
    thread, and only hello is written to a connection before it is settled. */
module Placement {
  import opened Wrappers
  import SocketMode
  import opened SessionCore
  import opened SessionMachine

  type Conns = map<Conn, ConnLog>

  /** The steps that touch neither threads, connections nor the delivery fields. */
  predicate IsIdleLabel(l: Label) {
    || l.LClose? || l.LRead? || l.LSkip? || l.LIdleFires? || l.LOnIdle? || l.LBeginForward? || l.LEndForward?
    || l.LSuspendReturns? || l.LTick?
  }

  lemma IdleLabelFrame(cfg: Config, s: State, l: Label)
    requires Enabled(cfg, s, l) && IsIdleLabel(l)
    ensures var s' := Apply(cfg, s, l);
            && s'.threads == s.threads && s'.conns == s.conns && s'.core.link == s.core.link
            && s'.core.mail == s.core.mail && s'.log == s.log && s'.readers == s.readers && s'.resumes == s.resumes
            && s'.core.reader.started == s.core.reader.started
  {
  }

  // ---- Goroutines exist once

  /** One handler per connection, one reader iff started, each fallback timer fires once. */
  ghost predicate FreshOk(threads: set<Thread>, conns: set<Conn>, link: Link) {
    && (forall c: Conn :: c in conns <==> Handler(c) in threads)
    && (link.sink.Some? ==> link.sink.value in conns)
    && (forall tm: nat :: tm in link.pending ==> tm < link.nextTimer && link.pending[tm] in conns)
    && (forall tm: nat, c: Conn :: Fallback(tm, c) in threads ==>
          tm < link.nextTimer && c in conns && tm !in link.pending)
  }

  ghost predicate ReaderOk(threads: set<Thread>, reader: ReaderFields, readers: nat) {
    && (Reader in threads <==> reader.started)
    && readers == (if reader.started then 1 else 0)
  }

  ghost predicate FreshInv(s: State) {
    && FreshOk(s.threads.pcs.Keys, s.conns.Keys, s.core.link)
    && ReaderOk(s.threads.pcs.Keys, s.core.reader, s.readers)
  }

  /** Steps that move an existing thread and add none. */
  lemma MoveFrame(cfg: Config, s: State, l: Label)
    requires Enabled(cfg, s, l)
    requires || l.LAcquire? || l.LCheck? || l.LRelease? || l.LNote? || l.LPing? || l.LAck? || l.LResumeReturns?
             || IsIdleLabel(l)
    ensures var s' := Apply(cfg, s, l);
            && s'.threads.pcs.Keys == s.threads.pcs.Keys && s'.conns == s.conns
            && s'.core.link == s.core.link.(resuming := s'.core.link.resuming)
            && s'.readers == s.readers && s'.core.reader.started == s.core.reader.started
  {
    hide SocketMode.IsEventFrame, StampAll, RecordIds, RecordStamps;
    if IsIdleLabel(l) {
      hide Apply, Enabled;
      IdleLabelFrame(cfg, s, l);
    } else if !l.LAck? && !l.LResumeReturns? {
      assert s.threads.pcs.Keys + {l.thread} == s.threads.pcs.Keys;
    }
  }

  lemma EventKeepsFresh(s: State, raw: SocketMode.Raw, id: string)
    requires FreshInv(s) && At(s, Reader, Ready)
    ensures FreshInv(Event'(s, raw, id))
  {
    assert s.threads.pcs.Keys + {Reader} == s.threads.pcs.Keys;
    if s.core.link.sink.Some? {
      assert s.conns.Keys + {s.core.link.sink.value} == s.conns.Keys;
    }
  }

  lemma WriteKeepsFresh(s: State, t: Thread, ok: bool)
    requires FreshInv(s) && InPhase(s, t, Committed) && s.threads.pcs[t].frames != []
    requires s.threads.pcs[t].conn in s.conns
    ensures FreshInv(Write'(s, t, ok))
  {
    assert s.threads.pcs.Keys + {t} == s.threads.pcs.Keys;
    assert s.conns.Keys + {s.threads.pcs[t].conn} == s.conns.Keys;
  }

  lemma DeliverKeepsFresh(s: State, t: Thread, ids: seq<string>)
    requires FreshInv(s) && MayDeliver(s, t, ids)
    ensures FreshInv(Deliver'(s, t, ids))
  {
    assert s.threads.pcs.Keys + {t} == s.threads.pcs.Keys;
    assert ConnOf(t) in s.conns;
    assert s.conns.Keys + {ConnOf(t)} == s.conns.Keys;
  }

  lemma AttachKeepsFresh(s: State, c: Conn)
    requires FreshInv(s) && c !in s.conns
    ensures FreshInv(Attach'(s, c))
  {
  }

  lemma HoldKeepsFresh(cfg: Config, s: State, c: Conn)
    requires FreshInv(s) && MayHold(s, c)
    ensures FreshInv(Hold'(cfg, s, c))
  {
  }

  lemma DetachKeepsFresh(s: State, c: Conn)
    requires FreshInv(s) && At(s, Handler(c), Ready)
    ensures FreshInv(Detach'(s, c))
  {
  }

  lemma StartAndFireKeepFresh(cfg: Config, s: State, l: Label)
    requires FreshInv(s) && Enabled(cfg, s, l)
    requires l.LEnsureStarted? || l.LFallbackFires?
    ensures FreshInv(Apply(cfg, s, l))
  {
  }

  lemma StepKeepsFresh(cfg: Config, s: State, l: Label)
    requires forall t :: t in s.threads.pcs && s.threads.pcs[t].Writing? ==> s.threads.pcs[t].conn in s.conns
    requires FreshInv(s) && Enabled(cfg, s, l)
    ensures FreshInv(Apply(cfg, s, l))
  {
    match l
    case LEvent(raw, id) => EventKeepsFresh(s, raw, id);
    case LWrite(t, ok) => WriteKeepsFresh(s, t, ok);
    case LDeliver(t, ids) => DeliverKeepsFresh(s, t, ids);
    case LEnsureStarted(_) => StartAndFireKeepFresh(cfg, s, l);
    case LAttach(c) => AttachKeepsFresh(s, c);
    case LHold(c) => HoldKeepsFresh(cfg, s, c);
    case LDetach(c) => DetachKeepsFresh(s, c);
    case LFallbackFires(_) => StartAndFireKeepFresh(cfg, s, l);
    case _ => MoveFrame(cfg, s, l);
  }

  /** Only Attach adds a connection. */
  lemma StepConns(cfg: Config, s: State, l: Label)
    requires forall t :: t in s.threads.pcs && s.threads.pcs[t].Writing? ==> s.threads.pcs[t].conn in s.conns
    requires FreshInv(s) && Enabled(cfg, s, l)
    ensures Apply(cfg, s, l).conns.Keys == if l.LAttach? then s.conns.Keys + {l.conn} else s.conns.Keys
  {
    hide SocketMode.RewriteEnvelopeId, SocketMode.IsEventFrame, StampAll, RecordIds, RecordStamps;
    match l
    case LEvent(_, _) =>
      if s.core.link.sink.Some? {
        assert s.conns.Keys + {s.core.link.sink.value} == s.conns.Keys;
      }
    case LWrite(t, _) => assert s.conns.Keys + {s.threads.pcs[t].conn} == s.conns.Keys;
    case LDeliver(t, _) => assert s.conns.Keys + {ConnOf(t)} == s.conns.Keys;
    case LAttach(_) =>
    case _ => hide FreshInv; OtherStepConns(cfg, s, l);
  }

  lemma OtherStepConns(cfg: Config, s: State, l: Label)
    requires Enabled(cfg, s, l) && !l.LEvent? && !l.LWrite? && !l.LDeliver? && !l.LAttach?
    ensures Apply(cfg, s, l).conns == s.conns
  {
  }

  /** Without a reader no event can arrive, and only EnsureStarted starts one. */
  lemma StepWithoutReader(cfg: Config, s: State, l: Label)
    requires FreshInv(s) && Enabled(cfg, s, l) && !l.LEnsureStarted? && !s.core.reader.started
    ensures !Apply(cfg, s, l).core.reader.started && Apply(cfg, s, l).log.received == s.log.received
  {
    assert Reader !in s.threads.pcs;
    hide FreshInv, SocketMode.IsEventFrame, StampAll, RecordIds, RecordStamps;
  }

  lemma StepReaders(cfg: Config, s: State, l: Label)
    requires Enabled(cfg, s, l)
    ensures Apply(cfg, s, l).readers == if l.LEnsureStarted? && StartsReader(s.core) then s.readers + 1 else s.readers
  {
    hide SocketMode.IsEventFrame, StampAll, RecordIds, RecordStamps;
  }

  // ---- The write lock

  ghost predicate LockOk(th: Threads) {
    && (th.lock.Some? ==> th.lock.value in th.pcs)
    && forall t :: t in th.pcs ==>
         (th.pcs[t].Writing? && th.pcs[t].phase != Waiting <==> th.lock == Some(t))
  }

  /** A new thread starts outside the lock, and a thread that moves outside it leaves it alone. */
  lemma MoveKeepsLock(th: Threads, t: Thread, pc: Pc)
    requires LockOk(th) && (t in th.pcs ==> !th.pcs[t].Writing? || th.pcs[t].phase == Waiting)
    requires pc.Writing? ==> pc.phase == Waiting
    ensures LockOk(Goto(th, t, pc))
  {
  }

  lemma StepKeepsLock(cfg: Config, s: State, l: Label)
    requires LockOk(s.threads) && FreshInv(s) && Enabled(cfg, s, l)
    ensures LockOk(Apply(cfg, s, l).threads)
  {
    match l
    case LAcquire(_) =>
    case LCheck(_) =>
    case LWrite(_, _) =>
    case LRelease(_) =>
    case _ => MovesKeepLock(cfg, s, l);
  }

  lemma MovesKeepLock(cfg: Config, s: State, l: Label)
    requires LockOk(s.threads) && FreshInv(s) && Enabled(cfg, s, l)
    requires !l.LAcquire? && !l.LCheck? && !l.LWrite? && !l.LRelease?
    ensures LockOk(Apply(cfg, s, l).threads)
  {
    var th' := Apply(cfg, s, l).threads;
    var t :=
      match l
      case LAttach(c) => Handler(c)
      case LHold(c) => Handler(c)
      case LDetach(c) => Handler(c)
      case LDeliver(t, _) => t
      case LNote(t) => t
      case LPing(t) => t
      case LFallbackFires(tm) => Fallback(tm, s.core.link.pending[tm])
      case _ => Reader;
    if th' != s.threads {
      assert t in s.threads.pcs ==> !s.threads.pcs[t].Writing?;
      assert th' == Goto(s.threads, t, th'.pcs[t]);
      MoveKeepsLock(s.threads, t, th'.pcs[t]);
    }
  }

  // ---- Each thread in its place

  predicate BeforeSettling(pc: Pc) {
    pc.HelloSent? || (pc.Writing? && pc.purpose.ForHello?)
  }

  ghost predicate ReaderPlace(pc: Pc, conns: Conns) {
    || pc.Ready? || pc.Noting?
    || (pc.Writing? && pc.purpose.ForLive? && pc.conn in conns && conns[pc.conn].settler.Some?)
  }

  /** A handler or fallback thread `t` of connection `c`, whose log is `h` and whose handler is at
      `handler`: it writes only to `c`, it writes the batch only if it settled `c`, and `c` is not
      settled before its hello is done. */
  ghost predicate ConnPlace(t: Thread, pc: Pc, c: Conn, h: ConnLog, handler: Pc) {
    && (pc.Writing? ==> pc.conn == c && !pc.purpose.ForLive?)
    && (pc.Writing? && pc.purpose.ForBatch? ==> h.settler == Some(t))
    && (pc.Noting? ==> h.settler == Some(t))
    && (t.Fallback? ==> !BeforeSettling(pc) && !BeforeSettling(handler))
    && (BeforeSettling(handler) ==> h.settler.None?)
  }

  ghost predicate HandlersExist(pcs: map<Thread, Pc>, conns: Conns) {
    forall c: Conn :: c in conns <==> Handler(c) in pcs
  }

  ghost predicate PlaceOk(pcs: map<Thread, Pc>, conns: Conns) {
    && HandlersExist(pcs, conns)
    && (Reader in pcs ==> ReaderPlace(pcs[Reader], conns))
    && (forall t :: t in pcs && !t.Reader? ==>
          ConnOf(t) in conns && ConnPlace(t, pcs[t], ConnOf(t), conns[ConnOf(t)], pcs[Handler(ConnOf(t))]))
    && (forall c :: c in conns && conns[c].settler.Some? ==>
          conns[c].settler.value in pcs && !conns[c].settler.value.Reader? && ConnOf(conns[c].settler.value) == c)
  }

  /** The link agrees with the connections: settled means the current connection has a settler, and
      a fallback timer is armed only after hello. */
  ghost predicate LinkOk(pcs: map<Thread, Pc>, conns: Conns, link: Link)
    requires HandlersExist(pcs, conns)
  {
    && (forall tm: nat :: tm in link.pending ==>
          link.pending[tm] in conns && !BeforeSettling(pcs[Handler(link.pending[tm])]))
    && (link.settled ==> link.sink.Some?)
    && (link.sink.Some? ==>
          link.sink.value in conns && (link.settled <==> conns[link.sink.value].settler.Some?))
  }

  ghost predicate PlaceInv(s: State) {
    PlaceOk(s.threads.pcs, s.conns) && LinkOk(s.threads.pcs, s.conns, s.core.link)
  }

  lemma KnownConnections(s: State)
    requires PlaceInv(s)
    ensures s.core.link.sink.Some? ==> s.core.link.sink.value in s.conns
    ensures forall t :: t in s.threads.pcs && s.threads.pcs[t].Writing? ==> s.threads.pcs[t].conn in s.conns
  {
  }

  lemma MoveKeepsPlace(pcs: map<Thread, Pc>, conns: Conns, link: Link, t: Thread, pc: Pc)
    requires PlaceOk(pcs, conns) && LinkOk(pcs, conns, link) && t in pcs
    requires t.Reader? ==> ReaderPlace(pc, conns)
    requires !t.Reader? ==>
               ConnPlace(t, pc, ConnOf(t), conns[ConnOf(t)], if t.Handler? then pc else pcs[Handler(ConnOf(t))])
    requires t.Handler? && BeforeSettling(pc) ==> BeforeSettling(pcs[t])
    ensures PlaceOk(pcs[t := pc], conns) && LinkOk(pcs[t := pc], conns, link)
  {
  }

  /** A connection's log may change freely as long as its settler does not. */
  lemma LogKeepsPlace(pcs: map<Thread, Pc>, conns: Conns, link: Link, c: Conn, h: ConnLog)
    requires PlaceOk(pcs, conns) && LinkOk(pcs, conns, link) && c in conns && h.settler == conns[c].settler
    ensures PlaceOk(pcs, conns[c := h]) && LinkOk(pcs, conns[c := h], link)
  {
  }

  lemma SettleKeepsPlace(pcs: map<Thread, Pc>, conns: Conns, t: Thread, pc: Pc, h: ConnLog)
    requires PlaceOk(pcs, conns) && t in pcs && !t.Reader?
    requires conns[ConnOf(t)].settler.None? && h.settler == Some(t)
    requires pc.Writing? && pc.conn == ConnOf(t) && pc.purpose.ForBatch?
    ensures PlaceOk(pcs[t := pc], conns[ConnOf(t) := h])
  {
  }

  lemma AttachKeepsPlace(s: State, c: Conn)
    requires PlaceInv(s) && c !in s.conns
    ensures PlaceInv(Attach'(s, c))
  {
  }

  lemma EventKeepsPlace(s: State, raw: SocketMode.Raw, id: string)
    requires PlaceInv(s) && At(s, Reader, Ready)
    ensures PlaceInv(Event'(s, raw, id))
  {
    if DeliversLive(s.core.link) {
      var c := s.core.link.sink.value;
      var frame := Stamp(PendingEvent(s.core.mail.nextKey, raw), id);
      MoveKeepsPlace(s.threads.pcs, s.conns, s.core.link, Reader, Writing(c, [frame], Waiting, ForLive));
      LogKeepsPlace(s.threads.pcs[Reader := Writing(c, [frame], Waiting, ForLive)], s.conns, s.core.link,
                    c, s.conns[c].(live := s.conns[c].live + [frame]));
    }
  }

  lemma WriteKeepsPlace(s: State, t: Thread, ok: bool)
    requires PlaceInv(s) && InPhase(s, t, Committed) && s.threads.pcs[t].frames != []
    ensures PlaceInv(Write'(s, t, ok))
  {
    var pc := s.threads.pcs[t];
    var pc' := pc.(frames := pc.frames[1..], phase := if ok then Checking else Releasing);
    MoveKeepsPlace(s.threads.pcs, s.conns, s.core.link, t, pc');
    LogKeepsPlace(s.threads.pcs[t := pc'], s.conns, s.core.link,
                  pc.conn, Try(s.conns[pc.conn], pc.frames[0], pc.purpose, ok));
  }

  lemma DeliverKeepsPlace(s: State, t: Thread, ids: seq<string>)
    requires PlaceInv(s) && MayDeliver(s, t, ids)
    ensures PlaceInv(Deliver'(s, t, ids))
  {
    var c := ConnOf(t);
    if Settles(s.core.link, c) {
      var frames := StampAll(s.core.mail.buffer, ids);
      SettleKeepsPlace(s.threads.pcs, s.conns, t, Writing(c, frames, Waiting, ForBatch),
                       s.conns[c].(settler := Some(t), batch := frames));
    } else {
      MoveKeepsPlace(s.threads.pcs, s.conns, s.core.link, t, Return(t));
    }
  }

  lemma FallbackKeepsPlace(s: State, tm: nat)
    requires PlaceInv(s) && FreshInv(s) && tm in s.core.link.pending
    ensures PlaceInv(FallbackFires'(s, tm))
  {
    assert Fallback(tm, s.core.link.pending[tm]) !in s.threads.pcs;
  }

  lemma ThreadMoveKeepsPlace(cfg: Config, s: State, l: Label)
    requires PlaceInv(s) && Enabled(cfg, s, l)
    requires l.LAcquire? || l.LCheck? || l.LRelease? || l.LNote? || l.LPing?
    ensures PlaceInv(Apply(cfg, s, l))
  {
    var s' := Apply(cfg, s, l);
    MoveKeepsPlace(s.threads.pcs, s.conns, s.core.link, l.thread, s'.threads.pcs[l.thread]);
  }

  lemma HoldKeepsPlace(cfg: Config, s: State, c: Conn)
    requires PlaceInv(s) && MayHold(s, c)
    ensures PlaceInv(Hold'(cfg, s, c))
  {
    MoveKeepsPlace(s.threads.pcs, s.conns, s.core.link, Handler(c), Ready);
    hide PlaceOk;
  }

  lemma DetachKeepsPlace(s: State, c: Conn)
    requires PlaceInv(s) && At(s, Handler(c), Ready)
    ensures PlaceInv(Detach'(s, c))
  {
    MoveKeepsPlace(s.threads.pcs, s.conns, s.core.link, Handler(c), Finished);
    hide PlaceOk;
  }

  lemma ResumeKeepsPlace(s: State, ok: bool)
    requires PlaceInv(s) && s.resumes.running > 0
    ensures PlaceInv(ResumeReturns'(s, ok))
  {
  }

  lemma StartKeepsPlace(s: State, token: string)
    requires PlaceInv(s) && FreshInv(s)
    ensures PlaceInv(EnsureStarted'(s, token))
  {
  }

  lemma StepKeepsPlace(cfg: Config, s: State, l: Label)
    requires PlaceInv(s) && FreshInv(s) && Enabled(cfg, s, l)
    ensures PlaceInv(Apply(cfg, s, l))
  {
    hide PlaceOk, LinkOk, SocketMode.RewriteEnvelopeId, SocketMode.IsEventFrame, StampAll, RecordIds, RecordStamps;
    match l
    case LEnsureStarted(token) => StartKeepsPlace(s, token);
    case LEvent(raw, id) => EventKeepsPlace(s, raw, id);
    case LAttach(c) => AttachKeepsPlace(s, c);
    case LWrite(t, ok) => WriteKeepsPlace(s, t, ok);
    case LDeliver(t, ids) => DeliverKeepsPlace(s, t, ids);
    case LFallbackFires(tm) => FallbackKeepsPlace(s, tm);
    case LAcquire(_) => ThreadMoveKeepsPlace(cfg, s, l);
    case LCheck(_) => ThreadMoveKeepsPlace(cfg, s, l);
    case LRelease(_) => ThreadMoveKeepsPlace(cfg, s, l);
    case LHold(c) => HoldKeepsPlace(cfg, s, c);
    case LNote(_) => ThreadMoveKeepsPlace(cfg, s, l);
    case LPing(_) => ThreadMoveKeepsPlace(cfg, s, l);
    case LDetach(c) => DetachKeepsPlace(s, c);
    case LAck(_, _) => MoveFrame(cfg, s, l);
    case LResumeReturns(_) => ResumeKeepsPlace(s, l.ok);
    case _ => IdleLabelFrame(cfg, s, l);
  }
}
