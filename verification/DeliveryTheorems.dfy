/** What the actor sees, over every run of one session. */
module DeliveryTheorems {
  import opened Wrappers
  import opened SocketMode
  import opened SessionCore
  import opened SessionMachine
  import opened LogRefinement
  import opened Placement
  import opened Delivery
  import opened Content
  import opened FallbackDelivery
  import opened SessionInvariant

  lemma ConnectionFacts(cfg: Config, s: State, c: Conn)
    requires Reachable(cfg, s) && c in s.conns
    ensures ShapeOk(s.conns[c]) && KeysOk(s.conns[c], s.core.mail.nextKey)
  {
    hide Reachable, LogInv, FreshInv, PlaceInv, ContentInv;
    ReachableInv(cfg, s);
  }

  // ---- The shape of a connection's trace

  /** Hello, live events, one contiguous batch, further live events. Batch and live events are each
      in arrival order, every live event is newer than the batch, and nothing precedes hello. */
  ghost predicate IsTrace(tried: seq<Frame>, hello: seq<Frame>, live1: seq<Frame>, batch: seq<Frame>,
                          live2: seq<Frame>)
  {
    && tried == hello + live1 + batch + live2
    && (hello == [Hello] || tried == [])
    && Increasing(batch) && Increasing(live1 + live2)
    && (forall i, j :: 0 <= i < |batch| && 0 <= j < |live1 + live2| ==> batch[i].key < (live1 + live2)[j].key)
  }

  lemma ShapeGivesTrace(h: ConnLog, nextKey: nat)
    requires ShapeOk(h) && KeysOk(h, nextKey)
    ensures IsTrace(h.tried, HelloPart(h.helloTried), h.live[..h.liveBefore], h.batch[..h.batchTried],
                    h.live[h.liveBefore..LiveTried(h)])
    ensures h.live[..h.liveBefore] + h.live[h.liveBefore..LiveTried(h)] <= h.live
  {
    var n := LiveTried(h);
    assert h.live[..h.liveBefore] + h.live[h.liveBefore..n] == h.live[..n];
    if !h.helloTried {
      assert h.live[..0] == [] && h.batch[..0] == [] && h.live[0..0] == [];
    }
  }

  /** On every run, the frames attempted on any connection form such a trace, cut off at any point:
      the batch part is a prefix of the batch stamped when the connection settled, the live part a
      prefix of the live frames stamped for it. */
  lemma TraceShape(cfg: Config, s: State, c: Conn)
    requires Reachable(cfg, s) && c in s.conns
    ensures exists hello, live1, batch, live2 ::
              && IsTrace(s.conns[c].tried, hello, live1, batch, live2)
              && batch <= s.conns[c].batch && live1 + live2 <= s.conns[c].live
  {
    ConnectionFacts(cfg, s, c);
    hide Reachable, KeysOk;
    var h := s.conns[c];
    ShapeGivesTrace(h, s.core.mail.nextKey);
    assert h.batch[..h.batchTried] <= h.batch;
  }

  // ---- At most once, and exactly once

  /** The frames at positions of `tried`, traced back to where they were stamped. */
  lemma TriedAt(h: ConnLog, i: nat)
    requires ShapeOk(h) && i < |h.tried|
    ensures |h.tried| > 0 ==> h.helloTried
    ensures h.tried[i] ==
            if i == 0 then Hello
            else if i <= h.liveBefore then h.live[i - 1]
            else if i <= h.liveBefore + h.batchTried then h.batch[i - 1 - h.liveBefore]
            else h.live[i - 1 - h.batchTried]
  {
  }

  predicate SameEvent(f: Frame, g: Frame) {
    f.Event? && g.Event? && f.key == g.key
  }

  lemma NeverTwice(h: ConnLog, nextKey: nat, i: nat, j: nat)
    requires ShapeOk(h) && KeysOk(h, nextKey) && i < j < |h.tried|
    ensures !SameEvent(h.tried[i], h.tried[j])
  {
    TriedAt(h, i);
    TriedAt(h, j);
  }

  /** No connection is ever offered the same event twice. */
  lemma AtMostOncePerConnection(cfg: Config, s: State, c: Conn, i: nat, j: nat)
    requires Reachable(cfg, s) && c in s.conns && i < j < |s.conns[c].tried|
    ensures !SameEvent(s.conns[c].tried[i], s.conns[c].tried[j])
  {
    ConnectionFacts(cfg, s, c);
    NeverTwice(s.conns[c], s.core.mail.nextKey, i, j);
  }

  /** The frame carries the event: on the wire it decodes to the event's envelope under the frame's
      own id, everything else unchanged. */
  ghost predicate Carries(f: Frame, e: PendingEvent) {
    f.Event? && f.key == e.key && SameUnderNewId(e.raw, f.id, f.out)
  }

  ghost predicate CarriedOnce(tried: seq<Frame>, e: PendingEvent) {
    exists i :: 0 <= i < |tried| && Carries(tried[i], e)
      && forall j :: 0 <= j < |tried| && j != i ==> !SameEvent(tried[j], tried[i])
  }

  /** A call of writeToSink for `c` is still at work. */
  ghost predicate Delivering(s: State, c: Conn) {
    exists t :: t in s.threads.pcs && s.threads.pcs[t].Writing? && s.threads.pcs[t].conn == c
      && s.threads.pcs[t].phase != Releasing
  }

  lemma NothingLeftOut(s: State, c: Conn)
    requires PlaceInv(s) && FlowInv(s) && s.core.link.sink == Some(c) && s.core.link.settled
    requires c in s.conns && !s.conns[c].failed && !Delivering(s, c)
    ensures s.conns[c].settler.Some?
    ensures s.conns[c].batchTried == |s.conns[c].batch| && LiveTried(s.conns[c]) == |s.conns[c].live|
  {
    var h := s.conns[c];
    assert FlowOk(s.threads.pcs, c, h, true);
    assert !WritesLive(ReaderPc(s.threads.pcs), c);
    var spc := s.threads.pcs[h.settler.value];
    assert spc.Writing? ==> spc.conn == c;
  }

  lemma HelloOfCurrent(s: State, c: Conn)
    requires PlaceInv(s) && FlowInv(s) && s.core.link.sink == Some(c) && s.core.link.settled && c in s.conns
    ensures s.conns[c].helloTried
  {
    var handler := s.threads.pcs[Handler(c)];
    assert ConnPlace(Handler(c), handler, c, s.conns[c], handler);
    assert FlowOk(s.threads.pcs, c, s.conns[c], true);
  }

  lemma PositionOf(h: ConnLog, f: Frame) returns (i: nat)
    requires ShapeOk(h) && h.helloTried && StampedOn(h, f)
    requires h.batchTried == |h.batch| && LiveTried(h) == |h.live|
    ensures i < |h.tried| && h.tried[i] == f
  {
    assert |h.tried| == 1 + |h.live| + |h.batch|;
    if f in h.batch {
      var k :| 0 <= k < |h.batch| && h.batch[k] == f;
      i := 1 + h.liveBefore + k;
    } else {
      var k :| 0 <= k < |h.live| && h.live[k] == f;
      i := if k < h.liveBefore then 1 + k else 1 + |h.batch| + k;
    }
    TriedAt(h, i);
  }

  lemma TrueFrameCarries(f: Frame, c: Conn, log: Log, e: PendingEvent)
    requires TrueFrame(f, c, log) && EventsOnly(log.received) && f.key == e.key && e.raw == log.received[e.key]
    ensures Carries(f, e)
  {
    RewritePreservesMeaning(e.raw, f.id);
  }

  lemma BufferedEventHasFrame(s: State, c: Conn, e: PendingEvent) returns (f: Frame)
    requires LogInv(s) && ContentInv(s) && EventsOnly(s.log.received)
    requires s.core.link.sink == Some(c) && s.core.link.settled && c in s.conns && e in s.core.mail.buffer
    ensures StampedOn(s.conns[c], f) && Carries(f, e)
  {
    hide IsEventFrame, SameUnderNewId;
    var i :| 0 <= i < |s.core.mail.buffer| && s.core.mail.buffer[i] == e;
    assert HasKey(s.conns[c], e.key);
    f :| StampedOn(s.conns[c], f) && f.Event? && f.key == e.key;
    TrueFrameCarries(f, c, s.log, e);
  }

  /** The heart of the broker: whenever the current connection is settled, no write on it failed and
      no delivery is under way, every buffered event has been written to it exactly once. */
  lemma ExactlyOncePerSettledConnection(cfg: Config, s: State, c: Conn, e: PendingEvent)
    requires Reachable(cfg, s) && s.core.link.sink == Some(c) && s.core.link.settled
    requires c in s.conns && !s.conns[c].failed && !Delivering(s, c)
    requires e in s.core.mail.buffer
    ensures CarriedOnce(s.conns[c].tried, e)
  {
    var h := s.conns[c];
    ReachableInv(cfg, s);
    hide Reachable, SameUnderNewId, LogInv, FreshInv, PlaceInv, ContentInv, FlowInv, EventsOnly, ShapeOk, KeysOk;
    ConnectionFacts(cfg, s, c);
    HelloOfCurrent(s, c);
    NothingLeftOut(s, c);
    var f := BufferedEventHasFrame(s, c, e);
    var i := PositionOf(h, f);
    forall j | 0 <= j < |h.tried| && j != i ensures !SameEvent(h.tried[j], h.tried[i]) {
      NeverTwice(h, s.core.mail.nextKey, if i < j then i else j, if i < j then j else i);
    }
  }

  // ---- Superseded connections go quiet

  /** Whether the holder of `sinkWrite` is past its test and about to write to `c`. */
  function AboutToWrite(th: Threads, c: Conn): nat {
    if th.lock.Some? && th.lock.value in th.pcs
       && var pc := th.pcs[th.lock.value]; pc.Writing? && pc.phase == Committed && pc.conn == c
    then 1 else 0
  }

  /** Connection `c` is no longer current and was not brought back, and whatever was written to it
      used up a window that was open. */
  ghost predicate StayedQuiet(s: State, s': State, c: Conn) {
    && c in s.conns && c in s'.conns && s'.core.link.sink != Some(c) && s.conns[c].tried <= s'.conns[c].tried
    && |s'.conns[c].tried| + AboutToWrite(s'.threads, c) <= |s.conns[c].tried| + AboutToWrite(s.threads, c)
  }

  lemma WriteUsesUpTheWindow(s: State, t: Thread, ok: bool, c: Conn)
    requires LockOk(s.threads) && InPhase(s, t, Committed) && s.threads.pcs[t].frames != []
    requires c in s.conns && s.core.link.sink != Some(c)
    ensures StayedQuiet(s, Write'(s, t, ok), c)
  {
  }

  /** Taking, testing and releasing the lock opens no window to a connection that is not current. */
  lemma LockStepsStayQuiet(cfg: Config, s: State, l: Label, c: Conn)
    requires LockOk(s.threads) && Enabled(cfg, s, l) && c in s.conns && s.core.link.sink != Some(c)
    requires l.LAcquire? || l.LCheck? || l.LRelease? || l.LNote? || l.LPing?
    ensures StayedQuiet(s, Apply(cfg, s, l), c)
  {
  }

  lemma StampingStepsStayQuiet(cfg: Config, s: State, l: Label, c: Conn)
    requires LockOk(s.threads) && Enabled(cfg, s, l) && c in s.conns && s.core.link.sink != Some(c)
    requires l.LEvent? || l.LDeliver?
    ensures StayedQuiet(s, Apply(cfg, s, l), c)
  {
    hide RewriteEnvelopeId, IsEventFrame, StampAll, RecordIds, RecordStamps;
  }

  lemma OtherStepsStayQuiet(cfg: Config, s: State, l: Label, c: Conn)
    requires LockOk(s.threads) && Enabled(cfg, s, l) && c in s.conns && s.core.link.sink != Some(c)
    requires || l.LAttach? || l.LHold? || l.LDetach? || l.LFallbackFires? || l.LEnsureStarted? || l.LAck?
             || l.LResumeReturns?
    ensures StayedQuiet(s, Apply(cfg, s, l), c)
  {
    hide RemoveKey, WithoutKey;
  }

  /** A step cannot bring a connection back, and opens no new window to write to it. */
  lemma StepStaysQuiet(cfg: Config, s: State, l: Label, c: Conn)
    requires LockOk(s.threads) && Enabled(cfg, s, l) && c in s.conns && s.core.link.sink != Some(c)
    ensures StayedQuiet(s, Apply(cfg, s, l), c)
  {
    hide LockOk, RewriteEnvelopeId, IsEventFrame, StampAll, RecordIds, RecordStamps;
    if l.LWrite? {
      WriteUsesUpTheWindow(s, l.thread, l.ok, c);
    } else if l.LAcquire? || l.LCheck? || l.LRelease? || l.LNote? || l.LPing? {
      LockStepsStayQuiet(cfg, s, l, c);
    } else if l.LEvent? || l.LDeliver? {
      StampingStepsStayQuiet(cfg, s, l, c);
    } else if IsIdleLabel(l) {
      IdleLabelFrame(cfg, s, l);
    } else {
      OtherStepsStayQuiet(cfg, s, l, c);
    }
  }

  lemma {:induction false} RunStaysQuiet(cfg: Config, s: State, ls: seq<Label>, c: Conn)
    requires Inv(cfg, s) && IsRun(cfg, s, ls) && c in s.conns && s.core.link.sink != Some(c)
    ensures StayedQuiet(s, After(cfg, s, ls), c)
    decreases |ls|
  {
    hide AboutToWrite, Enabled, Apply, LockOk, LogInv, EventsOnly, FreshInv, PlaceInv, FlowInv, ContentInv;
    if ls != [] {
      var s1 := Apply(cfg, s, ls[0]);
      StepStaysQuiet(cfg, s, ls[0], c);
      StepKeepsInv(cfg, s, ls[0]);
      hide Inv;
      RunStaysQuiet(cfg, s1, ls[1..], c);
      StayedQuietTrans(s, s1, After(cfg, s, ls), c);
    }
  }

  lemma StayedQuietTrans(s: State, s1: State, s2: State, c: Conn)
    requires StayedQuiet(s, s1, c) && StayedQuiet(s1, s2, c)
    ensures StayedQuiet(s, s2, c)
  {
    hide AboutToWrite;
  }

  /** After a connection is replaced or detached, whatever happens next and however many writers
      are under way, it never becomes current again and at most one more frame is written to it. */
  lemma SupersededGoQuiet(cfg: Config, s: State, ls: seq<Label>, c: Conn)
    requires Reachable(cfg, s) && c in s.conns && s.core.link.sink != Some(c) && IsRun(cfg, s, ls)
    ensures var s' := After(cfg, s, ls);
            && c in s'.conns && s'.core.link.sink != Some(c)
            && s.conns[c].tried <= s'.conns[c].tried && |s'.conns[c].tried| <= |s.conns[c].tried| + 1
  {
    hide Inv, Enabled, Apply;
    ReachableInv(cfg, s);
    RunStaysQuiet(cfg, s, ls, c);
  }

  // ---- Held events without a heartbeat

  /** There are always enough ids that were never drawn. */
  lemma {:induction false} LongerThan(avoid: set<string>) returns (n: nat)
    ensures forall id :: id in avoid ==> |id| <= n
  {
    if avoid == {} {
      n := 0;
    } else {
      var id :| id in avoid;
      var rest := LongerThan(avoid - {id});
      n := if |id| > rest then |id| else rest;
      assert forall other :: other in avoid ==> other == id || other in avoid - {id};
    }
  }

  lemma EnoughIds(log: Log, count: nat) returns (ids: seq<string>)
    ensures |ids| == count && NewIds(log, ids)
  {
    var n := LongerThan(log.stamps.Keys);
    ids := seq(count, i requires 0 <= i < count => seq(n + 1 + i, _ => 'a'));
    assert forall i :: 0 <= i < count ==> |ids[i]| == n + 1 + i;
  }

  /** The continuation `ls` settles the current connection by its fallback timer alone. */
  ghost predicate SettlesByFallback(cfg: Config, s: State, ls: seq<Label>) {
    && (forall l :: l in ls ==> l.LFallbackFires? || (l.LDeliver? && l.thread.Fallback?))
    && IsRun(cfg, s, ls)
    && After(cfg, s, ls).core.link.sink == s.core.link.sink && After(cfg, s, ls).core.link.settled
  }

  lemma RunningFallbackSettles(cfg: Config, s: State, t: Thread) returns (ls: seq<Label>)
    requires t.Fallback? && At(s, t, Ready) && Settles(s.core.link, t.target)
    ensures SettlesByFallback(cfg, s, ls)
  {
    var ids := EnoughIds(s.log, |s.core.mail.buffer|);
    FirstStep(cfg, s, LDeliver(t, ids), []);
    ls := [LDeliver(t, ids)] + [];
  }

  lemma NoTimersNoFallback(cfg: Config, s: State, ls: seq<Label>)
    requires HeartbeatOnly(cfg, s) && cfg.deliverDelay <= 0 && !s.core.link.settled
    ensures !SettlesByFallback(cfg, s, ls)
  {
    if ls != [] && Enabled(cfg, s, ls[0]) {
      assert !(ls[0].LFallbackFires? || (ls[0].LDeliver? && ls[0].thread.Fallback?));
      assert ls[0] in ls;
    }
  }

  lemma PendingFallbackSettles(cfg: Config, s: State, tm: nat) returns (ls: seq<Label>)
    requires tm in s.core.link.pending && Settles(s.core.link, s.core.link.pending[tm])
    ensures SettlesByFallback(cfg, s, ls)
  {
    var s1 := Apply(cfg, s, LFallbackFires(tm));
    var rest := RunningFallbackSettles(cfg, s1, Fallback(tm, s.core.link.pending[tm]));
    FirstStep(cfg, s, LFallbackFires(tm), rest);
    ls := [LFallbackFires(tm)] + rest;
  }

  /** Events held for a greeted connection whose client never sends a heartbeat: the fallback alone
      can deliver them if and only if a positive delay is configured, however many attaches
      overlapped and overwrote the session's one timer field. */
  lemma HeldEventsHaveAFallback(cfg: Config, s: State)
    requires Reachable(cfg, s) && Holding(s.threads.pcs, s.core.link)
    ensures cfg.deliverDelay > 0 <==> exists ls :: SettlesByFallback(cfg, s, ls)
  {
    hide Reachable, SettlesByFallback, LogInv, FlowInv, ContentInv, PlaceInv, FreshInv;
    ReachableInv(cfg, s);
    var c := s.core.link.sink.value;
    if cfg.deliverDelay > 0 {
      var tm: nat :| (tm in s.core.link.pending && s.core.link.pending[tm] == c)
                  || (Fallback(tm, c) in s.threads.pcs && s.threads.pcs[Fallback(tm, c)] == Ready);
      if tm in s.core.link.pending && s.core.link.pending[tm] == c {
        var ls := PendingFallbackSettles(cfg, s, tm);
      } else {
        var ls := RunningFallbackSettles(cfg, s, Fallback(tm, c));
      }
    } else {
      forall ls ensures !SettlesByFallback(cfg, s, ls) {
        NoTimersNoFallback(cfg, s, ls);
      }
    }
  }
}
