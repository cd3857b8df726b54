/** All session invariants together, in every reachable state of every run. */
module SessionInvariant {
  import opened SocketMode
  import opened SessionCore
  import opened SessionMachine
  import opened LogRefinement
  import opened Placement
  import opened Delivery
  import opened Content
  import opened Lifecycle
  import opened IdleSuspend
  import opened FallbackDelivery

  /** Only event frames are ever received. */
  ghost predicate EventsOnly(received: seq<Raw>) {
    forall i :: 0 <= i < |received| ==> IsEventFrame(received[i])
  }

  /** Nothing is received without a reader. */
  ghost predicate HeardByReader(s: State) {
    s.log.received != [] ==> s.core.reader.started
  }

  /** A reader that waits for a frame does nothing else. */
  ghost predicate ReadingOk(s: State) {
    s.reading ==> At(s, Reader, Ready)
  }

  ghost predicate Inv(cfg: Config, s: State) {
    && LogInv(s) && EventsOnly(s.log.received) && HeardByReader(s) && ReadingOk(s)
    && FreshInv(s) && LockOk(s.threads) && PlaceInv(s)
    && FlowInv(s) && ContentInv(s)
    && ResumeInv(s) && SuspendInv(s) && ForwardInv(s)
    && TimerInv(cfg, s) && CountdownsOff(cfg, s) && DeliveryInv(s) && AbsentIsReset(s) && AwakeInv(cfg, s)
    && FallbackInv(cfg, s) && HeartbeatOnly(cfg, s)
  }

  lemma InitialInv(cfg: Config)
    ensures Inv(cfg, INITIAL)
  {
    assert LogInv(INITIAL);
    assert FreshInv(INITIAL) && PlaceInv(INITIAL) && FlowInv(INITIAL) && ContentInv(INITIAL);
  }

  lemma StepKeepsEvents(cfg: Config, s: State, l: Label)
    requires EventsOnly(s.log.received) && Enabled(cfg, s, l)
    ensures EventsOnly(Apply(cfg, s, l).log.received)
  {
    hide IsEventFrame;
    var s' := Apply(cfg, s, l);
    assert s'.log.received == if l.LEvent? then s.log.received + [l.raw] else s.log.received;
  }

  lemma StepKeepsHeard(cfg: Config, s: State, l: Label)
    requires HeardByReader(s) && FreshInv(s) && Enabled(cfg, s, l)
    ensures HeardByReader(Apply(cfg, s, l))
  {
    hide IsEventFrame;
  }

  lemma StepKeepsReading(cfg: Config, s: State, l: Label)
    requires ReadingOk(s) && Enabled(cfg, s, l)
    ensures ReadingOk(Apply(cfg, s, l))
  {
    hide IsEventFrame, RewriteEnvelopeId, StampAll, RecordIds, RecordStamps;
  }

  lemma OrderedByLog(s: State)
    requires LogInv(s)
    ensures Ordered(s.core.mail)
  {
  }

  lemma StepKeepsInv(cfg: Config, s: State, l: Label)
    requires Inv(cfg, s) && Enabled(cfg, s, l)
    ensures Inv(cfg, Apply(cfg, s, l))
  {
    hide Enabled, Apply, LogInv, EventsOnly, HeardByReader, ReadingOk, FreshInv, LockOk, PlaceInv, FlowInv,
      ContentInv, ResumeInv, SuspendInv, ForwardInv, TimerInv, CountdownsOff, DeliveryInv, AbsentIsReset, AwakeInv,
      FallbackInv, HeartbeatOnly, Ordered;
    OrderedByLog(s);
    StepKeepsLog(cfg, s, l);
    StepKeepsEvents(cfg, s, l);
    StepKeepsHeard(cfg, s, l);
    StepKeepsReading(cfg, s, l);
    KnownConnections(s);
    StepKeepsFresh(cfg, s, l);
    StepKeepsLock(cfg, s, l);
    StepKeepsPlace(cfg, s, l);
    StepKeepsFlow(cfg, s, l);
    StepKeepsContent(cfg, s, l);
    StepKeepsResume(cfg, s, l);
    StepKeepsSuspend(cfg, s, l);
    StepKeepsForwards(cfg, s, l);
    StepKeepsTimer(cfg, s, l);
    StepKeepsCountdownsOff(cfg, s, l);
    StepKeepsDelivery(cfg, s, l);
    StepKeepsReset(cfg, s, l);
    StepKeepsAwake(cfg, s, l);
    StepKeepsFallback(cfg, s, l);
    StepKeepsHeartbeatOnly(cfg, s, l);
  }

  lemma {:induction false} RunKeepsInv(cfg: Config, s: State, ls: seq<Label>)
    requires Inv(cfg, s) && IsRun(cfg, s, ls)
    ensures Inv(cfg, After(cfg, s, ls))
    decreases |ls|
  {
    hide Inv, Enabled, Apply;
    if ls != [] {
      StepKeepsInv(cfg, s, ls[0]);
      RunKeepsInv(cfg, Apply(cfg, s, ls[0]), ls[1..]);
    }
  }

  lemma ReachableInv(cfg: Config, s: State)
    requires Reachable(cfg, s)
    ensures Inv(cfg, s)
  {
    hide Inv, Enabled, Apply;
    var ls :| IsRun(cfg, INITIAL, ls) && After(cfg, INITIAL, ls) == s;
    InitialInv(cfg);
    RunKeepsInv(cfg, INITIAL, ls);
  }
}
