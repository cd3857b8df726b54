/** The quiet period before a suspend: what onIdle keeps of it on every run, exactly when it is kept
    in full, and why it is not always. */
module QuietPeriod {
  import opened Wrappers
  import opened SessionCore
  import opened SessionMachine
  import opened LogRefinement
  import opened SocketMode
  import opened IdleSuspend
  import opened SessionInvariant
  import opened MidSend

  /** Every suspend decision waited out the countdown of its own timer, and either nothing touched
      the idle timer for the whole grace period or the callback had fired before the touch. */
  lemma SuspendFollowsQuietPeriod(cfg: Config, s: State, tm: nat)
    requires Reachable(cfg, s) && tm in s.callbacks && SuspendsNow(s.core)
    ensures s.now >= s.callbacks[tm].armedAt + cfg.idleGrace
    ensures s.now >= s.lastTouch + cfg.idleGrace || s.callbacks[tm].firedAt <= s.lastTouch
  {
    hide LogInv, Reachable;
    ReachableInv(cfg, s);
  }

  /** The session's timer field tells whether a queued callback is stale: it points at the callback's
      timer if and only if nothing touched the idle timer since it fired, and then nothing touched it
      for the whole grace period. onIdle does not look. */
  lemma TimerFieldTellsStaleCallbacks(cfg: Config, s: State, tm: nat)
    requires Reachable(cfg, s) && tm in s.callbacks
    ensures s.core.idle.idleTmr == Some(tm) <==> s.callbacks[tm].firedAt > s.lastTouch
    ensures s.core.idle.idleTmr == Some(tm) ==> s.now >= s.lastTouch + cfg.idleGrace
  {
    hide LogInv, Reachable;
    ReachableInv(cfg, s);
  }

  // ---- Activity

  /** The last activity: the idle timer was touched or an event was written to the actor. The latter
      touches the timer only when the delivery is noted. */
  function LastActivity(s: State): nat {
    if s.lastDelivery > s.lastTouch then s.lastDelivery else s.lastTouch
  }

  predicate WritesEvent(s: State, l: Label) {
    l.LWrite? && l.ok && l.thread in s.threads.pcs && IsDelivering(s.threads.pcs[l.thread])
  }

  /** The last activity moves exactly with the steps that touch the timer or write an event. */
  lemma StepActivity(cfg: Config, s: State, l: Label)
    requires Reachable(cfg, s) && Enabled(cfg, s, l)
    ensures LastActivity(Apply(cfg, s, l)) == if Touches(s, l) || WritesEvent(s, l) then s.now else LastActivity(s)
  {
    hide Reachable, Inv, Enabled, Apply, Touches, WritesEvent;
    ReachableInv(cfg, s);
    PastIsPast(cfg, s);
    StepTouches(cfg, s, l);
    StepWritesEvent(cfg, s, l);
  }

  lemma PastIsPast(cfg: Config, s: State)
    requires Inv(cfg, s)
    ensures s.lastTouch <= s.now && s.lastDelivery <= s.now
  {
    hide LogInv;
  }

  lemma StepWritesEvent(cfg: Config, s: State, l: Label)
    requires Enabled(cfg, s, l)
    ensures Apply(cfg, s, l).lastDelivery == if WritesEvent(s, l) then s.now else s.lastDelivery
  {
    hide StampAll, RecordIds, RecordStamps, RewriteEnvelopeId, IsEventFrame;
  }

  /** A delivery the timer has not caught up with is still being made: some goroutine that writes
      events has not reached noteActivity. */
  lemma LaggingTimerHasUnnotedDelivery(cfg: Config, s: State)
    requires Reachable(cfg, s) && s.lastDelivery > s.lastTouch
    ensures exists t :: t in s.threads.pcs && IsDelivering(s.threads.pcs[t])
  {
    hide LogInv, Reachable;
    ReachableInv(cfg, s);
  }

  // ---- Exactly when the quiet period is kept

  /** No step of the run touches the idle timer. */
  predicate Untouched(cfg: Config, s: State, ls: seq<Label>)
    requires IsRun(cfg, s, ls)
    decreases |ls|
  {
    ls == [] || (!Touches(s, ls[0]) && Untouched(cfg, Apply(cfg, s, ls[0]), ls[1..]))
  }

  /** Nor does any step write an event. */
  predicate Inactive(cfg: Config, s: State, ls: seq<Label>)
    requires IsRun(cfg, s, ls)
    decreases |ls|
  {
    || ls == []
    || (!Touches(s, ls[0]) && !WritesEvent(s, ls[0]) && Inactive(cfg, Apply(cfg, s, ls[0]), ls[1..]))
  }

  lemma {:induction false} InactiveIsUntouched(cfg: Config, s: State, ls: seq<Label>)
    requires IsRun(cfg, s, ls) && Inactive(cfg, s, ls)
    ensures Untouched(cfg, s, ls)
    decreases |ls|
  {
    hide Enabled, Apply, Touches, WritesEvent;
    if ls != [] {
      InactiveIsUntouched(cfg, Apply(cfg, s, ls[0]), ls[1..]);
    }
  }

  /** Callback `tm` is queued and decides to suspend, less than a grace period after `a`. */
  predicate DecidesEarly(cfg: Config, s: State, a: nat, tm: nat) {
    tm in s.callbacks && SuspendsNow(s.core) && s.now < a + cfg.idleGrace
  }

  /** Every suspend decision before the next touch comes a grace period after `a`. */
  ghost predicate QuietSince(cfg: Config, s: State, a: nat) {
    forall ls, tm :: IsRun(cfg, s, ls) && Untouched(cfg, s, ls) ==> !DecidesEarly(cfg, After(cfg, s, ls), a, tm)
  }

  /** Every suspend decision before the next activity comes a grace period after the last one. */
  ghost predicate QuietUntilActivity(cfg: Config, s: State) {
    forall ls, tm ::
      IsRun(cfg, s, ls) && Inactive(cfg, s, ls) ==> !DecidesEarly(cfg, After(cfg, s, ls), LastActivity(s), tm)
  }

  /** No callback, queued or to come, can suspend within a grace period of `a` before the next touch. */
  predicate NothingEarly(cfg: Config, s: State, a: nat) {
    || s.core.idle.suspending || s.core.idle.inFlight > 0
    || s.now >= a + cfg.idleGrace
    || (s.callbacks == map[] && (s.core.idle.pending == map[] || a <= s.lastTouch))
  }

  lemma StepKeepsNothingEarly(cfg: Config, s: State, l: Label, a: nat)
    requires TimerInv(cfg, s) && NothingEarly(cfg, s, a) && Enabled(cfg, s, l) && !Touches(s, l)
    ensures NothingEarly(cfg, Apply(cfg, s, l), a)
  {
    if !l.LIdleFires? && !l.LOnIdle? && !l.LTick? {
      hide Apply, Enabled, Touches;
      UntouchedFrame(cfg, s, l);
    }
  }

  lemma {:induction false} RunKeepsNothingEarly(cfg: Config, s: State, ls: seq<Label>, a: nat)
    requires TimerInv(cfg, s) && NothingEarly(cfg, s, a) && IsRun(cfg, s, ls) && Untouched(cfg, s, ls)
    ensures NothingEarly(cfg, After(cfg, s, ls), a)
    decreases |ls|
  {
    hide Apply, Enabled, Touches, TimerInv, NothingEarly;
    if ls != [] {
      StepKeepsNothingEarly(cfg, s, ls[0], a);
      StepKeepsTimer(cfg, s, ls[0]);
      RunKeepsNothingEarly(cfg, Apply(cfg, s, ls[0]), ls[1..], a);
    }
  }

  lemma NothingEarlyIsQuiet(cfg: Config, s: State, a: nat)
    requires TimerInv(cfg, s) && NothingEarly(cfg, s, a)
    ensures QuietSince(cfg, s, a)
  {
    hide Apply, Enabled, TimerInv, IsRun, After, Untouched;
    forall ls, tm | IsRun(cfg, s, ls) && Untouched(cfg, s, ls) ensures !DecidesEarly(cfg, After(cfg, s, ls), a, tm) {
      RunKeepsNothingEarly(cfg, s, ls, a);
    }
  }

  /** A queued callback that nothing holds back suspends the actor at once, or as soon as it is
      connected. */
  lemma QueuedCallbackDecides(cfg: Config, s: State, a: nat) returns (ls: seq<Label>, tm: nat)
    requires !NothingEarly(cfg, s, a) && s.callbacks != map[]
    ensures IsRun(cfg, s, ls) && Inactive(cfg, s, ls) && DecidesEarly(cfg, After(cfg, s, ls), a, tm)
  {
    tm :| tm in s.callbacks;
    if s.core.link.sink.Some? {
      ls := [];
    } else {
      var c := NewConnection(s.conns.Keys);
      FirstStep(cfg, s, LAttach(c), []);
      ls := [LAttach(c)] + [];
      assert ls[1..] == [];
    }
  }

  /** A countdown that was armed before `a` fires too early for it. */
  lemma PendingCountdownDecides(cfg: Config, s: State, a: nat) returns (ls: seq<Label>, tm: nat)
    requires TimerInv(cfg, s) && AbsentIsReset(s) && !NothingEarly(cfg, s, a) && s.callbacks == map[]
    ensures IsRun(cfg, s, ls) && Inactive(cfg, s, ls) && DecidesEarly(cfg, After(cfg, s, ls), a, tm)
  {
    tm :| tm in s.core.idle.pending;
    var due := s.lastTouch + cfg.idleGrace;
    var wait: nat := if due <= s.now then 0 else due - s.now;
    var s1 := Apply(cfg, s, LTick(wait));
    FirstStep(cfg, s1, LIdleFires(tm), []);
    var fire := [LIdleFires(tm)] + [];
    FirstStep(cfg, s, LTick(wait), fire);
    ls := [LTick(wait)] + fire;
    assert fire[1..] == [] && ls[1..] == fire;
    assert Inactive(cfg, s1, fire);
  }

  lemma EarlyDecision(cfg: Config, s: State, a: nat) returns (ls: seq<Label>, tm: nat)
    requires TimerInv(cfg, s) && AbsentIsReset(s) && !NothingEarly(cfg, s, a)
    ensures IsRun(cfg, s, ls) && Inactive(cfg, s, ls) && DecidesEarly(cfg, After(cfg, s, ls), a, tm)
  {
    hide IsRun, Inactive, After, TimerInv, AbsentIsReset, DecidesEarly, NothingEarly;
    if s.callbacks != map[] {
      ls, tm := QueuedCallbackDecides(cfg, s, a);
    } else {
      ls, tm := PendingCountdownDecides(cfg, s, a);
    }
  }

  /** For any moment `a`: every suspend decision before the next touch comes a grace period after it,
      if and only if now a suspend is under way, a forward is counted, that period is over, or no
      callback is queued and no countdown is pending that was armed before `a`. */
  lemma QuietSinceIff(cfg: Config, s: State, a: nat)
    requires Reachable(cfg, s)
    ensures QuietSince(cfg, s, a) <==>
            || s.core.idle.suspending || s.core.idle.inFlight > 0
            || s.now >= a + cfg.idleGrace
            || (s.callbacks == map[] && (s.core.idle.pending == map[] || a <= s.lastTouch))
  {
    hide LogInv, Reachable, TimerInv, AbsentIsReset, QuietSince, Inactive, IsRun, After, DecidesEarly;
    ReachableInv(cfg, s);
    if NothingEarly(cfg, s, a) {
      NothingEarlyIsQuiet(cfg, s, a);
    } else {
      var ls, tm := EarlyDecision(cfg, s, a);
      InactiveIsUntouched(cfg, s, ls);
      NotQuiet(cfg, s, ls, a, tm);
    }
  }

  lemma NotQuiet(cfg: Config, s: State, ls: seq<Label>, a: nat, tm: nat)
    requires IsRun(cfg, s, ls) && Untouched(cfg, s, ls) && DecidesEarly(cfg, After(cfg, s, ls), a, tm)
    ensures !QuietSince(cfg, s, a)
  {
  }

  /** "idleGrace after the last activity", exactly: every suspend decision before the next activity
      keeps the quiet period, if and only if now a suspend is under way, a forward is counted, the
      period is already over, or no callback is queued and no countdown is pending that a delivery
      has outrun. */
  lemma QuietPeriodIff(cfg: Config, s: State)
    requires Reachable(cfg, s)
    ensures QuietUntilActivity(cfg, s) <==>
            || s.core.idle.suspending || s.core.idle.inFlight > 0
            || s.now >= LastActivity(s) + cfg.idleGrace
            || (s.callbacks == map[] && (s.core.idle.pending == map[] || s.lastDelivery <= s.lastTouch))
  {
    hide LogInv, Reachable, TimerInv, AbsentIsReset, IsRun, After, Inactive, Untouched, DecidesEarly;
    ReachableInv(cfg, s);
    var a := LastActivity(s);
    if NothingEarly(cfg, s, a) {
      NothingEarlyIsQuiet(cfg, s, a);
      forall ls, tm | IsRun(cfg, s, ls) && Inactive(cfg, s, ls) ensures !DecidesEarly(cfg, After(cfg, s, ls), a, tm) {
        InactiveIsUntouched(cfg, s, ls);
      }
    } else {
      var ls, tm := EarlyDecision(cfg, s, a);
    }
  }

  /** The promise does fail: activity that arrives between a timer firing and
      its callback taking the lock does not hold the suspend back. */
  lemma ActivityMayBeOverlooked(cfg: Config)
    requires cfg.idleGrace > 0
    ensures exists s, tm :: Reachable(cfg, s) && tm in s.callbacks && SuspendsNow(s.core) && s.now == s.lastTouch
  {
    hide IsRun, After, Apply, Enabled;
    var ls1 := EnsureConnected(cfg, INITIAL);
    var s1 := After(cfg, INITIAL, ls1);
    var ls2, tm := ArmByForward(cfg, s1);
    var s2 := After(cfg, s1, ls2);
    var ls3 := CountdownFires(cfg, s2, tm);
    var s3 := After(cfg, s2, ls3);
    var ls4, tm' := ArmByForward(cfg, s3);
    var s4 := After(cfg, s3, ls4);
    InitialReachable(cfg);
    ReachableRun(cfg, INITIAL, ls1);
    ReachableRun(cfg, s1, ls2);
    ReachableRun(cfg, s2, ls3);
    ReachableRun(cfg, s3, ls4);
    assert tm in s4.callbacks && SuspendsNow(s4.core);
  }
}
