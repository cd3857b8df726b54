/** Suspending while a forward is under way: when onIdle may decide to, and when a suspend may go
    through, which are two different questions. */
module MidSend {
  import opened SessionCore
  import opened SessionMachine
  import opened LogRefinement
  import opened SessionInvariant
  import opened LifecycleTheorems

  // ---- Decisions

  /** The step is a suspend decision taken while a forward is outstanding. */
  predicate DecidesMidSend(s: State, l: Label) {
    l.LOnIdle? && SuspendsNow(s.core) && s.forwards.outstanding > 0
  }

  /** No continuation decides to suspend mid-send before the connection is next dropped. */
  ghost predicate NoDecisionMidSend(cfg: Config, s: State) {
    forall ls, l ::
      IsRun(cfg, s, ls) && Enabled(cfg, After(cfg, s, ls), l)
      && After(cfg, s, ls).suspends.detaches == s.suspends.detaches
      ==> !DecidesMidSend(After(cfg, s, ls), l)
  }

  lemma StepKeepsExactCount(cfg: Config, s: State, l: Label)
    requires Enabled(cfg, s, l) && s.core.idle.inFlight == s.forwards.outstanding
    ensures s.suspends.detaches <= Apply(cfg, s, l).suspends.detaches
    ensures Apply(cfg, s, l).suspends.detaches == s.suspends.detaches ==>
              Apply(cfg, s, l).core.idle.inFlight == Apply(cfg, s, l).forwards.outstanding
  {
  }

  lemma DetachesOnlyGrow(cfg: Config, s: State, ls: seq<Label>)
    requires IsRun(cfg, s, ls)
    ensures s.suspends.detaches <= After(cfg, s, ls).suspends.detaches
    decreases |ls|
  {
    if ls != [] {
      assert s.suspends.detaches <= Apply(cfg, s, ls[0]).suspends.detaches;
      DetachesOnlyGrow(cfg, Apply(cfg, s, ls[0]), ls[1..]);
    }
  }

  lemma {:induction false} RunKeepsExactCount(cfg: Config, s: State, ls: seq<Label>)
    requires IsRun(cfg, s, ls) && s.core.idle.inFlight == s.forwards.outstanding
    requires After(cfg, s, ls).suspends.detaches == s.suspends.detaches
    ensures After(cfg, s, ls).core.idle.inFlight == After(cfg, s, ls).forwards.outstanding
    decreases |ls|
  {
    hide Enabled, Apply;
    if ls != [] {
      StepKeepsExactCount(cfg, s, ls[0]);
      DetachesOnlyGrow(cfg, Apply(cfg, s, ls[0]), ls[1..]);
      RunKeepsExactCount(cfg, Apply(cfg, s, ls[0]), ls[1..]);
    }
  }

  // ---- A run that decides mid-send, whenever the counter falls short

  /** The same connection state, as far as suspension is concerned. */
  predicate Alike(s: State, s': State) {
    s'.core.link == s.core.link && s'.core.idle.suspending == s.core.idle.suspending && s'.suspends == s.suspends
  }

  /** Forwards end until the counter is zero. */
  lemma {:induction false} DrainCounter(cfg: Config, s: State) returns (ls: seq<Label>)
    requires s.core.idle.inFlight <= s.forwards.outstanding
    ensures IsRun(cfg, s, ls)
    ensures var s' := After(cfg, s, ls);
            && Alike(s, s') && s'.core.idle.inFlight == 0
            && s'.forwards.outstanding == s.forwards.outstanding - s.core.idle.inFlight
    decreases s.core.idle.inFlight
  {
    if s.core.idle.inFlight == 0 {
      ls := [];
    } else {
      var s1 := EndForward'(cfg, s);
      assert s1 == Apply(cfg, s, LEndForward);
      var rest := DrainCounter(cfg, s1);
      ls := [LEndForward] + rest;
      assert ls[1..] == rest;
    }
  }

  lemma {:induction false} NewConnection(conns: set<Conn>) returns (c: Conn)
    ensures forall d :: d in conns ==> d < c
  {
    if conns == {} {
      c := 0;
    } else {
      var d :| d in conns;
      var rest := NewConnection(conns - {d});
      c := if d < rest then rest else d + 1;
      assert forall e :: e in conns ==> e == d || e in conns - {d};
    }
  }

  /** One forward comes and goes, which arms the countdown. */
  lemma ArmByForward(cfg: Config, s: State) returns (ls: seq<Label>, tm: nat)
    requires cfg.idleGrace > 0 && s.core.link.sink.Some? && !s.core.idle.suspending && s.core.idle.inFlight == 0
    ensures IsRun(cfg, s, ls)
    ensures var s' := After(cfg, s, ls);
            && Alike(s, s') && s'.core.idle.inFlight == 0 && s'.forwards.outstanding == s.forwards.outstanding
            && tm in s'.core.idle.pending && s'.core.idle.pending[tm] == s'.now
            && s'.callbacks == s.callbacks && s'.lastTouch == s'.now
  {
    var s1 := Apply(cfg, s, LBeginForward);
    tm := s1.core.idle.nextTimer;
    FirstStep(cfg, s1, LEndForward, []);
    FirstStep(cfg, s, LBeginForward, [LEndForward]);
    ls := [LBeginForward] + [LEndForward];
  }

  /** The grace period passes and the countdown fires. */
  lemma CountdownFires(cfg: Config, s: State, tm: nat) returns (ls: seq<Label>)
    requires cfg.idleGrace > 0 && tm in s.core.idle.pending && s.core.idle.pending[tm] == s.now
    ensures IsRun(cfg, s, ls)
    ensures var s' := After(cfg, s, ls);
            && Alike(s, s') && s'.core.idle.inFlight == s.core.idle.inFlight && s'.forwards == s.forwards
            && tm in s'.callbacks
  {
    var s1 := Apply(cfg, s, LTick(cfg.idleGrace));
    FirstStep(cfg, s1, LIdleFires(tm), []);
    FirstStep(cfg, s, LTick(cfg.idleGrace), [LIdleFires(tm)]);
    ls := [LTick(cfg.idleGrace)] + [LIdleFires(tm)];
  }

  /** The actor is connected, or connects now. */
  lemma EnsureConnected(cfg: Config, s: State) returns (ls: seq<Label>)
    ensures IsRun(cfg, s, ls)
    ensures var s' := After(cfg, s, ls);
            && s'.core.link.sink.Some? && s'.core.idle == s.core.idle
            && s'.suspends == s.suspends && s'.forwards == s.forwards
  {
    if s.core.link.sink.Some? {
      ls := [];
    } else {
      var c := NewConnection(s.conns.Keys);
      FirstStep(cfg, s, LAttach(c), []);
      ls := [LAttach(c)] + [];
    }
  }

  lemma ShortCountDecidesMidSend(cfg: Config, s: State) returns (ls: seq<Label>, l: Label)
    requires cfg.idleGrace > 0 && !s.core.idle.suspending && s.core.idle.inFlight < s.forwards.outstanding
    ensures IsRun(cfg, s, ls) && Enabled(cfg, After(cfg, s, ls), l)
    ensures After(cfg, s, ls).suspends.detaches == s.suspends.detaches && DecidesMidSend(After(cfg, s, ls), l)
  {
    hide IsRun, After, Apply;
    var ls1 := EnsureConnected(cfg, s);
    var s1 := After(cfg, s, ls1);
    var ls2 := DrainCounter(cfg, s1);
    var s2 := After(cfg, s1, ls2);
    var ls3, tm := ArmByForward(cfg, s2);
    var s3 := After(cfg, s2, ls3);
    var ls4 := CountdownFires(cfg, s3, tm);
    RunsCompose(cfg, s2, ls3, ls4);
    RunsCompose(cfg, s1, ls2, ls3 + ls4);
    RunsCompose(cfg, s, ls1, ls2 + (ls3 + ls4));
    ls := ls1 + (ls2 + (ls3 + ls4));
    l := LOnIdle(tm);
  }

  // ---- Exactly when no decision is taken mid-send

  lemma ExactCountIsSafe(cfg: Config, s: State)
    requires s.core.idle.inFlight == s.forwards.outstanding
    ensures NoDecisionMidSend(cfg, s)
  {
    hide Enabled, Apply;
    forall ls, l |
      IsRun(cfg, s, ls) && Enabled(cfg, After(cfg, s, ls), l)
      && After(cfg, s, ls).suspends.detaches == s.suspends.detaches
      ensures !DecidesMidSend(After(cfg, s, ls), l)
    {
      RunKeepsExactCount(cfg, s, ls);
    }
  }

  /** The suspend call has returned and the actor's disconnect is still to come. */
  predicate AwaitsDetach(s: State) {
    s.core.idle.suspending && s.suspends.running == 0
  }

  lemma StepAwaitsDetach(cfg: Config, s: State, l: Label)
    requires Enabled(cfg, s, l) && AwaitsDetach(s)
    ensures s.suspends.detaches <= Apply(cfg, s, l).suspends.detaches
    ensures Apply(cfg, s, l).suspends.detaches == s.suspends.detaches ==> AwaitsDetach(Apply(cfg, s, l))
  {
  }

  lemma {:induction false} RunAwaitsDetach(cfg: Config, s: State, ls: seq<Label>)
    requires IsRun(cfg, s, ls) && AwaitsDetach(s)
    requires After(cfg, s, ls).suspends.detaches == s.suspends.detaches
    ensures AwaitsDetach(After(cfg, s, ls))
    decreases |ls|
  {
    hide Enabled, Apply, AwaitsDetach;
    if ls != [] {
      StepAwaitsDetach(cfg, s, ls[0]);
      DetachesOnlyGrow(cfg, Apply(cfg, s, ls[0]), ls[1..]);
      RunAwaitsDetach(cfg, Apply(cfg, s, ls[0]), ls[1..]);
    }
  }

  lemma AwaitingDetachIsSafe(cfg: Config, s: State)
    requires AwaitsDetach(s)
    ensures NoDecisionMidSend(cfg, s)
  {
    hide Enabled, Apply;
    forall ls, l |
      IsRun(cfg, s, ls) && Enabled(cfg, After(cfg, s, ls), l)
      && After(cfg, s, ls).suspends.detaches == s.suspends.detaches
      ensures !DecidesMidSend(After(cfg, s, ls), l)
    {
      RunAwaitsDetach(cfg, s, ls);
    }
  }

  lemma NoGraceNoSuspend(cfg: Config, s: State)
    requires Reachable(cfg, s) && cfg.idleGrace <= 0
    ensures s.callbacks == map[] && s.suspends.running == 0
  {
    hide Reachable, LogInv;
    ReachableInv(cfg, s);
  }

  /** Without a grace period no callback ever runs. */
  lemma NoGraceIsSafe(cfg: Config, s: State)
    requires Reachable(cfg, s) && cfg.idleGrace <= 0
    ensures NoDecisionMidSend(cfg, s)
  {
    hide Reachable, IsRun, After, Apply, SuspendsNow;
    forall ls, l | IsRun(cfg, s, ls) && Enabled(cfg, After(cfg, s, ls), l)
      ensures !DecidesMidSend(After(cfg, s, ls), l)
    {
      ReachableRun(cfg, s, ls);
      NoGraceNoSuspend(cfg, After(cfg, s, ls));
    }
  }

  /** Otherwise the suspend under way, if any, may fail, and the short count does the rest. */
  lemma ShortCountIsUnsafe(cfg: Config, s: State)
    requires cfg.idleGrace > 0 && s.core.idle.inFlight < s.forwards.outstanding && !AwaitsDetach(s)
    ensures !NoDecisionMidSend(cfg, s)
  {
    hide IsRun, After, NoDecisionMidSend;
    if !s.core.idle.suspending {
      var ls, l := ShortCountDecidesMidSend(cfg, s);
      UnsafeRun(cfg, s, ls, l);
    } else {
      var s1 := Apply(cfg, s, LSuspendReturns(false));
      var rest, l := ShortCountDecidesMidSend(cfg, s1);
      FirstStep(cfg, s, LSuspendReturns(false), rest);
      UnsafeRun(cfg, s, [LSuspendReturns(false)] + rest, l);
    }
  }

  lemma UnsafeRun(cfg: Config, s: State, ls: seq<Label>, l: Label)
    requires IsRun(cfg, s, ls) && Enabled(cfg, After(cfg, s, ls), l)
    requires After(cfg, s, ls).suspends.detaches == s.suspends.detaches && DecidesMidSend(After(cfg, s, ls), l)
    ensures !NoDecisionMidSend(cfg, s)
  {
  }

  /** The decision of onIdle, exactly: no continuation decides to suspend while a forward is
      outstanding before the next disconnect, if and only if idle suspend is off, or the counter is
      exact now, or a suspend has gone through and only the disconnect is still to come. A disconnect
      with forwards outstanding is what makes the counter fall short. */
  lemma NeverDecidesMidSendIff(cfg: Config, s: State)
    requires Reachable(cfg, s)
    ensures NoDecisionMidSend(cfg, s) <==>
            || cfg.idleGrace <= 0
            || s.core.idle.inFlight == s.forwards.outstanding
            || (s.core.idle.suspending && s.suspends.running == 0)
  {
    hide Reachable, NoDecisionMidSend;
    ForwardAccounting(cfg, s);
    if cfg.idleGrace <= 0 {
      NoGraceIsSafe(cfg, s);
    } else if s.core.idle.inFlight == s.forwards.outstanding {
      ExactCountIsSafe(cfg, s);
    } else if AwaitsDetach(s) {
      AwaitingDetachIsSafe(cfg, s);
    } else {
      ShortCountIsUnsafe(cfg, s);
    }
  }

  // ---- Suspends that go through

  /** A suspend call returns successfully while a forward is outstanding: its reply is lost. */
  predicate CutsOff(s: State, l: Label) {
    l == LSuspendReturns(true) && s.forwards.outstanding > 0
  }

  /** No continuation suspends the actor mid-send before the connection is next dropped. */
  ghost predicate NeverCutsOff(cfg: Config, s: State) {
    forall ls, l ::
      IsRun(cfg, s, ls) && Enabled(cfg, After(cfg, s, ls), l)
      && After(cfg, s, ls).suspends.detaches == s.suspends.detaches
      ==> !CutsOff(After(cfg, s, ls), l)
  }

  lemma CutsOffRun(cfg: Config, s: State, ls: seq<Label>, l: Label)
    requires IsRun(cfg, s, ls) && Enabled(cfg, After(cfg, s, ls), l)
    requires After(cfg, s, ls).suspends.detaches == s.suspends.detaches && CutsOff(After(cfg, s, ls), l)
    ensures !NeverCutsOff(cfg, s)
  {
  }

  /** beginForward does not look at `suspending`: a forward may begin while the call runs. */
  lemma ForwardDuringSuspend(cfg: Config, s: State) returns (ls: seq<Label>)
    requires s.suspends.running > 0
    ensures IsRun(cfg, s, ls)
    ensures var s' := After(cfg, s, ls);
            && Enabled(cfg, s', LSuspendReturns(true)) && CutsOff(s', LSuspendReturns(true))
            && s'.suspends == s.suspends && s'.core.link == s.core.link
            && s'.core.idle.inFlight == s.core.idle.inFlight + 1
            && s'.forwards.outstanding == s.forwards.outstanding + 1
  {
    FirstStep(cfg, s, LBeginForward, []);
    ls := [LBeginForward] + [];
  }

  /** The actor connects if it has to, falls idle, and is being suspended. */
  lemma SuspendStarts(cfg: Config, s: State) returns (ls: seq<Label>)
    requires cfg.idleGrace > 0 && !s.core.idle.suspending && s.core.idle.inFlight <= s.forwards.outstanding
    ensures IsRun(cfg, s, ls)
    ensures var s' := After(cfg, s, ls);
            && s'.suspends.running > 0 && s'.suspends.detaches == s.suspends.detaches && s'.core.idle.inFlight == 0
            && s'.forwards.outstanding == s.forwards.outstanding - s.core.idle.inFlight
  {
    hide IsRun, After;
    var ls1 := EnsureConnected(cfg, s);
    var s1 := After(cfg, s, ls1);
    var ls2 := DrainCounter(cfg, s1);
    var s2 := After(cfg, s1, ls2);
    var ls3, tm := ArmByForward(cfg, s2);
    var s3 := After(cfg, s2, ls3);
    var ls4 := CountdownFires(cfg, s3, tm);
    var s4 := After(cfg, s3, ls4);
    NoStepIsARun(cfg, Apply(cfg, s4, LOnIdle(tm)));
    FirstStep(cfg, s4, LOnIdle(tm), []);
    var ls5 := [LOnIdle(tm)] + [];
    RunsCompose(cfg, s3, ls4, ls5);
    RunsCompose(cfg, s2, ls3, ls4 + ls5);
    RunsCompose(cfg, s1, ls2, ls3 + (ls4 + ls5));
    RunsCompose(cfg, s, ls1, ls2 + (ls3 + (ls4 + ls5)));
    ls := ls1 + (ls2 + (ls3 + (ls4 + ls5)));
  }

  lemma NoStepIsARun(cfg: Config, s: State)
    ensures IsRun(cfg, s, []) && After(cfg, s, []) == s
  {
  }

  /** Unless a suspend has gone through already, one can, and a forward can begin meanwhile. */
  lemma CutOffRun(cfg: Config, s: State) returns (ls: seq<Label>)
    requires cfg.idleGrace > 0 && s.core.idle.inFlight <= s.forwards.outstanding && !AwaitsDetach(s)
    ensures IsRun(cfg, s, ls)
    ensures var s' := After(cfg, s, ls);
            && Enabled(cfg, s', LSuspendReturns(true)) && CutsOff(s', LSuspendReturns(true))
            && s'.suspends.detaches == s.suspends.detaches
            && s'.forwards.outstanding - s'.core.idle.inFlight == s.forwards.outstanding - s.core.idle.inFlight
  {
    hide IsRun, After, Apply;
    if s.suspends.running > 0 {
      ls := ForwardDuringSuspend(cfg, s);
    } else {
      var ls1 := SuspendStarts(cfg, s);
      var ls2 := ForwardDuringSuspend(cfg, After(cfg, s, ls1));
      RunsCompose(cfg, s, ls1, ls2);
      ls := ls1 + ls2;
    }
  }

  lemma AwaitingDetachCutsNothingOff(cfg: Config, s: State)
    requires AwaitsDetach(s)
    ensures NeverCutsOff(cfg, s)
  {
    hide IsRun, After, Apply;
    forall ls, l |
      IsRun(cfg, s, ls) && Enabled(cfg, After(cfg, s, ls), l)
      && After(cfg, s, ls).suspends.detaches == s.suspends.detaches
      ensures !CutsOff(After(cfg, s, ls), l)
    {
      RunAwaitsDetach(cfg, s, ls);
    }
  }

  lemma NoGraceCutsNothingOff(cfg: Config, s: State)
    requires Reachable(cfg, s) && cfg.idleGrace <= 0
    ensures NeverCutsOff(cfg, s)
  {
    hide Reachable, IsRun, After, Apply;
    forall ls, l | IsRun(cfg, s, ls) && Enabled(cfg, After(cfg, s, ls), l)
      ensures !CutsOff(After(cfg, s, ls), l)
    {
      ReachableRun(cfg, s, ls);
      NoGraceNoSuspend(cfg, After(cfg, s, ls));
    }
  }

  /** "Never suspend mid-send", exactly: no continuation has a suspend go through while a forward is
      outstanding before the next disconnect, if and only if idle suspend is off, or a suspend has
      gone through already and only the disconnect is still to come. An exact counter does not help:
      it holds the decision back, and a forward may begin after the decision. */
  lemma NeverSuspendsMidSendIff(cfg: Config, s: State)
    requires Reachable(cfg, s)
    ensures NeverCutsOff(cfg, s) <==> cfg.idleGrace <= 0 || (s.core.idle.suspending && s.suspends.running == 0)
  {
    hide Reachable, NeverCutsOff, IsRun, After;
    ForwardAccounting(cfg, s);
    if cfg.idleGrace <= 0 {
      NoGraceCutsNothingOff(cfg, s);
    } else if AwaitsDetach(s) {
      AwaitingDetachCutsNothingOff(cfg, s);
    } else {
      var ls := CutOffRun(cfg, s);
      CutsOffRun(cfg, s, ls, LSuspendReturns(true));
    }
  }

  /** A forward can be cut off although no connection was ever dropped, the counter is exact and no
      decision can be taken mid-send: it began while the suspend call was running. */
  lemma CutsOffWithoutDisconnect(cfg: Config)
    requires cfg.idleGrace > 0
    ensures NoDecisionMidSend(cfg, INITIAL)
    ensures exists s :: Reachable(cfg, s) && s.suspends.detaches == 0 && s.core.idle.inFlight == s.forwards.outstanding
              && Enabled(cfg, s, LSuspendReturns(true)) && CutsOff(s, LSuspendReturns(true))
  {
    hide IsRun, After, Apply, NoDecisionMidSend, Reachable;
    ExactCountIsSafe(cfg, INITIAL);
    InitialReachable(cfg);
    var ls := CutOffRun(cfg, INITIAL);
    ReachableRun(cfg, INITIAL, ls);
  }
}
