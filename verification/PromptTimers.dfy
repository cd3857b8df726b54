/** Idle timers whose callback runs at once: firing and callback as one step. */
module PromptTimers {
  import opened Wrappers
  import opened SocketMode
  import opened SessionCore
  import opened SessionMachine
  import opened LogRefinement
  import opened IdleSuspend
  import opened SessionInvariant
  import opened QuietPeriod

  /** A run in which a fired idle timer's callback is the next step. */
  predicate IsPromptRun(cfg: Config, s: State, ls: seq<Label>)
    decreases |ls|
  {
    ls == [] ||
    (&& Enabled(cfg, s, ls[0]) && (s.callbacks != map[] ==> ls[0].LOnIdle?)
     && IsPromptRun(cfg, Apply(cfg, s, ls[0]), ls[1..]))
  }

  ghost predicate PromptOk(cfg: Config, s: State) {
    && (s.core.idle.pending != map[] || s.callbacks != map[] ==> SuspendsNow(s.core))
    && (s.callbacks != map[] ==> s.core.idle.pending == map[] && s.now >= s.lastTouch + cfg.idleGrace)
    && (forall t1, t2 :: t1 in s.callbacks && t2 in s.callbacks ==> t1 == t2)
  }

  lemma TouchStepsKeepPrompt(cfg: Config, s: State, l: Label)
    requires PromptOk(cfg, s) && TimerInv(cfg, s) && Enabled(cfg, s, l) && s.callbacks == map[]
    requires !l.LIdleFires?
    ensures PromptOk(cfg, Apply(cfg, s, l))
  {
    var s' := Apply(cfg, s, l);
    assert s.core.idle.idleTmr.Some? ==> s.core.idle.pending - {s.core.idle.idleTmr.value} == map[];
    assert s.core.idle.idleTmr.None? ==> s.core.idle.pending == map[];
  }

  lemma StepKeepsPrompt(cfg: Config, s: State, l: Label)
    requires PromptOk(cfg, s) && TimerInv(cfg, s) && Enabled(cfg, s, l) && (s.callbacks != map[] ==> l.LOnIdle?)
    ensures PromptOk(cfg, Apply(cfg, s, l))
  {
    if l.LOnIdle? {
      assert s.callbacks - {l.timer} == map[];
    } else if l.LIdleFires? {
      assert s.core.idle.pending - {l.timer} == map[];
    } else {
      TouchStepsKeepPrompt(cfg, s, l);
    }
  }

  lemma {:induction false} PromptRunKeepsPrompt(cfg: Config, s: State, ls: seq<Label>)
    requires PromptOk(cfg, s) && Inv(cfg, s) && IsPromptRun(cfg, s, ls)
    ensures IsRun(cfg, s, ls) && PromptOk(cfg, After(cfg, s, ls))
    decreases |ls|
  {
    hide Enabled, Apply, PromptOk, LogInv;
    if ls != [] {
      StepKeepsPrompt(cfg, s, ls[0]);
      StepKeepsInv(cfg, s, ls[0]);
      PromptRunKeepsPrompt(cfg, Apply(cfg, s, ls[0]), ls[1..]);
    }
  }

  /** When firing and callback are one step: a pending countdown means connected, idle and not being
      suspended; a callback always decides to suspend; at that moment the idle timer has been left
      alone for the whole grace period; and so has the actor, unless a delivery has written events
      and not yet noted them. */
  lemma QuietPeriodGuarantee(cfg: Config, ls: seq<Label>)
    requires IsPromptRun(cfg, INITIAL, ls)
    ensures IsRun(cfg, INITIAL, ls)
    ensures var s := After(cfg, INITIAL, ls);
            && (s.core.idle.pending != map[] ==> SuspendsNow(s.core))
            && (forall tm :: tm in s.callbacks ==> SuspendsNow(s.core) && s.now >= s.lastTouch + cfg.idleGrace)
            && (s.callbacks != map[] ==> s.now >= LastActivity(s) + cfg.idleGrace || s.lastDelivery > s.lastTouch)
            && (s.lastDelivery > s.lastTouch ==> exists t :: t in s.threads.pcs && IsDelivering(s.threads.pcs[t]))
  {
    InitialInv(cfg);
    PromptRunKeepsPrompt(cfg, INITIAL, ls);
    hide PromptOk, Inv, IsPromptRun, IsRun, After;
    var s := After(cfg, INITIAL, ls);
    PromptGivesQuiet(cfg, s);
    InitialReachable(cfg);
    ReachableRun(cfg, INITIAL, ls);
    if s.lastDelivery > s.lastTouch {
      LaggingTimerHasUnnotedDelivery(cfg, s);
    }
  }

  lemma PromptGivesQuiet(cfg: Config, s: State)
    requires PromptOk(cfg, s)
    ensures s.core.idle.pending != map[] ==> SuspendsNow(s.core)
    ensures s.callbacks != map[] ==> SuspendsNow(s.core) && s.now >= s.lastTouch + cfg.idleGrace
  {
  }

  // ---- A delivery overlooked by a prompt callback

  ghost predicate PromptlyReachable(cfg: Config, s: State) {
    exists ls :: IsPromptRun(cfg, INITIAL, ls) && IsRun(cfg, INITIAL, ls) && After(cfg, INITIAL, ls) == s
  }

  lemma {:induction false} PromptLastStep(cfg: Config, s: State, ls: seq<Label>, l: Label)
    requires IsPromptRun(cfg, s, ls) && IsRun(cfg, s, ls) && Enabled(cfg, After(cfg, s, ls), l)
    requires After(cfg, s, ls).callbacks != map[] ==> l.LOnIdle?
    ensures IsPromptRun(cfg, s, ls + [l]) && IsRun(cfg, s, ls + [l])
    ensures After(cfg, s, ls + [l]) == Apply(cfg, After(cfg, s, ls), l)
    decreases |ls|
  {
    hide Enabled, Apply;
    if ls == [] {
      assert (ls + [l])[1..] == [];
    } else {
      assert (ls + [l])[1..] == ls[1..] + [l];
      PromptLastStep(cfg, Apply(cfg, s, ls[0]), ls[1..], l);
    }
  }

  lemma PromptStep(cfg: Config, s: State, l: Label)
    requires PromptlyReachable(cfg, s) && Enabled(cfg, s, l) && (s.callbacks != map[] ==> l.LOnIdle?)
    ensures PromptlyReachable(cfg, Apply(cfg, s, l))
  {
    hide Enabled, Apply, IsRun, IsPromptRun, After;
    var ls :| IsPromptRun(cfg, INITIAL, ls) && IsRun(cfg, INITIAL, ls) && After(cfg, INITIAL, ls) == s;
    PromptLastStep(cfg, INITIAL, ls, l);
  }

  /** The first connection and the reader are there; nothing is queued, stamped or in flight. */
  predicate Calm(s: State) {
    && s.callbacks == map[] && s.log.stamps == map[] && s.core.mail.buffer == [] && s.now == 0
    && !s.core.idle.suspending && s.core.idle.inFlight == 0 && s.core.link.sink == Some(0)
    && At(s, Reader, Ready) && !s.reading && !s.core.reader.closed && 0 in s.conns
    && !s.core.link.resuming && s.resumes.running == 0
  }

  predicate NoCountdownYet(s: State) {
    s.core.idle.idleTmr.None? && s.core.idle.pending == map[] && s.core.idle.nextTimer == 0
  }

  lemma PromptlyAttached(cfg: Config) returns (s: State)
    ensures PromptlyReachable(cfg, s) && Calm(s) && NoCountdownYet(s) && !s.core.link.settled
    ensures At(s, Handler(0), Writing(0, [Hello], Waiting, ForHello(0))) && s.threads.lock.None?
  {
    assert IsPromptRun(cfg, INITIAL, []) && IsRun(cfg, INITIAL, []) && After(cfg, INITIAL, []) == INITIAL;
    hide PromptlyReachable, IsRun, IsPromptRun, After;
    PromptStep(cfg, INITIAL, LEnsureStarted(""));
    var s1 := Apply(cfg, INITIAL, LEnsureStarted(""));
    PromptStep(cfg, s1, LAttach(0));
    s := Apply(cfg, s1, LAttach(0));
  }

  /** The first connection gets its hello. */
  lemma PromptlyGreeted(cfg: Config) returns (s: State)
    ensures PromptlyReachable(cfg, s) && Calm(s) && NoCountdownYet(s) && !s.core.link.settled
    ensures At(s, Handler(0), HelloSent(0)) && s.threads.lock.None?
  {
    hide PromptlyReachable, IsRun, IsPromptRun, After;
    var t := Handler(0);
    var s0 := PromptlyAttached(cfg);
    PromptStep(cfg, s0, LAcquire(t));
    var s1 := Apply(cfg, s0, LAcquire(t));
    PromptStep(cfg, s1, LCheck(t));
    var s2 := Apply(cfg, s1, LCheck(t));
    PromptStep(cfg, s2, LWrite(t, true));
    var s3 := Apply(cfg, s2, LWrite(t, true));
    PromptStep(cfg, s3, LCheck(t));
    var s4 := Apply(cfg, s3, LCheck(t));
    PromptStep(cfg, s4, LRelease(t));
    s := Apply(cfg, s4, LRelease(t));
  }

  /** It settles, and the delivery of nothing is noted. */
  lemma PromptlySettled(cfg: Config) returns (s: State)
    ensures PromptlyReachable(cfg, s) && Calm(s) && s.threads.lock.None? && s.core.link.settled
    ensures At(s, Handler(0), Ready)
    ensures s.lastTouch == 0 && (cfg.idleGrace > 0 ==> s.core.idle.pending == map[0 := 0])
  {
    hide PromptlyReachable, IsRun, IsPromptRun, After;
    var s0 := PromptlyGreeted(cfg);
    var t := Handler(0);
    PromptStep(cfg, s0, LDeliver(t, []));
    var s1 := Apply(cfg, s0, LDeliver(t, []));
    PromptStep(cfg, s1, LAcquire(t));
    var s2 := Apply(cfg, s1, LAcquire(t));
    PromptStep(cfg, s2, LCheck(t));
    var s3 := Apply(cfg, s2, LCheck(t));
    PromptStep(cfg, s3, LRelease(t));
    var s4 := Apply(cfg, s3, LRelease(t));
    PromptStep(cfg, s4, LNote(t));
    s := Apply(cfg, s4, LNote(t));
  }

  lemma PromptlyReceived(cfg: Config, s: State, raw: Raw) returns (s': State)
    requires IsEventFrame(raw) && PromptlyReachable(cfg, s) && Calm(s) && s.core.link.settled
    ensures PromptlyReachable(cfg, s') && s' == Event'(s, raw, "a")
  {
    hide PromptlyReachable, IsRun, IsPromptRun, After, IsEventFrame, RewriteEnvelopeId;
    PromptStep(cfg, s, LRead);
    var s1 := Apply(cfg, s, LRead);
    PromptStep(cfg, s1, LEvent(raw, "a"));
    s' := Apply(cfg, s1, LEvent(raw, "a"));
  }

  /** An event comes in and is written to the actor just as the countdown ends. */
  lemma PromptlyWritten(cfg: Config, raw: Raw) returns (s: State)
    requires cfg.idleGrace > 0 && IsEventFrame(raw)
    ensures PromptlyReachable(cfg, s) && s.callbacks == map[] && s.core.idle.pending == map[0 := 0]
    ensures SuspendsNow(s.core) && s.now == s.lastDelivery == cfg.idleGrace && s.lastTouch == 0
  {
    hide PromptlyReachable, IsRun, IsPromptRun, After, IsEventFrame, RewriteEnvelopeId;
    var s0 := PromptlySettled(cfg);
    var s1 := PromptlyReceived(cfg, s0, raw);
    PromptStep(cfg, s1, LTick(cfg.idleGrace));
    var s2 := Apply(cfg, s1, LTick(cfg.idleGrace));
    PromptStep(cfg, s2, LAcquire(Reader));
    var s3 := Apply(cfg, s2, LAcquire(Reader));
    PromptStep(cfg, s3, LCheck(Reader));
    var s4 := Apply(cfg, s3, LCheck(Reader));
    PromptStep(cfg, s4, LWrite(Reader, true));
    s := Apply(cfg, s4, LWrite(Reader, true));
  }

  /** Prompt callbacks do not save the promise: whatever event is delivered, the actor may be
      suspended at the very moment of its delivery, before the activity is noted. */
  lemma DeliveryMayBeOverlooked(cfg: Config, raw: Raw)
    requires cfg.idleGrace > 0 && IsEventFrame(raw)
    ensures exists s, tm :: PromptlyReachable(cfg, s) && tm in s.callbacks && SuspendsNow(s.core)
              && s.now >= s.lastTouch + cfg.idleGrace && s.now == s.lastDelivery == LastActivity(s)
  {
    hide PromptlyReachable, IsRun, IsPromptRun, After, IsEventFrame;
    var s0 := PromptlyWritten(cfg, raw);
    PromptStep(cfg, s0, LIdleFires(0));
    var s := Apply(cfg, s0, LIdleFires(0));
    assert 0 in s.callbacks;
  }
}
