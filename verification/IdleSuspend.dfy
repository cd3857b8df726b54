/** The idle countdown: a settled, quiet connection always has one running, and a suspend decision
    is separated from the last activity by the grace period. */
module IdleSuspend {
  import opened Wrappers
  import SocketMode
  import opened SessionCore
  import opened SessionMachine
  import opened Placement

  // ---- One countdown, armed at the last touch

  /** At most the timer `idleTmr` points at is pending, and it was armed when the timer was last
      touched. A queued callback waited out its countdown; if `idleTmr` still points at it, it was
      armed at the last touch, otherwise it had fired by then. */
  ghost predicate TimerOk(cfg: Config, k: Idle, callbacks: map<nat, Callback>, now: nat, lastTouch: nat) {
    && lastTouch <= now
    && (forall tm :: tm in k.pending ==> k.idleTmr == Some(tm) && k.pending[tm] == lastTouch)
    && (k.idleTmr.Some? ==> k.idleTmr.value < k.nextTimer)
    && (forall tm :: tm in callbacks ==>
          && tm < k.nextTimer && tm !in k.pending
          && callbacks[tm].armedAt + cfg.idleGrace <= callbacks[tm].firedAt <= now
          && (if k.idleTmr == Some(tm) then callbacks[tm].armedAt == lastTouch else callbacks[tm].firedAt <= lastTouch))
  }

  ghost predicate TimerInv(cfg: Config, s: State) {
    TimerOk(cfg, s.core.idle, s.callbacks, s.now, s.lastTouch)
  }

  /** The idle timer is armed, re-armed or cancelled by the step. */
  predicate Touches(s: State, l: Label) {
    || l.LNote? || l.LBeginForward? || l.LEndForward?
    || (l.LAck? && KnowsId(s.core.mail, AckedId(l.raw)))
    || (l.LDetach? && s.core.link.sink == Some(l.conn))
    || (l.LSuspendReturns? && !l.ok)
  }

  lemma StepTouches(cfg: Config, s: State, l: Label)
    requires Enabled(cfg, s, l)
    ensures Apply(cfg, s, l).lastTouch == if Touches(s, l) then s.now else s.lastTouch
  {
    hide SocketMode.RewriteEnvelopeId, SocketMode.IsEventFrame, StampAll, RecordIds, RecordStamps;
  }

  /** The idle fields as a step leaves them, up to the counters. */
  ghost predicate SameTimers(k: Idle, k': Idle) {
    k'.idleTmr == k.idleTmr && k'.nextTimer == k.nextTimer && k'.pending == k.pending
  }

  /** A touch cancels the countdown and perhaps arms a new one. */
  ghost predicate Rearmed(k: Idle, k': Idle, now: nat) {
    || SameTimers(StopIdle(k), k')
    || (k'.idleTmr == Some(k.nextTimer) && k'.nextTimer == k.nextTimer + 1
        && k'.pending == Without(k.pending, k.idleTmr)[k.nextTimer := now])
  }

  lemma RearmedTimer(cfg: Config, k: Idle, k': Idle, callbacks: map<nat, Callback>, now: nat, lastTouch: nat)
    requires TimerOk(cfg, k, callbacks, now, lastTouch) && Rearmed(k, k', now)
    ensures TimerOk(cfg, k', callbacks, now, now)
  {
  }

  lemma TouchRearms(cfg: Config, s: State, l: Label)
    requires Enabled(cfg, s, l) && Touches(s, l)
    ensures var s' := Apply(cfg, s, l);
            Rearmed(s.core.idle, s'.core.idle, s.now) && s'.callbacks == s.callbacks && s'.now == s'.lastTouch == s.now
  {
  }

  lemma UntouchedFrame(cfg: Config, s: State, l: Label)
    requires Enabled(cfg, s, l) && !Touches(s, l) && !l.LIdleFires? && !l.LOnIdle? && !l.LTick?
    ensures var s' := Apply(cfg, s, l);
            && s'.core.idle == s.core.idle && s'.callbacks == s.callbacks
            && s'.now == s.now && s'.lastTouch == s.lastTouch
  {
    hide SocketMode.RewriteEnvelopeId, SocketMode.IsEventFrame, StampAll, RecordIds, RecordStamps;
  }

  lemma StepKeepsTimer(cfg: Config, s: State, l: Label)
    requires TimerInv(cfg, s) && Enabled(cfg, s, l)
    ensures TimerInv(cfg, Apply(cfg, s, l))
  {
    if Touches(s, l) {
      hide Apply, Enabled, Touches;
      TouchRearms(cfg, s, l);
      RearmedTimer(cfg, s.core.idle, Apply(cfg, s, l).core.idle, s.callbacks, s.now, s.lastTouch);
    } else if !l.LIdleFires? && !l.LOnIdle? && !l.LTick? {
      hide Apply, Enabled, Touches;
      UntouchedFrame(cfg, s, l);
    }
  }

  /** With idle suspend off there are no countdowns at all, and so no suspends. */
  ghost predicate CountdownsOff(cfg: Config, s: State) {
    cfg.idleGrace <= 0 ==> s.core.idle.pending == map[] && s.callbacks == map[] && s.suspends.running == 0
  }

  lemma StepKeepsCountdownsOff(cfg: Config, s: State, l: Label)
    requires CountdownsOff(cfg, s) && Enabled(cfg, s, l)
    ensures CountdownsOff(cfg, Apply(cfg, s, l))
  {
    hide SocketMode.RewriteEnvelopeId, SocketMode.IsEventFrame, StampAll, RecordIds, RecordStamps;
  }

  // ---- Deliveries and their notes

  /** The goroutine delivers events and has yet to reach noteActivity. */
  predicate IsDelivering(pc: Pc) {
    pc.Noting? || (pc.Writing? && !pc.purpose.ForHello?)
  }

  /** Some delivery may have written events without having noted the activity. */
  ghost predicate Unnoted(pcs: map<Thread, Pc>) {
    exists t :: t in pcs && IsDelivering(pcs[t])
  }

  /** An event written since the last touch belongs to a delivery that is still to be noted. */
  ghost predicate DeliveryInv(s: State) {
    s.lastDelivery <= s.now && (s.lastTouch < s.lastDelivery ==> Unnoted(s.threads.pcs))
  }

  /** Only noteActivity ends a delivery. */
  lemma DeliveryGoesOn(cfg: Config, s: State, l: Label, t: Thread)
    requires FreshInv(s) && Enabled(cfg, s, l) && l != LNote(t) && t in s.threads.pcs && IsDelivering(s.threads.pcs[t])
    ensures t in Apply(cfg, s, l).threads.pcs && IsDelivering(Apply(cfg, s, l).threads.pcs[t])
  {
    hide SocketMode.RewriteEnvelopeId, SocketMode.IsEventFrame, StampAll, RecordIds, RecordStamps;
    if IsIdleLabel(l) {
      hide FreshInv;
      IdleLabelFrame(cfg, s, l);
    }
  }

  lemma StepDelivers(cfg: Config, s: State, l: Label)
    requires Enabled(cfg, s, l)
    ensures var s' := Apply(cfg, s, l);
            && s.now <= s'.now
            && (s'.lastDelivery == s.lastDelivery
                || (s'.lastDelivery == s.now && l.LWrite? && IsDelivering(s.threads.pcs[l.thread])))
  {
    hide SocketMode.RewriteEnvelopeId, SocketMode.IsEventFrame, StampAll, RecordIds, RecordStamps;
  }

  lemma StepKeepsDelivery(cfg: Config, s: State, l: Label)
    requires DeliveryInv(s) && FreshInv(s) && Enabled(cfg, s, l)
    ensures DeliveryInv(Apply(cfg, s, l))
  {
    var s' := Apply(cfg, s, l);
    StepDelivers(cfg, s, l);
    StepTouches(cfg, s, l);
    hide Apply, FreshInv;
    if s'.lastTouch < s'.lastDelivery {
      var t: Thread;
      if l.LWrite? && IsDelivering(s.threads.pcs[l.thread]) {
        t := l.thread;
      } else {
        t :| t in s.threads.pcs && IsDelivering(s.threads.pcs[t]);
      }
      DeliveryGoesOn(cfg, s, l, t);
    }
  }

  // ---- Nothing is left over from a connection that is gone

  ghost predicate AbsentIsReset(s: State) {
    s.core.link.sink.None? ==> !s.core.link.settled && !s.core.idle.suspending && s.core.idle.pending == map[]
  }

  lemma TouchKeepsReset(cfg: Config, s: State, l: Label)
    requires AbsentIsReset(s) && TimerInv(cfg, s) && Enabled(cfg, s, l) && Touches(s, l)
    ensures AbsentIsReset(Apply(cfg, s, l))
  {
    var k := s.core.idle;
    if l.LDetach? && k.idleTmr.Some? {
      assert k.pending - {k.idleTmr.value} == map[];
    }
  }

  lemma StepKeepsReset(cfg: Config, s: State, l: Label)
    requires AbsentIsReset(s) && TimerInv(cfg, s) && Enabled(cfg, s, l)
    ensures AbsentIsReset(Apply(cfg, s, l))
  {
    hide TimerInv, SocketMode.RewriteEnvelopeId, SocketMode.IsEventFrame, StampAll, RecordIds, RecordStamps;
    if Touches(s, l) {
      hide Apply, Enabled;
      TouchKeepsReset(cfg, s, l);
    }
  }

  // ---- No connection stays awake forever

  /** The call that settled the current connection has not yet reached noteActivity. */
  predicate SettlingNow(s: State) {
    && s.core.link.sink.Some? && s.core.link.sink.value in s.conns
    && var settler := s.conns[s.core.link.sink.value].settler;
       settler.Some? && settler.value in s.threads.pcs
       && (s.threads.pcs[settler.value].Writing? || s.threads.pcs[settler.value].Noting?)
  }

  predicate CountdownRuns(s: State) {
    s.core.idle.pending != map[] || s.callbacks != map[]
  }

  ghost predicate AwakeInv(cfg: Config, s: State) {
    cfg.idleGrace > 0 && s.core.link.settled && !s.core.idle.suspending && s.core.idle.inFlight == 0 && !SettlingNow(s)
    ==> CountdownRuns(s)
  }

  /** Steps that leave the timer alone may start settling, but not end it. */
  lemma DeliverKeepsAwake(cfg: Config, s: State, t: Thread, ids: seq<string>)
    requires AwakeInv(cfg, s) && PlaceInv(s) && MayDeliver(s, t, ids)
    ensures AwakeInv(cfg, Deliver'(s, t, ids))
  {
    hide StampAll, RecordStamps, RecordIds;
  }

  lemma EventKeepsAwake(cfg: Config, s: State, raw: SocketMode.Raw, id: string)
    requires AwakeInv(cfg, s) && PlaceInv(s)
    ensures AwakeInv(cfg, Event'(s, raw, id))
  {
  }

  lemma DeliveryStepsKeepAwake(cfg: Config, s: State, l: Label)
    requires AwakeInv(cfg, s) && PlaceInv(s) && FreshInv(s) && Enabled(cfg, s, l)
    requires !IsIdleLabel(l) && !l.LNote? && !l.LAck? && !l.LDetach? && !l.LDeliver? && !l.LEvent?
    ensures AwakeInv(cfg, Apply(cfg, s, l))
  {
  }

  lemma IdleStepsKeepAwake(cfg: Config, s: State, l: Label)
    requires AwakeInv(cfg, s) && PlaceInv(s) && Enabled(cfg, s, l)
    requires IsIdleLabel(l) || l.LNote? || l.LAck? || l.LDetach?
    ensures AwakeInv(cfg, Apply(cfg, s, l))
  {
    var s' := Apply(cfg, s, l);
    assert s.core.idle.nextTimer in s'.core.idle.pending ==> s'.core.idle.pending != map[];
    if l.LIdleFires? {
      assert l.timer in s'.callbacks;
    }
  }

  lemma StepKeepsAwake(cfg: Config, s: State, l: Label)
    requires AwakeInv(cfg, s) && PlaceInv(s) && FreshInv(s) && Enabled(cfg, s, l)
    ensures AwakeInv(cfg, Apply(cfg, s, l))
  {
    hide AwakeInv;
    if IsIdleLabel(l) || l.LNote? || l.LAck? || l.LDetach? {
      IdleStepsKeepAwake(cfg, s, l);
    } else if l.LDeliver? {
      DeliverKeepsAwake(cfg, s, l.thread, l.ids);
    } else if l.LEvent? {
      EventKeepsAwake(cfg, s, l.raw, l.id);
    } else {
      DeliveryStepsKeepAwake(cfg, s, l);
    }
  }
}
