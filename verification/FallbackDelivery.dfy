/** The fallback timer of held deliveries: overlapping attaches overwrite the session's pointer to
    it, yet the current connection never loses its own. */
module FallbackDelivery {
  import opened Wrappers
  import SocketMode
  import opened SessionCore
  import opened SessionMachine
  import opened Placement

  /** A fallback delivery to `c` is pending, or has fired and is about to run. */
  ghost predicate FallbackRuns(pcs: map<Thread, Pc>, pending: map<nat, Conn>, c: Conn) {
    exists tm: nat :: (tm in pending && pending[tm] == c) || (Fallback(tm, c) in pcs && pcs[Fallback(tm, c)] == Ready)
  }

  /** The current connection is greeted and its buffered events are still held back. */
  predicate Holding(pcs: map<Thread, Pc>, link: Link) {
    && link.sink.Some? && !link.settled
    && Handler(link.sink.value) in pcs && !BeforeSettling(pcs[Handler(link.sink.value)])
  }

  ghost predicate FallbackOk(cfg: Config, pcs: map<Thread, Pc>, link: Link) {
    cfg.deliverDelay > 0 && Holding(pcs, link) ==> FallbackRuns(pcs, link.pending, link.sink.value)
  }

  ghost predicate FallbackInv(cfg: Config, s: State) {
    FallbackOk(cfg, s.threads.pcs, s.core.link)
  }

  /** Without a positive delay there are no fallback timers at all. */
  ghost predicate HeartbeatOnly(cfg: Config, s: State) {
    cfg.deliverDelay <= 0 ==> s.core.link.pending == map[] && forall t :: t in s.threads.pcs ==> !t.Fallback?
  }

  lemma StepKeepsHeartbeatOnly(cfg: Config, s: State, l: Label)
    requires HeartbeatOnly(cfg, s) && Enabled(cfg, s, l)
    ensures HeartbeatOnly(cfg, Apply(cfg, s, l))
  {
    hide SocketMode.RewriteEnvelopeId, SocketMode.IsEventFrame, StampAll, RecordIds, RecordStamps;
    if IsIdleLabel(l) {
      hide Apply, Enabled;
      IdleLabelFrame(cfg, s, l);
    } else if l.LAcquire? || l.LCheck? || l.LRelease? || l.LNote? || l.LPing? || l.LAck? || l.LResumeReturns? {
      hide Apply, Enabled;
      MoveFrame(cfg, s, l);
      assert forall t :: t in Apply(cfg, s, l).threads.pcs ==> t in s.threads.pcs.Keys;
    }
  }

  /** A fallback survives a step that keeps the timers and moves some other thread. */
  lemma OtherThreadMoves(cfg: Config, pcs: map<Thread, Pc>, link: Link, t: Thread, pc: Pc)
    requires FallbackOk(cfg, pcs, link) && t in pcs
    requires t.Fallback? && link.sink == Some(t.target) ==> link.settled || pcs[t] != Ready
    requires t.Handler? && link.sink == Some(t.conn) && BeforeSettling(pcs[t]) ==> link.settled || BeforeSettling(pc)
    ensures FallbackOk(cfg, pcs[t := pc], link)
  {
    if cfg.deliverDelay > 0 && Holding(pcs[t := pc], link) {
      var c := link.sink.value;
      var tm: nat :| (tm in link.pending && link.pending[tm] == c)
                  || (Fallback(tm, c) in pcs && pcs[Fallback(tm, c)] == Ready);
      assert (tm in link.pending && link.pending[tm] == c)
          || (Fallback(tm, c) in pcs[t := pc] && pcs[t := pc][Fallback(tm, c)] == Ready);
    }
  }

  lemma HoldArmsFallback(cfg: Config, s: State, c: Conn)
    requires FallbackInv(cfg, s) && FreshInv(s) && MayHold(s, c)
    ensures FallbackInv(cfg, Hold'(cfg, s, c))
  {
    var s' := Hold'(cfg, s, c);
    if cfg.deliverDelay > 0 && Holding(s'.threads.pcs, s'.core.link) {
      var d := s'.core.link.sink.value;
      if d == c {
        assert s'.core.link.pending[s.core.link.nextTimer] == c;
      } else {
        assert Holding(s.threads.pcs, s.core.link);
        var tm: nat :| (tm in s.core.link.pending && s.core.link.pending[tm] == d)
                    || (Fallback(tm, d) in s.threads.pcs && s.threads.pcs[Fallback(tm, d)] == Ready);
        assert (tm in s'.core.link.pending && s'.core.link.pending[tm] == d)
            || (Fallback(tm, d) in s'.threads.pcs && s'.threads.pcs[Fallback(tm, d)] == Ready);
      }
    }
  }

  lemma FiringKeepsFallback(cfg: Config, s: State, tm: nat)
    requires FallbackInv(cfg, s) && FreshInv(s) && tm in s.core.link.pending
    ensures FallbackInv(cfg, FallbackFires'(s, tm))
  {
    var s' := FallbackFires'(s, tm);
    var t := Fallback(tm, s.core.link.pending[tm]);
    assert t !in s.threads.pcs;
    if cfg.deliverDelay > 0 && Holding(s'.threads.pcs, s'.core.link) {
      var c := s.core.link.sink.value;
      assert Holding(s.threads.pcs, s.core.link);
      var u: nat :| (u in s.core.link.pending && s.core.link.pending[u] == c)
                 || (Fallback(u, c) in s.threads.pcs && s.threads.pcs[Fallback(u, c)] == Ready);
      assert (u in s'.core.link.pending && s'.core.link.pending[u] == c)
          || (Fallback(u, c) in s'.threads.pcs && s'.threads.pcs[Fallback(u, c)] == Ready);
    }
  }

  /** Calls of deliverBufferedNow settle the current connection or leave it to its own fallback. */
  lemma DeliverKeepsFallback(cfg: Config, s: State, t: Thread, ids: seq<string>)
    requires FallbackInv(cfg, s) && MayDeliver(s, t, ids)
    ensures FallbackInv(cfg, Deliver'(s, t, ids))
  {
    if !Settles(s.core.link, ConnOf(t)) {
      OtherThreadMoves(cfg, s.threads.pcs, s.core.link, t, Return(t));
    }
  }

  lemma ThreadMovesKeepFallback(cfg: Config, s: State, l: Label)
    requires FallbackInv(cfg, s) && PlaceInv(s) && Enabled(cfg, s, l)
    requires l.LAcquire? || l.LCheck? || l.LWrite? || l.LRelease? || l.LNote? || l.LPing?
    ensures FallbackInv(cfg, Apply(cfg, s, l))
  {
    hide PlaceInv;
    OtherThreadMoves(cfg, s.threads.pcs, s.core.link, l.thread, Apply(cfg, s, l).threads.pcs[l.thread]);
  }

  lemma EventKeepsFallback(cfg: Config, s: State, raw: SocketMode.Raw, id: string)
    requires FallbackInv(cfg, s) && At(s, Reader, Ready)
    ensures FallbackInv(cfg, Event'(s, raw, id))
  {
    hide SocketMode.RewriteEnvelopeId;
    if !DeliversLive(s.core.link) {
      assert Event'(s, raw, id).threads == s.threads;
    }
  }

  lemma LinkStepsKeepFallback(cfg: Config, s: State, l: Label)
    requires FallbackInv(cfg, s) && FreshInv(s) && Enabled(cfg, s, l)
    requires l.LAttach? || l.LDetach? || l.LEnsureStarted?
    ensures FallbackInv(cfg, Apply(cfg, s, l))
  {
    if l.LDetach? && s.core.link.sink != Some(l.conn) {
      OtherThreadMoves(cfg, s.threads.pcs, s.core.link, Handler(l.conn), Finished);
    }
    if l.LEnsureStarted? {
      var s' := Apply(cfg, s, l);
      assert forall t :: t in s.threads.pcs ==> t in s'.threads.pcs && s'.threads.pcs[t] == s.threads.pcs[t];
    }
  }

  lemma StepKeepsFallback(cfg: Config, s: State, l: Label)
    requires FallbackInv(cfg, s) && FreshInv(s) && PlaceInv(s) && Enabled(cfg, s, l)
    ensures FallbackInv(cfg, Apply(cfg, s, l))
  {
    hide FallbackRuns, FreshInv, PlaceInv;
    match l
    case LEvent(raw, id) => EventKeepsFallback(cfg, s, raw, id);
    case LHold(c) => HoldArmsFallback(cfg, s, c);
    case LFallbackFires(tm) => FiringKeepsFallback(cfg, s, tm);
    case LDeliver(t, ids) => DeliverKeepsFallback(cfg, s, t, ids);
    case LAcquire(_) => ThreadMovesKeepFallback(cfg, s, l);
    case LCheck(_) => ThreadMovesKeepFallback(cfg, s, l);
    case LWrite(_, _) => ThreadMovesKeepFallback(cfg, s, l);
    case LRelease(_) => ThreadMovesKeepFallback(cfg, s, l);
    case LNote(_) => ThreadMovesKeepFallback(cfg, s, l);
    case LPing(_) => ThreadMovesKeepFallback(cfg, s, l);
    case LAttach(_) => LinkStepsKeepFallback(cfg, s, l);
    case LDetach(_) => LinkStepsKeepFallback(cfg, s, l);
    case LEnsureStarted(_) => LinkStepsKeepFallback(cfg, s, l);
    case LResumeReturns(_) =>
    case LAck(_, _) =>
    case _ => IdleLabelFrame(cfg, s, l);
  }
}
