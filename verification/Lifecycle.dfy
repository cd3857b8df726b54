/** Resumes, suspends and forwards over whole runs: what each flag means, how often each call can
    be started, and how the forward counter relates to the forwards truly outstanding. */
module Lifecycle {
  import opened Wrappers
  import SocketMode
  import opened SessionCore
  import opened SessionMachine
  import opened LogRefinement
  import opened Placement

  function Bit(b: bool): nat {
    if b then 1 else 0
  }

  // ---- Resumes

  /** An event that is buffered and was never delivered to any connection. */
  ghost predicate Undelivered(log: Log, key: nat) {
    key < |log.received| && key !in log.acked && !StampedFor(log.stamps, key)
  }

  ghost predicate ResumeOk(link: Link, log: Log, r: ResumeTally, attaches: nat) {
    && (link.resuming ==> link.sink.None? && r.triggers != [] && Undelivered(log, r.triggers[|r.triggers| - 1]))
    && (forall i, j :: 0 <= i < j < |r.triggers| ==> r.triggers[i] < r.triggers[j])
    && (forall i :: 0 <= i < |r.triggers| ==> r.triggers[i] < |log.received|)
    && |r.triggers| <= attaches + r.failures + Bit(link.resuming)
    && r.failures + r.running <= |r.triggers| && (link.resuming ==> r.failures < |r.triggers|)
  }

  ghost predicate ResumeInv(s: State) {
    ResumeOk(s.core.link, s.log, s.resumes, |s.conns|)
  }

  lemma UndeliveredLasts(log: Log, raw: SocketMode.Raw, key: nat)
    requires Undelivered(log, key)
    ensures Undelivered(log.(received := log.received + [raw]), key)
  {
  }

  lemma EventHeldKeepsResume(s: State, raw: SocketMode.Raw, id: string)
    requires ResumeInv(s) && LogInv(s) && !DeliversLive(s.core.link)
    ensures ResumeInv(EventHeld(s, raw, id))
  {
    var s' := EventHeld(s, raw, id);
    if NeedsResume(s.core.link) {
      assert forall i :: i in s.log.stamps ==> s.log.stamps[i].key < |s.log.received|;
      assert Undelivered(s'.log, s.core.mail.nextKey);
    } else if s.core.link.resuming {
      UndeliveredLasts(s.log, raw, s.resumes.triggers[|s.resumes.triggers| - 1]);
    }
  }

  /** Acknowledging needs a stamp, so it cannot remove an undelivered event. */
  lemma AckKeepsResume(cfg: Config, s: State, id: string)
    requires ResumeInv(s) && LogInv(s)
    ensures ResumeInv(Ack'(cfg, s, id))
  {
    if KnowsId(s.core.mail, id) && s.core.link.resuming {
      var key := s.core.mail.freshIds[id];
      assert id in s.log.stamps && s.log.stamps[id].key == key;
      assert StampedFor(s.log.stamps, key);
    }
  }

  /** Writing and stamping on a connection there already is. */
  lemma SameConnections(conns: Conns, c: Conn, h: ConnLog)
    requires c in conns
    ensures |conns[c := h]| == |conns|
  {
    assert conns[c := h].Keys == conns.Keys;
    assert |conns[c := h].Keys| == |conns.Keys|;
  }

  lemma EventLiveKeepsResume(s: State, raw: SocketMode.Raw, id: string, c: Conn)
    requires ResumeInv(s) && s.core.link.sink == Some(c) && c in s.conns && s.core.link.settled
    ensures ResumeInv(EventLive(s, raw, id, c))
  {
    hide SocketMode.RewriteEnvelopeId, Undelivered;
    SameConnections(s.conns, c, EventLive(s, raw, id, c).conns[c]);
  }

  lemma DeliverKeepsResume(s: State, t: Thread, ids: seq<string>)
    requires ResumeInv(s) && MayDeliver(s, t, ids) && (s.core.link.sink.Some? ==> s.core.link.sink.value in s.conns)
    ensures ResumeInv(Deliver'(s, t, ids))
  {
    hide RecordIds, RecordStamps, StampAll, Undelivered;
    if Settles(s.core.link, ConnOf(t)) {
      SameConnections(s.conns, ConnOf(t), Settle(s, t, ConnOf(t), ids).conns[ConnOf(t)]);
    }
  }

  lemma WriteKeepsResume(s: State, t: Thread, ok: bool)
    requires ResumeInv(s) && InPhase(s, t, Committed) && s.threads.pcs[t].frames != []
    requires s.threads.pcs[t].conn in s.conns
    ensures ResumeInv(Write'(s, t, ok))
  {
    hide Undelivered;
    SameConnections(s.conns, s.threads.pcs[t].conn, Write'(s, t, ok).conns[s.threads.pcs[t].conn]);
  }

  lemma AttachKeepsResume(s: State, c: Conn)
    requires ResumeInv(s) && c !in s.conns
    ensures ResumeInv(Attach'(s, c))
  {
    hide Undelivered;
    assert Attach'(s, c).conns.Keys == s.conns.Keys + {c};
    assert |Attach'(s, c).conns.Keys| == |s.conns.Keys| + 1;
  }

  lemma LinkStepsKeepResume(cfg: Config, s: State, l: Label)
    requires ResumeInv(s) && Enabled(cfg, s, l)
    requires l.LHold? || l.LDetach? || l.LFallbackFires? || l.LResumeReturns?
    ensures ResumeInv(Apply(cfg, s, l))
  {
    hide Undelivered, StampAll, RecordIds, RecordStamps;
  }

  lemma StepKeepsResume(cfg: Config, s: State, l: Label)
    requires ResumeInv(s) && LogInv(s) && PlaceInv(s) && Enabled(cfg, s, l)
    ensures ResumeInv(Apply(cfg, s, l))
  {
    hide LogOk, PlaceInv, ResumeOk;
    KnownConnections(s);
    match l
    case LEvent(raw, id) =>
      if DeliversLive(s.core.link) {
        EventLiveKeepsResume(s, raw, id, s.core.link.sink.value);
      } else {
        EventHeldKeepsResume(s, raw, id);
      }
    case LDeliver(t, ids) => DeliverKeepsResume(s, t, ids);
    case LWrite(t, ok) => WriteKeepsResume(s, t, ok);
    case LAck(_, raw) => AckKeepsResume(cfg, s, AckedId(raw));
    case LAttach(c) => AttachKeepsResume(s, c);
    case LHold(_) => LinkStepsKeepResume(cfg, s, l);
    case LDetach(_) => LinkStepsKeepResume(cfg, s, l);
    case LFallbackFires(_) => LinkStepsKeepResume(cfg, s, l);
    case LResumeReturns(_) => LinkStepsKeepResume(cfg, s, l);
    case _ => assert Apply(cfg, s, l).conns == s.conns;
  }

  // ---- Suspends

  ghost predicate SuspendInv(s: State) {
    && s.suspends.started <= s.suspends.detaches + s.suspends.failures + Bit(s.core.idle.suspending)
    && s.suspends.failures + s.suspends.running <= s.suspends.started
    && (s.core.idle.suspending ==> s.suspends.failures < s.suspends.started)
  }

  lemma StepKeepsSuspend(cfg: Config, s: State, l: Label)
    requires SuspendInv(s) && Enabled(cfg, s, l)
    ensures SuspendInv(Apply(cfg, s, l))
  {
  }

  // ---- Forwards

  /** The counter never exceeds the truth, and falls short of it by at most what the last effective
      detach cut off. */
  predicate ForwardsOk(inFlight: nat, f: ForwardTally) {
    f.outstanding - f.cutOff <= inFlight <= f.outstanding
  }

  ghost predicate ForwardInv(s: State) {
    ForwardsOk(s.core.idle.inFlight, s.forwards)
  }

  lemma StepKeepsForwards(cfg: Config, s: State, l: Label)
    requires ForwardInv(s) && Enabled(cfg, s, l)
    ensures ForwardInv(Apply(cfg, s, l))
  {
  }
}
