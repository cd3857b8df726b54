/** Resume, suspend and forward accounting over every run of one session. */
module LifecycleTheorems {
  import opened Wrappers
  import opened SessionCore
  import opened SessionMachine
  import opened LogRefinement
  import opened Lifecycle
  import opened IdleSuspend
  import opened SessionInvariant

  // ---- Resumes

  /** A resume is under way only for a disconnected actor, and its trigger still waits, delivered to
      no connection; every resume has a trigger of its own; each further resume needs an attach or a
      failed resume in between; and once every resume started has failed the next event retries. */
  lemma ResumesAreJustified(cfg: Config, s: State)
    requires Reachable(cfg, s)
    ensures s.core.link.resuming ==>
              && s.core.link.sink.None?
              && exists e :: e in s.core.mail.buffer && e.key in s.resumes.triggers && !StampedFor(s.log.stamps, e.key)
    ensures forall i, j :: 0 <= i < j < |s.resumes.triggers| ==> s.resumes.triggers[i] < s.resumes.triggers[j]
    ensures |s.resumes.triggers| <= |s.conns| + s.resumes.failures + Bit(s.core.link.resuming)
    ensures s.resumes.failures == |s.resumes.triggers| ==> !s.core.link.resuming
  {
    hide Reachable, LogInv, Undelivered;
    ReachableInv(cfg, s);
    if s.core.link.resuming {
      var key := s.resumes.triggers[|s.resumes.triggers| - 1];
      assert key in s.resumes.triggers;
      UndeliveredIsBuffered(s, key);
    }
  }

  lemma UndeliveredIsBuffered(s: State, key: nat)
    requires LogInv(s) && Undelivered(s.log, key)
    ensures PendingEvent(key, s.log.received[key]) in s.core.mail.buffer && !StampedFor(s.log.stamps, key)
  {
    LogBufferComplete(s.log.received, s.log.acked, key);
  }

  // ---- Forwards and suspends

  /** A counter that leaks never blocks suspension, and a suspend decision while forwards are
      outstanding needs at least as many of them to have been cut off by the last disconnect. */
  lemma ForwardAccounting(cfg: Config, s: State)
    requires Reachable(cfg, s)
    ensures s.forwards.outstanding - s.forwards.cutOff <= s.core.idle.inFlight <= s.forwards.outstanding
    ensures s.forwards.outstanding == 0 ==> s.core.idle.inFlight == 0
    ensures SuspendsNow(s.core) ==> s.forwards.outstanding <= s.forwards.cutOff
    ensures s.suspends.started <= s.suspends.detaches + s.suspends.failures + Bit(s.core.idle.suspending)
    ensures s.suspends.failures == s.suspends.started ==> !s.core.idle.suspending
  {
    hide LogInv, Reachable;
    ReachableInv(cfg, s);
  }

  // ---- The idle countdown

  /** Nothing of a connection outlives its detach: an absent actor is neither settled nor being
      suspended and has no countdown pending, so a reconnect starts from a clean slate unless it
      replaces a connection that is still there. */
  lemma AbsentActorIsReset(cfg: Config, s: State)
    requires Reachable(cfg, s) && s.core.link.sink.None?
    ensures !s.core.link.settled && !s.core.idle.suspending && s.core.idle.pending == map[]
  {
    hide LogInv, Reachable;
    ReachableInv(cfg, s);
  }

  /** No connection stays awake forever: a settled connection with nothing in flight and no suspend
      under way has a countdown running, or fired and about to be handled, unless the call that
      settled it is still to note the activity. */
  lemma NoConnectionStaysAwake(cfg: Config, s: State)
    requires Reachable(cfg, s) && cfg.idleGrace > 0
    requires s.core.link.settled && !s.core.idle.suspending && s.core.idle.inFlight == 0 && !SettlingNow(s)
    ensures CountdownRuns(s)
  {
    hide LogInv, Reachable;
    ReachableInv(cfg, s);
  }

  lemma OneCountdown(cfg: Config, k: Idle, callbacks: map<nat, Callback>, now: nat, lastTouch: nat)
    requires TimerOk(cfg, k, callbacks, now, lastTouch)
    ensures Without(k.pending, k.idleTmr) == map[]
  {
    assert forall tm :: tm in k.pending ==> k.idleTmr == Some(tm);
  }

  /** A delivery noted, an acknowledgement of an event still buffered, the end of a forward and a failed
      suspend restart the countdown: afterwards exactly one is pending, armed now, if the actor is
      connected, not being suspended and has nothing in flight, and none otherwise. */
  lemma ActivityRestartsCountdown(cfg: Config, s: State, l: Label)
    requires Reachable(cfg, s) && Enabled(cfg, s, l) && cfg.idleGrace > 0
    requires || l.LNote? || l.LEndForward? || l == LSuspendReturns(false)
             || (l.LAck? && AckedId(l.raw) in s.log.stamps && s.log.stamps[AckedId(l.raw)].key !in s.log.acked)
    ensures var s' := Apply(cfg, s, l);
            if s'.core.link.sink.Some? && !s'.core.idle.suspending && s'.core.idle.inFlight == 0
            then s'.core.idle.pending == map[s.core.idle.nextTimer := s.now]
            else s'.core.idle.pending == map[]
  {
    hide Reachable, Inv;
    ReachableInv(cfg, s);
    KnownAndAlone(cfg, s);
  }

  lemma KnownAndAlone(cfg: Config, s: State)
    requires Inv(cfg, s)
    ensures Without(s.core.idle.pending, s.core.idle.idleTmr) == map[] && "" !in s.log.stamps
    ensures forall id :: id in s.log.stamps && s.log.stamps[id].key !in s.log.acked ==> id in s.core.mail.freshIds
  {
    OneCountdown(cfg, s.core.idle, s.callbacks, s.now, s.lastTouch);
  }

  /** The beginning of a forward and the current connection's detach stop the countdown. */
  lemma ForwardAndDetachStopCountdown(cfg: Config, s: State, l: Label)
    requires Reachable(cfg, s) && Enabled(cfg, s, l)
    requires l.LBeginForward? || (l.LDetach? && s.core.link.sink == Some(l.conn))
    ensures Apply(cfg, s, l).core.idle.pending == map[]
  {
    hide Reachable, Inv;
    ReachableInv(cfg, s);
    KnownAndAlone(cfg, s);
  }

  /** A forward may begin at any time, connected or not, and its end undoes what its beginning did to
      the counters and touches nothing but the countdown. */
  lemma ForwardPairRestores(cfg: Config, s: State)
    ensures Enabled(cfg, s, LBeginForward)
    ensures var s1 := Apply(cfg, s, LBeginForward);
            && s1.forwards.outstanding == s.forwards.outstanding + 1
            && s1.core.idle.inFlight == s.core.idle.inFlight + 1
            && Enabled(cfg, s1, LEndForward)
            && var s2 := Apply(cfg, s1, LEndForward);
               && s2.forwards == s.forwards && s2.core.idle.inFlight == s.core.idle.inFlight
               && s2.core.idle.suspending == s.core.idle.suspending && s2.core.link == s.core.link
               && s2.core.mail == s.core.mail && s2.threads == s.threads && s2.conns == s.conns
  {
  }

  // ---- The reader's fields, read off the run

  /** The label at `i` is the last EnsureStarted of the run. */
  predicate IsLastStart(ls: seq<Label>, i: nat) {
    i < |ls| && ls[i].LEnsureStarted? && forall j :: i < j < |ls| ==> !ls[j].LEnsureStarted?
  }

  /** Some EnsureStarted comes before any Close. */
  ghost predicate StartsBeforeClose(ls: seq<Label>) {
    exists i :: 0 <= i < |ls| && ls[i].LEnsureStarted? && forall j :: 0 <= j < i ==> ls[j] != LClose
  }

  lemma StepReaderFields(cfg: Config, s: State, l: Label)
    requires Enabled(cfg, s, l)
    ensures var r, r' := s.core.reader, Apply(cfg, s, l).core.reader;
            && r'.appToken == (if l.LEnsureStarted? then l.token else r.appToken)
            && (r'.closed <==> r.closed || l == LClose)
            && (r'.started <==> r.started || (l.LEnsureStarted? && !r.closed))
  {
    hide StampAll, RecordIds, RecordStamps;
  }

  lemma StartsFirst(l: Label, rest: seq<Label>)
    ensures StartsBeforeClose([l] + rest) <==> l.LEnsureStarted? || (l != LClose && StartsBeforeClose(rest))
  {
    var ls := [l] + rest;
    if i :| 0 <= i < |ls| && ls[i].LEnsureStarted? && forall j :: 0 <= j < i ==> ls[j] != LClose {
      if i > 0 {
        assert ls[0] == l && ls[i] == rest[i - 1];
        assert forall j :: 0 <= j < i - 1 ==> rest[j] == ls[j + 1];
      }
    }
    if l.LEnsureStarted? {
      assert ls[0] == l;
    }
    if l != LClose && StartsBeforeClose(rest) {
      var i :| 0 <= i < |rest| && rest[i].LEnsureStarted? && forall j :: 0 <= j < i ==> rest[j] != LClose;
      assert ls[i + 1] == rest[i];
      assert forall j :: 0 <= j < i + 1 ==> ls[j] == if j == 0 then l else rest[j - 1];
    }
  }

  lemma LastStartRest(ls: seq<Label>, i: nat)
    requires IsLastStart(ls, i)
    ensures i > 0 ==> IsLastStart(ls[1..], i - 1) && ls[1..][i - 1] == ls[i]
    ensures i == 0 ==> forall j :: 0 <= j < |ls[1..]| ==> !ls[1..][j].LEnsureStarted?
  {
    if i > 0 {
      assert forall j :: i - 1 < j < |ls[1..]| ==> ls[1..][j] == ls[j + 1];
    }
  }

  lemma {:induction false} RunReaderFields(cfg: Config, s: State, ls: seq<Label>)
    requires IsRun(cfg, s, ls)
    ensures var r, r' := s.core.reader, After(cfg, s, ls).core.reader;
            && (forall i: nat :: IsLastStart(ls, i) ==> r'.appToken == ls[i].token)
            && ((forall i :: 0 <= i < |ls| ==> !ls[i].LEnsureStarted?) ==> r'.appToken == r.appToken)
            && (r'.closed <==> r.closed || LClose in ls)
            && (r'.started <==> r.started || (!r.closed && StartsBeforeClose(ls)))
    decreases |ls|
  {
    hide Enabled, Apply;
    if ls != [] {
      var s1 := Apply(cfg, s, ls[0]);
      StepReaderFields(cfg, s, ls[0]);
      RunReaderFields(cfg, s1, ls[1..]);
      assert ls == [ls[0]] + ls[1..];
      StartsFirst(ls[0], ls[1..]);
      forall i: nat | IsLastStart(ls, i) ensures After(cfg, s, ls).core.reader.appToken == ls[i].token {
        LastStartRest(ls, i);
      }
    }
  }

  /** On every run the token is that of the last EnsureStarted, the session is closed exactly if it
      was ever closed, and its reader is started exactly if some EnsureStarted came before that. */
  lemma ReaderFieldsOverRuns(cfg: Config, ls: seq<Label>)
    requires IsRun(cfg, INITIAL, ls)
    ensures var r := After(cfg, INITIAL, ls).core.reader;
            && (forall i: nat :: IsLastStart(ls, i) ==> r.appToken == ls[i].token)
            && ((forall i :: 0 <= i < |ls| ==> !ls[i].LEnsureStarted?) ==> r.appToken == "")
            && (r.closed <==> LClose in ls)
            && (r.started <==> StartsBeforeClose(ls))
  {
    RunReaderFields(cfg, INITIAL, ls);
  }

  // ---- Close

  /** How many events may still come in: the one the reader is waiting for. */
  lemma StepAfterClose(cfg: Config, s: State, l: Label)
    requires Enabled(cfg, s, l) && s.core.reader.closed
    ensures var s' := Apply(cfg, s, l);
            && s'.core.reader.closed
            && |s'.log.received| + Bit(s'.reading) <= |s.log.received| + Bit(s.reading)
  {
    hide StampAll, RecordIds, RecordStamps;
  }

  lemma {:induction false} RunAfterClose(cfg: Config, s: State, ls: seq<Label>)
    requires IsRun(cfg, s, ls) && s.core.reader.closed
    ensures var s' := After(cfg, s, ls);
            |s'.log.received| + Bit(s'.reading) <= |s.log.received| + Bit(s.reading)
    decreases |ls|
  {
    hide Enabled, Apply;
    if ls != [] {
      StepAfterClose(cfg, s, ls[0]);
      RunAfterClose(cfg, Apply(cfg, s, ls[0]), ls[1..]);
    }
  }

  /** After Close at most one more event comes in, on any continuation, and none unless the reader was
      waiting for a frame when the session was closed. */
  lemma CloseEndsReading(cfg: Config, s: State, ls: seq<Label>)
    requires IsRun(cfg, Apply(cfg, s, LClose), ls)
    ensures var received := After(cfg, Apply(cfg, s, LClose), ls).log.received;
            |received| <= |s.log.received| + (if s.reading then 1 else 0)
  {
    RunAfterClose(cfg, Apply(cfg, s, LClose), ls);
  }
}
