/** No reachable state is a dead end: whatever has happened, the actor can reconnect, receive every
    buffered event exactly once on its new connection, and acknowledge them all. */
module Progress {
  import opened Wrappers
  import opened SessionCore
  import opened SessionMachine
  import opened LogRefinement
  import opened Placement
  import opened Delivery
  import opened SessionInvariant
  import opened DeliveryTheorems
  import opened AckTheorems
  import opened LifecycleTheorems
  import opened MidSend

  /** Only thread `t` and the log of connection `c` differ, and that log saw no failure. */
  ghost predicate OnlyWrites(s: State, s': State, t: Thread, c: Conn) {
    && s'.core == s.core && s'.log == s.log && s'.resumes == s.resumes && s'.reading == s.reading
    && t in s'.threads.pcs && s'.threads.pcs == s.threads.pcs[t := s'.threads.pcs[t]]
    && c in s.conns && c in s'.conns && s'.conns == s.conns[c := s'.conns[c]]
    && s'.conns[c].failed == s.conns[c].failed && s'.conns[c].settler == s.conns[c].settler
  }

  lemma OnlyWritesTrans(s: State, s1: State, s2: State, t: Thread, c: Conn)
    requires OnlyWrites(s, s1, t, c) && OnlyWrites(s1, s2, t, c)
    ensures OnlyWrites(s, s2, t, c)
  {
  }

  /** The holder of `sinkWrite` works through its frames and gets ready to unlock. */
  lemma {:induction false} Drive(cfg: Config, s: State, t: Thread) returns (ls: seq<Label>)
    requires InPhase(s, t, Checking) && s.threads.pcs[t].conn in s.conns
    ensures IsRun(cfg, s, ls)
    ensures var s' := After(cfg, s, ls);
            && OnlyWrites(s, s', t, s.threads.pcs[t].conn) && s'.threads.lock == s.threads.lock
            && InPhase(s', t, Releasing) && s'.threads.pcs[t].purpose == s.threads.pcs[t].purpose
    decreases |s.threads.pcs[t].frames|
  {
    var pc, c := s.threads.pcs[t], s.threads.pcs[t].conn;
    var s1 := Check'(s, t);
    assert s1 == Apply(cfg, s, LCheck(t));
    if pc.frames == [] || s.core.link.sink != Some(c) {
      FirstStep(cfg, s, LCheck(t), []);
      ls := [LCheck(t)] + [];
    } else {
      var s2 := Write'(s1, t, true);
      assert s2 == Apply(cfg, s1, LWrite(t, true));
      var rest := Drive(cfg, s2, t);
      FirstStep(cfg, s1, LWrite(t, true), rest);
      FirstStep(cfg, s, LCheck(t), [LWrite(t, true)] + rest);
      OnlyWritesTrans(s, s2, After(cfg, s2, rest), t, c);
      ls := [LCheck(t)] + ([LWrite(t, true)] + rest);
    }
  }

  /** Where a call of writeToSink returns to. */
  function Continue(purpose: Purpose): Pc {
    if purpose.ForHello? then HelloSent(purpose.buffered) else Noting
  }

  /** From the test onwards, through the unlock. */
  lemma DriveAndRelease(cfg: Config, s: State, t: Thread) returns (ls: seq<Label>)
    requires InPhase(s, t, Checking) && s.threads.pcs[t].conn in s.conns
    ensures IsRun(cfg, s, ls)
    ensures var s' := After(cfg, s, ls);
            && OnlyWrites(s, s', t, s.threads.pcs[t].conn) && s'.threads.lock.None?
            && s'.threads.pcs[t] == Continue(s.threads.pcs[t].purpose)
  {
    var c := s.threads.pcs[t].conn;
    var drive := Drive(cfg, s, t);
    var s1 := After(cfg, s, drive);
    FirstStep(cfg, s1, LRelease(t), []);
    var s2 := Apply(cfg, s1, LRelease(t));
    hide IsRun, After, Enabled;
    RunsCompose(cfg, s, drive, [LRelease(t)] + []);
    OnlyWritesTrans(s, s1, s2, t, c);
    ls := drive + ([LRelease(t)] + []);
  }

  /** A whole call of writeToSink, with the lock free. */
  lemma WriteAll(cfg: Config, s: State, t: Thread) returns (ls: seq<Label>)
    requires InPhase(s, t, Waiting) && s.threads.lock.None? && s.threads.pcs[t].conn in s.conns
    ensures IsRun(cfg, s, ls)
    ensures var s' := After(cfg, s, ls);
            && OnlyWrites(s, s', t, s.threads.pcs[t].conn) && s'.threads.lock.None?
            && s'.threads.pcs[t] == Continue(s.threads.pcs[t].purpose)
  {
    var c := s.threads.pcs[t].conn;
    var s1 := Apply(cfg, s, LAcquire(t));
    var rest := DriveAndRelease(cfg, s1, t);
    FirstStep(cfg, s, LAcquire(t), rest);
    OnlyWritesTrans(s, s1, After(cfg, s1, rest), t, c);
    ls := [LAcquire(t)] + rest;
  }

  /** What stays when calls of writeToSink only finish. */
  predicate SameSession(s: State, s': State) {
    && s'.core == s.core && s'.log == s.log && s'.resumes == s.resumes && s'.reading == s.reading
    && s'.conns.Keys == s.conns.Keys
  }

  /** The holder of the lock finishes its call from wherever it is. */
  lemma FinishWriter(cfg: Config, s: State, t: Thread) returns (ls: seq<Label>)
    requires t in s.threads.pcs && s.threads.pcs[t].Writing? && s.threads.pcs[t].conn in s.conns
    requires s.threads.pcs[t].phase != Waiting
    requires s.threads.pcs[t].phase == Committed ==> s.threads.pcs[t].frames != []
    ensures IsRun(cfg, s, ls)
    ensures var s' := After(cfg, s, ls);
            && OnlyWrites(s, s', t, s.threads.pcs[t].conn) && s'.threads.lock.None?
            && s'.threads.pcs[t] == Continue(s.threads.pcs[t].purpose)
  {
    match s.threads.pcs[t].phase
    case Checking =>
      ls := DriveAndRelease(cfg, s, t);
    case Committed =>
      var s1 := Apply(cfg, s, LWrite(t, true));
      var rest := DriveAndRelease(cfg, s1, t);
      FirstStep(cfg, s, LWrite(t, true), rest);
      OnlyWritesTrans(s, s1, After(cfg, s1, rest), t, s.threads.pcs[t].conn);
      ls := [LWrite(t, true)] + rest;
    case Releasing =>
      FirstStep(cfg, s, LRelease(t), []);
      ls := [LRelease(t)] + [];
  }

  lemma WritesKeepSession(s: State, s': State, t: Thread, c: Conn)
    requires OnlyWrites(s, s', t, c)
    ensures SameSession(s, s')
  {
    assert s.conns.Keys + {c} == s.conns.Keys;
  }

  /** Whoever holds the lock can finish, and nobody else moves. */
  lemma FreeLock(cfg: Config, s: State) returns (ls: seq<Label>)
    requires Inv(cfg, s)
    ensures IsRun(cfg, s, ls)
    ensures var s' := After(cfg, s, ls);
            && s'.threads.lock.None? && SameSession(s, s')
            && (forall u :: u in s.threads.pcs && s.threads.lock != Some(u) ==>
                  u in s'.threads.pcs && s'.threads.pcs[u] == s.threads.pcs[u])
  {
    hide Inv, Enabled, Apply;
    if s.threads.lock.None? {
      ls := [];
    } else {
      var t := s.threads.lock.value;
      WriterCanFinish(cfg, s, t);
      ls := FinishWriter(cfg, s, t);
      WritesKeepSession(s, After(cfg, s, ls), t, s.threads.pcs[t].conn);
    }
  }

  /** The holder of the lock is in writeToSink, past the lock. */
  lemma WriterCanFinish(cfg: Config, s: State, t: Thread)
    requires Inv(cfg, s) && s.threads.lock == Some(t)
    ensures t in s.threads.pcs && s.threads.pcs[t].Writing? && s.threads.pcs[t].conn in s.conns
    ensures s.threads.pcs[t].phase != Waiting && (s.threads.pcs[t].phase == Committed ==> s.threads.pcs[t].frames != [])
  {
    hide LogInv, FreshInv;
    HolderCanFinish(s, t);
  }

  lemma HolderCanFinish(s: State, t: Thread)
    requires LockOk(s.threads) && PlaceInv(s) && FlowInv(s) && s.threads.lock == Some(t)
    ensures t in s.threads.pcs && s.threads.pcs[t].Writing? && s.threads.pcs[t].conn in s.conns
    ensures s.threads.pcs[t].phase != Waiting && (s.threads.pcs[t].phase == Committed ==> s.threads.pcs[t].frames != [])
  {
    var c := s.threads.pcs[t].conn;
    assert c in s.conns;
    assert FlowOk(s.threads.pcs, c, s.conns[c], s.core.link.sink == Some(c));
  }

  // ---- A new connection comes up

  ghost predicate NoOtherWriter(s: State, c: Conn) {
    forall t :: t in s.threads.pcs && t != Handler(c) && s.threads.pcs[t].Writing? ==> s.threads.pcs[t].conn != c
  }

  /** Connection `c` is current, greeted and not yet settled, and its handler may settle it. */
  ghost predicate Greeted(s: State, c: Conn) {
    && s.threads.lock.None? && CallsDeliver(s, Handler(c)) && Settles(s.core.link, c)
    && c in s.conns && !s.conns[c].failed && NoOtherWriter(s, c)
  }

  /** The events wait until the client's heartbeat. */
  lemma HoldAndPing(cfg: Config, s: State, c: Conn) returns (ls: seq<Label>)
    requires MayHold(s, c)
    ensures IsRun(cfg, s, ls)
    ensures var s' := After(cfg, s, ls);
            && s'.threads == Goto(s.threads, Handler(c), Pinged) && s'.conns == s.conns && s'.log == s.log
            && s'.core.mail == s.core.mail && Settles(s'.core.link, c) == Settles(s.core.link, c)
  {
    var s1 := Apply(cfg, s, LHold(c));
    FirstStep(cfg, s1, LPing(Handler(c)), []);
    FirstStep(cfg, s, LHold(c), [LPing(Handler(c))] + []);
    ls := [LHold(c)] + ([LPing(Handler(c))] + []);
  }

  lemma Greet(cfg: Config, s: State, c: Conn) returns (ls: seq<Label>)
    requires s.threads.lock.None? && c !in s.conns && NoOtherWriter(s, c)
    ensures IsRun(cfg, s, ls)
    ensures var s' := After(cfg, s, ls); Greeted(s', c) && s'.core.mail == s.core.mail && s'.log == s.log
  {
    var s1 := Apply(cfg, s, LAttach(c));
    var hello := WriteAll(cfg, s1, Handler(c));
    FirstStep(cfg, s, LAttach(c), hello);
    var s2 := After(cfg, s1, hello);
    if |s.core.mail.buffer| == 0 {
      ls := [LAttach(c)] + hello;
    } else {
      var ready := HoldAndPing(cfg, s2, c);
      assert s2 == After(cfg, s, [LAttach(c)] + hello);
      RunsCompose(cfg, s, [LAttach(c)] + hello, ready);
      ls := ([LAttach(c)] + hello) + ready;
    }
  }

  /** Connection `c` is current, settled, idle in its read loop, and sound. */
  ghost predicate UpAndIdle(s: State, c: Conn) {
    && s.threads.lock.None? && At(s, Handler(c), Ready) && s.core.link.sink == Some(c) && s.core.link.settled
    && c in s.conns && !s.conns[c].failed && NoOtherWriter(s, c)
  }

  lemma SettleUp(cfg: Config, s: State, c: Conn, ids: seq<string>) returns (ls: seq<Label>)
    requires Greeted(s, c) && |ids| == |s.core.mail.buffer| && NewIds(s.log, ids)
    ensures IsRun(cfg, s, ls)
    ensures var s' := After(cfg, s, ls);
            && UpAndIdle(s', c) && s'.core.mail.buffer == s.core.mail.buffer
            && s'.log == s.log.(stamps := RecordStamps(s.log.stamps, c, s.core.mail.buffer, ids))
  {
    var t := Handler(c);
    var batch := DeliverBatch(cfg, s, c, ids);
    var s2 := After(cfg, s, batch);
    FirstStep(cfg, s2, LNote(t), []);
    hide IsRun, After, RecordStamps, RecordIds;
    RunsCompose(cfg, s, batch, [LNote(t)] + []);
    ls := batch + ([LNote(t)] + []);
  }

  /** The connection settles and its batch is written. */
  lemma DeliverBatch(cfg: Config, s: State, c: Conn, ids: seq<string>) returns (ls: seq<Label>)
    requires Greeted(s, c) && |ids| == |s.core.mail.buffer| && NewIds(s.log, ids)
    ensures IsRun(cfg, s, ls)
    ensures var s' := After(cfg, s, ls);
            && At(s', Handler(c), Noting) && s'.core == Deliver(s.core, c, ids) && s'.threads.lock.None?
            && c in s'.conns && !s'.conns[c].failed && NoOtherWriter(s', c)
            && s'.log == s.log.(stamps := RecordStamps(s.log.stamps, c, s.core.mail.buffer, ids))
  {
    hide RecordStamps, RecordIds, StampAll;
    var t := Handler(c);
    var s1 := Apply(cfg, s, LDeliver(t, ids));
    var batch := WriteAll(cfg, s1, t);
    FirstStep(cfg, s, LDeliver(t, ids), batch);
    ls := [LDeliver(t, ids)] + batch;
  }

  // ---- Acknowledging everything

  lemma {:induction false} AckRun(cfg: Config, s: State, c: Conn, ids: seq<string>) returns (ls: seq<Label>)
    requires At(s, Handler(c), Ready)
    ensures IsRun(cfg, s, ls) && After(cfg, s, ls) == Acks(cfg, s, ids)
    ensures Acks(cfg, s, ids).threads == s.threads && Acks(cfg, s, ids).conns == s.conns
  {
    if ids == [] {
      ls := [];
    } else {
      var n := |ids| - 1;
      var first := AckRun(cfg, s, c, ids[..n]);
      var s1 := Acks(cfg, s, ids[..n]);
      var echo := EchoOf(ids[n]);
      FirstStep(cfg, s1, LAck(c, echo), []);
      RunsCompose(cfg, s, first, [LAck(c, echo)] + []);
      ls := first + ([LAck(c, echo)] + []);
    }
  }

  /** Acknowledging the ids of a whole batch empties the buffer. */
  lemma AcksEmptyTheBuffer(cfg: Config, s: State, c: Conn, before: Log, ids: seq<string>)
    requires LogInv(s) && |ids| == |s.core.mail.buffer| && NewIds(before, ids)
    requires s.log == before.(stamps := RecordStamps(before.stamps, c, s.core.mail.buffer, ids))
    ensures Acks(cfg, s, ids).core.mail.buffer == [] && Acks(cfg, s, ids).log.received == s.log.received
  {
    var s' := Acks(cfg, s, ids);
    RecordStampsFacts(before.stamps, c, s.core.mail.buffer, ids);
    AcksAccumulate(cfg, s, ids);
    hide RecordStamps, LiveIds;
    forall key: nat | key < |s.log.received| ensures key in s'.log.acked {
      if key !in s.log.acked {
        LogBufferComplete(s.log.received, s.log.acked, key);
        var i :| 0 <= i < |ids| && s.core.mail.buffer[i].key == key;
        assert ids[i] in ids && s.log.stamps[ids[i]].key == key;
      }
    }
    AllAckedIsEmpty(s'.log.received, s'.log.acked);
  }

  /** The continuation `ls` of `s` brings up connection `c`, delivers to it exactly once every event
      that was buffered, and ends with all of them acknowledged. */
  ghost predicate Recovers(cfg: Config, s: State, ls: seq<Label>, c: Conn) {
    && c !in s.conns && IsRun(cfg, s, ls)
    && var s' := After(cfg, s, ls);
       && s'.log.received == s.log.received && s'.core.mail.buffer == []
       && c in s'.conns && forall e :: e in s.core.mail.buffer ==> CarriedOnce(s'.conns[c].tried, e)
  }

  lemma UpIsDelivered(cfg: Config, s: State, c: Conn)
    requires Reachable(cfg, s) && UpAndIdle(s, c)
    ensures forall e :: e in s.core.mail.buffer ==> CarriedOnce(s.conns[c].tried, e)
  {
    hide Reachable, CarriedOnce;
    assert !Delivering(s, c);
    forall e | e in s.core.mail.buffer ensures CarriedOnce(s.conns[c].tried, e) {
      ExactlyOncePerSettledConnection(cfg, s, c, e);
    }
  }

  lemma FreeState(cfg: Config, s: State) returns (ls: seq<Label>, c: Conn)
    requires Reachable(cfg, s)
    ensures IsRun(cfg, s, ls) && c !in s.conns
    ensures var s' := After(cfg, s, ls);
            s'.threads.lock.None? && SameSession(s, s') && c !in s'.conns && NoOtherWriter(s', c)
  {
    hide Apply, Enabled, Reachable;
    ReachableInv(cfg, s);
    ls := FreeLock(cfg, s);
    c := NewConnection(s.conns.Keys);
    RunKeepsInv(cfg, s, ls);
    KnownConnections(After(cfg, s, ls));
  }

  /** The actor reconnects and its new connection settles. */
  lemma BringUp(cfg: Config, s: State) returns (ls: seq<Label>, c: Conn, ids: seq<string>)
    requires Reachable(cfg, s)
    ensures IsRun(cfg, s, ls) && c !in s.conns && |ids| == |s.core.mail.buffer| && NewIds(s.log, ids)
    ensures var s' := After(cfg, s, ls);
            && UpAndIdle(s', c) && s'.core.mail.buffer == s.core.mail.buffer
            && s'.log == s.log.(stamps := RecordStamps(s.log.stamps, c, s.core.mail.buffer, ids))
  {
    hide IsRun, After, Apply, Enabled, Reachable, NewIds, RecordStamps, NoOtherWriter;
    var ls1, d := FreeState(cfg, s);
    c := d;
    var s1 := After(cfg, s, ls1);
    var ls2 := Greet(cfg, s1, c);
    var s2 := After(cfg, s1, ls2);
    ids := EnoughIds(s2.log, |s2.core.mail.buffer|);
    var ls3 := SettleUp(cfg, s2, c, ids);
    RunsCompose(cfg, s1, ls2, ls3);
    RunsCompose(cfg, s, ls1, ls2 + ls3);
    ls := ls1 + (ls2 + ls3);
  }

  /** From every reachable state the actor can still reconnect, get everything and acknowledge it:
      no interleaving wedges the write lock, loses an event or leaves it undeliverable. */
  lemma EveryEventStaysDeliverable(cfg: Config, s: State)
    requires Reachable(cfg, s)
    ensures exists ls, c :: Recovers(cfg, s, ls, c)
  {
    hide IsRun, After, Apply, Enabled, Reachable, NewIds, RecordStamps, CarriedOnce, NoOtherWriter, LogInv;
    var up, c, ids := BringUp(cfg, s);
    var s1 := After(cfg, s, up);
    var acks := AckRun(cfg, s1, c, ids);
    RunsCompose(cfg, s, up, acks);
    ReachableRun(cfg, s, up);
    ReachableInv(cfg, s1);
    AcksEmptyTheBuffer(cfg, s1, c, s.log, ids);
    UpIsDelivered(cfg, s1, c);
    assert Recovers(cfg, s, up + acks, c);
  }

  // ---- The leak in the forward counter

  /** Suspending mid-send does happen: a forward outlives a disconnect, the actor reconnects. */
  lemma DecidesMidSendAfterDisconnect(cfg: Config)
    requires cfg.idleGrace > 0
    ensures exists s, l :: Reachable(cfg, s) && Enabled(cfg, s, l) && DecidesMidSend(s, l)
  {
    InitialReachable(cfg);
    var ls1 := Greet(cfg, INITIAL, 0);
    var s1 := After(cfg, INITIAL, ls1);
    var ls2 := SettleUp(cfg, s1, 0, []);
    var s2 := After(cfg, s1, ls2);
    ReachableRun(cfg, INITIAL, ls1);
    ReachableRun(cfg, s1, ls2);
    hide Reachable, IsRun, After;
    ReachableStep(cfg, s2, LBeginForward);
    var s3 := Apply(cfg, s2, LBeginForward);
    ReachableStep(cfg, s3, LDetach(0));
    var s4 := Apply(cfg, s3, LDetach(0));
    var ls, l := ShortCountDecidesMidSend(cfg, s4);
    ReachableRun(cfg, s4, ls);
  }

  // ---- Forwards cut off by a suspend

  /** The continuation `ls` of `s` leads to a suspend going through while a forward is outstanding. */
  ghost predicate CutsOffAfter(cfg: Config, s: State, ls: seq<Label>) {
    && IsRun(cfg, s, ls)
    && Enabled(cfg, After(cfg, s, ls), LSuspendReturns(true)) && CutsOff(After(cfg, s, ls), LSuspendReturns(true))
  }

  /** Without regard to disconnects: from every reachable state some continuation suspends the actor
      mid-send, if and only if idle suspend is on. */
  lemma SuspendsMidSendSomewhereIff(cfg: Config, s: State)
    requires Reachable(cfg, s)
    ensures cfg.idleGrace > 0 <==> exists ls :: CutsOffAfter(cfg, s, ls)
  {
    hide Reachable, IsRun, After, Apply, NewIds, RecordStamps, NoOtherWriter;
    if cfg.idleGrace <= 0 {
      forall ls ensures !CutsOffAfter(cfg, s, ls) {
        if IsRun(cfg, s, ls) {
          ReachableRun(cfg, s, ls);
          NoGraceNoSuspend(cfg, After(cfg, s, ls));
        }
      }
    } else {
      var up := ToAwakeState(cfg, s);
      var s1 := After(cfg, s, up);
      ReachableRun(cfg, s, up);
      ForwardAccounting(cfg, s1);
      var cut := CutOffRun(cfg, s1);
      RunsCompose(cfg, s, up, cut);
      assert CutsOffAfter(cfg, s, up + cut);
    }
  }

  /** A suspend that has gone through ends with a disconnect. */
  lemma ToAwakeState(cfg: Config, s: State) returns (ls: seq<Label>)
    requires Reachable(cfg, s)
    ensures IsRun(cfg, s, ls) && !AwaitsDetach(After(cfg, s, ls))
  {
    hide Reachable, NewIds, RecordStamps, NoOtherWriter;
    if !AwaitsDetach(s) {
      ls := [];
    } else {
      var up, c, ids := BringUp(cfg, s);
      var s1 := After(cfg, s, up);
      FirstStep(cfg, s1, LDetach(c), []);
      hide IsRun, After;
      RunsCompose(cfg, s, up, [LDetach(c)] + []);
      ls := up + ([LDetach(c)] + []);
    }
  }
}
