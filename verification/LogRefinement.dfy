/** The buffer and the id table of a session, refined to a log: in every reachable state they are
    functions of the received events, the stamps issued and the set of acknowledged events. */
module LogRefinement {
  import opened SocketMode
  import opened SessionCore
  import opened SessionMachine

  /** The received events in order, without the acknowledged ones. */
  function LogBuffer(received: seq<Raw>, acked: set<nat>): (b: seq<PendingEvent>)
    ensures forall i :: 0 <= i < |b| ==> b[i].key < |received| && b[i].key !in acked && b[i].raw == received[b[i].key]
    ensures forall i, j :: 0 <= i < j < |b| ==> b[i].key < b[j].key
  {
    if received == [] then []
    else
      var n := |received| - 1;
      LogBuffer(received[..n], acked) + (if n in acked then [] else [PendingEvent(n, received[n])])
  }

  /** The stamps whose event is not yet acknowledged. */
  function LiveIds(stamps: map<string, StampInfo>, acked: set<nat>): map<string, nat> {
    map id | id in stamps && stamps[id].key !in acked :: stamps[id].key
  }

  ghost predicate StampedFor(stamps: map<string, StampInfo>, key: nat) {
    exists id :: id in stamps && stamps[id].key == key
  }

  ghost predicate LogOk(k: Mailbox, log: Log) {
    && k.nextKey == |log.received|
    && k.buffer == LogBuffer(log.received, log.acked)
    && k.freshIds == LiveIds(log.stamps, log.acked)
    && "" !in log.stamps
    && (forall id :: id in log.stamps ==> log.stamps[id].key < k.nextKey)
    && (forall key :: key in log.acked ==> key < k.nextKey && StampedFor(log.stamps, key))
  }

  ghost predicate LogInv(s: State) {
    LogOk(s.core.mail, s.log)
  }

  // ---- The log under each change

  lemma LogBufferComplete(received: seq<Raw>, acked: set<nat>, key: nat)
    requires key < |received| && key !in acked
    ensures PendingEvent(key, received[key]) in LogBuffer(received, acked)
  {
    var n := |received| - 1;
    if key < n {
      LogBufferComplete(received[..n], acked, key);
    }
  }

  lemma AllAckedIsEmpty(received: seq<Raw>, acked: set<nat>)
    requires forall key: nat :: key < |received| ==> key in acked
    ensures LogBuffer(received, acked) == []
  {
  }

  lemma {:induction false} RemoveKeyIsAck(received: seq<Raw>, acked: set<nat>, key: nat)
    requires key < |received| && key !in acked
    ensures RemoveKey(LogBuffer(received, acked), key) == LogBuffer(received, acked + {key})
  {
    var n := |received| - 1;
    var b := LogBuffer(received[..n], acked);
    if key == n {
      RemoveAbsent(b, key);
      RemoveFromConcat(b, [PendingEvent(n, received[n])], key);
      AckAbove(received[..n], acked, key);
    } else {
      RemoveKeyIsAck(received[..n], acked, key);
      var tail := if n in acked then [] else [PendingEvent(n, received[n])];
      LogBufferComplete(received[..n], acked, key);
      RemoveFromConcat(b, tail, key);
    }
  }

  lemma RemoveAbsent(es: seq<PendingEvent>, key: nat)
    requires forall i :: 0 <= i < |es| ==> es[i].key != key
    ensures RemoveKey(es, key) == es
  {
  }

  lemma {:induction false} RemoveFromConcat(es: seq<PendingEvent>, tail: seq<PendingEvent>, key: nat)
    ensures RemoveKey(es + tail, key)
            == if exists i :: 0 <= i < |es| && es[i].key == key
               then RemoveKey(es, key) + tail else es + RemoveKey(tail, key)
  {
    if es == [] {
      assert es + tail == tail;
    } else {
      assert (es + tail)[1..] == es[1..] + tail;
      RemoveFromConcat(es[1..], tail, key);
      if es[0].key != key {
        assert forall i :: 0 <= i < |es[1..]| ==> es[1..][i] == es[i + 1];
        assert (exists i :: 0 <= i < |es| && es[i].key == key)
          ==> exists i :: 0 <= i < |es[1..]| && es[1..][i].key == key by {
          if i :| 0 <= i < |es| && es[i].key == key {
            assert es[1..][i - 1].key == key;
          }
        }
      }
    }
  }

  /** Acknowledging a key beyond the log leaves the log alone. */
  lemma AckAbove(received: seq<Raw>, acked: set<nat>, key: nat)
    requires |received| <= key
    ensures LogBuffer(received, acked + {key}) == LogBuffer(received, acked)
  {
  }

  lemma LogAppend(received: seq<Raw>, acked: set<nat>, raw: Raw)
    requires |received| !in acked
    ensures LogBuffer(received + [raw], acked)
            == LogBuffer(received, acked) + [PendingEvent(|received|, raw)]
  {
    assert (received + [raw])[..|received|] == received;
  }

  /** The stamps of a delivery touch only the new ids, one for each event. */
  lemma {:induction false} RecordStampsFacts(stamps: map<string, StampInfo>, c: Conn,
                                             es: seq<PendingEvent>, ids: seq<string>)
    requires |es| == |ids|
    requires forall i :: 0 <= i < |ids| ==> ids[i] !in stamps
    requires forall i, j :: 0 <= i < j < |ids| ==> ids[i] != ids[j]
    ensures forall id :: id in RecordStamps(stamps, c, es, ids) <==> id in stamps || id in ids
    ensures forall id :: id in stamps ==> RecordStamps(stamps, c, es, ids)[id] == stamps[id]
    ensures forall i :: 0 <= i < |ids| ==> RecordStamps(stamps, c, es, ids)[ids[i]] == StampInfo(c, es[i].key)
  {
    if es != [] {
      var n := |es| - 1;
      RecordStampsFacts(stamps, c, es[..n], ids[..n]);
      assert ids == ids[..n] + [ids[n]];
    }
  }

  /** The id table follows the stamps of a delivery of unacknowledged events. */
  lemma {:induction false} RecordIdsFollow(m: map<string, nat>, stamps: map<string, StampInfo>, acked: set<nat>,
                                           c: Conn, es: seq<PendingEvent>, ids: seq<string>)
    requires |es| == |ids|
    requires m == LiveIds(stamps, acked)
    requires forall i :: 0 <= i < |es| ==> es[i].key !in acked
    ensures RecordIds(m, es, ids) == LiveIds(RecordStamps(stamps, c, es, ids), acked)
  {
    if es != [] {
      var n := |es| - 1;
      RecordIdsFollow(m, stamps, acked, c, es[..n], ids[..n]);
    }
  }

  // ---- Every step keeps the refinement

  lemma StampsOnlyGrow(k: Mailbox, log: Log, stamps': map<string, StampInfo>)
    requires LogOk(k, log)
    requires forall id :: id in log.stamps ==> id in stamps' && stamps'[id] == log.stamps[id]
    ensures forall key :: key in log.acked ==> StampedFor(stamps', key)
  {
    forall key | key in log.acked ensures StampedFor(stamps', key) {
      var i :| i in log.stamps && log.stamps[i].key == key;
      assert i in stamps' && stamps'[i].key == key;
    }
  }

  lemma ReceiveKeepsLog(k: Mailbox, log: Log, raw: Raw)
    requires LogOk(k, log)
    ensures LogOk(Receive(k, raw), log.(received := log.received + [raw]))
  {
    LogAppend(log.received, log.acked, raw);
  }

  lemma ReceiveLiveKeepsLog(k: Mailbox, log: Log, raw: Raw, id: string, c: Conn)
    requires LogOk(k, log) && NewId(log, id)
    ensures LogOk(ReceiveLive(k, raw, id),
                  log.(received := log.received + [raw], stamps := log.stamps[id := StampInfo(c, k.nextKey)]))
  {
    LogAppend(log.received, log.acked, raw);
    var stamps' := log.stamps[id := StampInfo(c, k.nextKey)];
    StampsOnlyGrow(k, log, stamps');
    assert k.freshIds[id := k.nextKey] == LiveIds(stamps', log.acked);
  }

  lemma SettleKeepsLog(k: Mailbox, log: Log, c: Conn, ids: seq<string>)
    requires LogOk(k, log) && |ids| == |k.buffer| && NewIds(log, ids)
    ensures LogOk(k.(freshIds := RecordIds(k.freshIds, k.buffer, ids)),
                  log.(stamps := RecordStamps(log.stamps, c, k.buffer, ids)))
  {
    RecordStampsFacts(log.stamps, c, k.buffer, ids);
    RecordIdsFollow(k.freshIds, log.stamps, log.acked, c, k.buffer, ids);
    var stamps' := RecordStamps(log.stamps, c, k.buffer, ids);
    StampsOnlyGrow(k, log, stamps');
    forall id | id in stamps' ensures id != "" && stamps'[id].key < k.nextKey {
      if id !in log.stamps {
        var i :| 0 <= i < |ids| && ids[i] == id;
      }
    }
  }

  lemma DropKeepsLog(k: Mailbox, log: Log, id: string)
    requires LogOk(k, log) && id in k.freshIds
    ensures LogOk(Drop(k, k.freshIds[id]), log.(acked := log.acked + {k.freshIds[id]}))
  {
    var key := k.freshIds[id];
    RemoveKeyIsAck(log.received, log.acked, key);
    assert WithoutKey(LiveIds(log.stamps, log.acked), key) == LiveIds(log.stamps, log.acked + {key});
    assert StampedFor(log.stamps, key);
  }

  lemma StepKeepsLog(cfg: Config, s: State, l: Label)
    requires LogInv(s) && Enabled(cfg, s, l)
    ensures LogInv(Apply(cfg, s, l))
  {
    hide LogOk;
    match l
    case LEvent(raw, id) =>
      if DeliversLive(s.core.link) {
        ReceiveLiveKeepsLog(s.core.mail, s.log, raw, id, s.core.link.sink.value);
      } else {
        ReceiveKeepsLog(s.core.mail, s.log, raw);
      }
    case LDeliver(t, ids) =>
      if Settles(s.core.link, ConnOf(t)) {
        SettleKeepsLog(s.core.mail, s.log, ConnOf(t), ids);
      }
    case LAck(_, raw) =>
      if KnowsId(s.core.mail, AckedId(raw)) {
        DropKeepsLog(s.core.mail, s.log, AckedId(raw));
      }
    case _ =>
      assert Apply(cfg, s, l).core.mail == s.core.mail && Apply(cfg, s, l).log == s.log;
  }
}
