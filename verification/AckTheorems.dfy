/** Acknowledgement over every run of one session: the buffer is the log minus the acknowledged
    events, an ack removes exactly the event its id was minted for, and acks commute. */
module AckTheorems {
  import opened SocketMode
  import opened SessionCore
  import opened SessionMachine
  import opened LogRefinement
  import opened Placement
  import opened Delivery
  import opened Content
  import opened SessionInvariant
  import DeliveryTheorems

  // ---- The log

  /** In every reachable state the mailbox is the received history minus the acknowledged events,
      and the id table is the stamp history minus the same. */
  lemma MailboxIsLog(cfg: Config, s: State)
    requires Reachable(cfg, s)
    ensures s.core.mail == Mailbox(LogBuffer(s.log.received, s.log.acked), |s.log.received|,
                                   LiveIds(s.log.stamps, s.log.acked))
    ensures s.core.mail.buffer == [] ==> s.core.mail.freshIds == map[]
  {
    ReachableInv(cfg, s);
    if s.core.mail.buffer == [] {
      forall id | id in s.core.mail.freshIds ensures false {
        LogBufferComplete(s.log.received, s.log.acked, s.log.stamps[id].key);
      }
    }
  }

  /** No two ids are ever minted for the same event on the same connection. */
  lemma StampsAreUnique(cfg: Config, s: State, id1: string, id2: string)
    requires Reachable(cfg, s) && id1 in s.log.stamps && id2 in s.log.stamps
    ensures s.log.stamps[id1] == s.log.stamps[id2] <==> id1 == id2
  {
    ReachableInv(cfg, s);
    hide Reachable, LogInv, PlaceInv, FreshInv, FlowInv, ContentInv;
    if s.log.stamps[id1] == s.log.stamps[id2] {
      SameStampSameId(s, id1, id2);
    }
  }

  lemma SameStampSameId(s: State, id1: string, id2: string)
    requires ContentInv(s) && FlowInv(s)
    requires id1 in s.log.stamps && id2 in s.log.stamps && s.log.stamps[id1] == s.log.stamps[id2]
    ensures id1 == id2
  {
    hide TrueFrame;
    var c, key := s.log.stamps[id1].conn, s.log.stamps[id1].key;
    var h := s.conns[c];
    assert HasFrame(h, id1, key) && HasFrame(h, id2, key);
    var f1 :| StampedOn(h, f1) && f1.Event? && f1.id == id1 && f1.key == key;
    var f2 :| StampedOn(h, f2) && f2.Event? && f2.id == id2 && f2.key == key;
    SameKeySameFrame(h, s.core.mail.nextKey, f1, f2);
  }

  lemma SameKeySameFrame(h: ConnLog, nextKey: nat, f1: Frame, f2: Frame)
    requires KeysOk(h, nextKey) && StampedOn(h, f1) && StampedOn(h, f2)
    requires f1.Event? && f2.Event? && f1.key == f2.key
    ensures f1 == f2
  {
  }

  /** Ids that differ in the event for a fixed connection are no more than the events. */
  lemma {:induction false} IdsPerConnection(ids: set<string>, stamps: map<string, StampInfo>, keys: set<nat>)
    requires forall id :: id in ids ==> id in stamps && stamps[id].key in keys
    requires forall i, j :: i in ids && j in ids && stamps[i].key == stamps[j].key ==> i == j
    ensures |ids| <= |keys|
  {
    if ids != {} {
      var id :| id in ids;
      IdsPerConnection(ids - {id}, stamps, keys - {stamps[id].key});
    }
  }

  lemma {:induction false} IdsBound(ids: set<string>, stamps: map<string, StampInfo>, conns: set<Conn>, keys: set<nat>)
    requires forall id :: id in ids ==> id in stamps && stamps[id].conn in conns && stamps[id].key in keys
    requires forall i, j :: i in ids && j in ids && stamps[i] == stamps[j] ==> i == j
    ensures |ids| <= |keys| * |conns|
    decreases |conns|
  {
    if conns == {} {
      assert ids == {};
    } else {
      var c :| c in conns;
      var here := set id | id in ids && stamps[id].conn == c;
      forall i, j | i in here && j in here && stamps[i].key == stamps[j].key ensures i == j {
        assert stamps[i] == stamps[j];
      }
      IdsPerConnection(here, stamps, keys);
      IdsBound(ids - here, stamps, conns - {c}, keys);
      assert |ids| == |ids - here| + |here|;
      assert |keys| * |conns| == |keys| * (|conns| - 1) + |keys|;
    }
  }

  function KeysOf(es: seq<PendingEvent>): (keys: set<nat>)
    ensures |keys| <= |es|
    ensures forall e :: e in es ==> e.key in keys
  {
    if es == [] then {} else
      assert es == [es[0]] + es[1..];
      {es[0].key} + KeysOf(es[1..])
  }

  /** The id table cannot outgrow the buffer by more than the number of attaches. */
  lemma IdTableIsBounded(cfg: Config, s: State)
    requires Reachable(cfg, s)
    ensures |s.core.mail.freshIds| <= |s.core.mail.buffer| * |s.conns|
  {
    ReachableInv(cfg, s);
    var ids, keys := s.core.mail.freshIds.Keys, KeysOf(s.core.mail.buffer);
    hide Reachable, FlowInv, PlaceInv, FreshInv, FramesTrue;
    forall id | id in ids
      ensures id in s.log.stamps && s.log.stamps[id].conn in s.conns.Keys && s.log.stamps[id].key in keys
    {
      LogBufferComplete(s.log.received, s.log.acked, s.log.stamps[id].key);
    }
    forall i, j | i in ids && j in ids && s.log.stamps[i] == s.log.stamps[j] ensures i == j {
      SameStampSameId(s, i, j);
    }
    IdsBound(ids, s.log.stamps, s.conns.Keys, keys);
    assert |ids| == |s.core.mail.freshIds| && |s.conns.Keys| == |s.conns|;
    Monotone(|keys|, |s.core.mail.buffer|, |s.conns|);
  }

  lemma Monotone(a: nat, b: nat, n: nat)
    requires a <= b
    ensures a * n <= b * n
  {
  }

  // ---- Attribution

  lemma {:induction false} TriedIsStamped(h: ConnLog, f: Frame)
    requires ShapeOk(h) && f in h.tried && f.Event?
    ensures StampedOn(h, f)
  {
    var i :| 0 <= i < |h.tried| && h.tried[i] == f;
    DeliveryTheorems.TriedAt(h, i);
  }

  /** Echoing the envelope id of any frame ever attempted, on any connection, current or past,
      removes exactly the event that frame carried, or changes nothing if it was acknowledged
      before. */
  lemma AckRemovesItsEvent(cfg: Config, s: State, c: Conn, f: Frame)
    requires Reachable(cfg, s) && c in s.conns && f in s.conns[c].tried && f.Event?
    ensures f.out.Sent? && DecodeEnvelope(f.out.raw).Ok? && f.key < |s.log.received|
    ensures DeliveryTheorems.Carries(f, PendingEvent(f.key, s.log.received[f.key]))
    ensures var s' := Ack'(cfg, s, DecodeEnvelope(f.out.raw).value.envelopeId);
            && (f.key in s.log.acked ==> s' == s)
            && (f.key !in s.log.acked ==> PendingEvent(f.key, s.log.received[f.key]) in s.core.mail.buffer)
            && s'.core.mail.buffer == LogBuffer(s.log.received, s.log.acked + {f.key})
            && s'.core.mail.freshIds == LiveIds(s.log.stamps, s.log.acked + {f.key})
  {
    ReachableInv(cfg, s);
    DeliveryTheorems.ConnectionFacts(cfg, s, c);
    TriedIsStamped(s.conns[c], f);
    assert TrueFrame(f, c, s.log);
    DeliveryTheorems.TrueFrameCarries(f, c, s.log, PendingEvent(f.key, s.log.received[f.key]));
    AckOfTrueFrame(cfg, s, c, f);
  }

  /** The frame an actor sends to acknowledge `id`. */
  function EchoOf(id: string): (raw: Raw)
    ensures AckedId(raw) == id
  {
    var m := map["envelope_id" := Str(id)];
    DecodeOutcomes(Text(Obj(m)));
    Text(Obj(m))
  }

  /** Only a decodable object with a string at envelope_id acknowledges anything. */
  lemma AckedIdIs(raw: Raw)
    ensures AckedId(raw) ==
            if raw.Text? && raw.value.Obj? && Decodable(raw.value.members)
            then TextAt(raw.value.members, "envelope_id") else ""
  {
    DecodeOutcomes(raw);
  }

  /** Any socket will do: whichever handler reads a frame that echoes the envelope id of a frame ever
      attempted, the step leaves the mailbox without exactly the event that frame carried. */
  lemma AckFromAnySocket(cfg: Config, s: State, c: Conn, f: Frame, d: Conn, raw: Raw)
    requires Reachable(cfg, s) && c in s.conns && f in s.conns[c].tried && f.Event?
    requires At(s, Handler(d), Ready) && raw.Text? && raw.value.Obj? && Decodable(raw.value.members)
    requires f.out.Sent? && f.out.raw.Text? && f.out.raw.value.Obj?
    requires TextAt(raw.value.members, "envelope_id") == TextAt(f.out.raw.value.members, "envelope_id")
    ensures Enabled(cfg, s, LAck(d, raw))
    ensures var mail := Apply(cfg, s, LAck(d, raw)).core.mail;
            && mail.buffer == LogBuffer(s.log.received, s.log.acked + {f.key})
            && mail.freshIds == LiveIds(s.log.stamps, s.log.acked + {f.key})
  {
    AckRemovesItsEvent(cfg, s, c, f);
    AckedIdIs(raw);
    AckedIdIs(f.out.raw);
    DecodeOutcomes(f.out.raw);
    hide Reachable, LogBuffer, LiveIds, Ack', DecodeEnvelope;
  }

  lemma AckOfTrueFrame(cfg: Config, s: State, c: Conn, f: Frame)
    requires LogInv(s) && EventsOnly(s.log.received) && TrueFrame(f, c, s.log)
    ensures f.out.Sent? && DecodeEnvelope(f.out.raw).Ok? && DecodeEnvelope(f.out.raw).value.envelopeId == f.id
    ensures var s' := Ack'(cfg, s, f.id);
            && (f.key in s.log.acked ==> s' == s)
            && (f.key !in s.log.acked ==> PendingEvent(f.key, s.log.received[f.key]) in s.core.mail.buffer)
            && s'.core.mail.buffer == LogBuffer(s.log.received, s.log.acked + {f.key})
            && s'.core.mail.freshIds == LiveIds(s.log.stamps, s.log.acked + {f.key})
  {
    RewritePreservesMeaning(s.log.received[f.key], f.id);
    hide RewriteEnvelopeId, DecodeEnvelope, IsEventFrame;
    if f.key in s.log.acked {
      assert s.log.acked + {f.key} == s.log.acked;
    } else {
      LogBufferComplete(s.log.received, s.log.acked, f.key);
      StepOfAck(cfg, s, f.id);
    }
  }

  lemma StepOfAck(cfg: Config, s: State, id: string)
    requires LogInv(s)
    ensures LogInv(Ack'(cfg, s, id))
    ensures Ack'(cfg, s, id).log.received == s.log.received && Ack'(cfg, s, id).log.stamps == s.log.stamps
    ensures Ack'(cfg, s, id).log.acked
            == s.log.acked + (if id in s.log.stamps then {s.log.stamps[id].key} else {})
  {
    if KnowsId(s.core.mail, id) {
      DropKeepsLog(s.core.mail, s.log, id);
    }
  }

  // ---- Confluence

  /** A burst of acks, in order. */
  function Acks(cfg: Config, s: State, ids: seq<string>): State {
    if ids == [] then s else Ack'(cfg, Acks(cfg, s, ids[..|ids| - 1]), ids[|ids| - 1])
  }

  /** The events a burst of acks speaks for; unknown ids speak for none. */
  function AckedBy(stamps: map<string, StampInfo>, ids: seq<string>): set<nat> {
    set id | id in ids && id in stamps :: stamps[id].key
  }

  lemma {:induction false} AcksAccumulate(cfg: Config, s: State, ids: seq<string>)
    requires LogInv(s)
    ensures var s' := Acks(cfg, s, ids);
            && LogInv(s') && s'.log.received == s.log.received && s'.log.stamps == s.log.stamps
            && s'.log.acked == s.log.acked + AckedBy(s.log.stamps, ids)
  {
    hide LogOk;
    if ids != [] {
      var n := |ids| - 1;
      AcksAccumulate(cfg, s, ids[..n]);
      StepOfAck(cfg, Acks(cfg, s, ids[..n]), ids[n]);
      assert ids == ids[..n] + [ids[n]];
      assert AckedBy(s.log.stamps, ids) == AckedBy(s.log.stamps, ids[..n])
        + (if ids[n] in s.log.stamps then {s.log.stamps[ids[n]].key} else {});
    }
  }

  /** The final buffer and id table depend only on which events were acknowledged: not on order,
      repetition, unknown ids, or which of an event's ids was echoed. */
  lemma AcksAreConfluent(cfg: Config, s: State, ids: seq<string>, others: seq<string>)
    requires Reachable(cfg, s)
    requires AckedBy(s.log.stamps, ids) == AckedBy(s.log.stamps, others)
    ensures Acks(cfg, s, ids).core.mail == Acks(cfg, s, others).core.mail
  {
    ReachableInv(cfg, s);
    hide Reachable, FlowInv, PlaceInv, FreshInv, ContentInv;
    AcksAccumulate(cfg, s, ids);
    AcksAccumulate(cfg, s, others);
  }
}
