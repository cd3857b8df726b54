/** What the frames carry: every frame stamped for a connection carries the received event its key
    names, every id minted belongs to exactly one such frame, and a settled connection has a frame
    for every event still buffered. */
module Content {
  import opened Wrappers
  import opened SocketMode
  import opened SessionCore
  import opened SessionMachine
  import opened LogRefinement
  import opened Placement
  import opened Delivery

  predicate StampedOn(h: ConnLog, f: Frame) {
    f in h.batch || f in h.live
  }

  /** The frame carries the received event of its key, under an id minted for this delivery. */
  predicate TrueFrame(f: Frame, c: Conn, log: Log) {
    && f.Event? && f.key < |log.received|
    && f == Stamp(PendingEvent(f.key, log.received[f.key]), f.id)
    && f.id in log.stamps && log.stamps[f.id] == StampInfo(c, f.key)
  }

  ghost predicate FramesTrue(conns: Conns, log: Log) {
    forall c, f :: c in conns && StampedOn(conns[c], f) ==> TrueFrame(f, c, log)
  }

  ghost predicate HasFrame(h: ConnLog, id: string, key: nat) {
    exists f :: StampedOn(h, f) && f.Event? && f.id == id && f.key == key
  }

  ghost predicate StampsTrue(conns: Conns, log: Log) {
    forall id :: id in log.stamps ==>
      log.stamps[id].conn in conns && HasFrame(conns[log.stamps[id].conn], id, log.stamps[id].key)
  }

  ghost predicate HasKey(h: ConnLog, key: nat) {
    exists f :: StampedOn(h, f) && f.Event? && f.key == key
  }

  ghost predicate Covers(h: ConnLog, buffer: seq<PendingEvent>) {
    forall i :: 0 <= i < |buffer| ==> HasKey(h, buffer[i].key)
  }

  ghost predicate ContentInv(s: State) {
    && FramesTrue(s.conns, s.log)
    && StampsTrue(s.conns, s.log)
    && (s.core.link.sink.Some? && s.core.link.settled ==>
          s.core.link.sink.value in s.conns && Covers(s.conns[s.core.link.sink.value], s.core.mail.buffer))
  }

  // ---- Changes to the log and to one connection

  /** Stamps and received events only grow. */
  ghost predicate Extends(log: Log, log': Log) {
    && log.received <= log'.received
    && (forall id :: id in log.stamps ==> id in log'.stamps && log'.stamps[id] == log.stamps[id])
  }

  ghost predicate Among(fs: seq<Frame>, id: string, key: nat) {
    exists f :: f in fs && f.Event? && f.id == id && f.key == key
  }

  /** Connection `c` gains exactly the frames `fs`, all true. */
  lemma GainFrames(conns: Conns, log: Log, log': Log, c: Conn, h: ConnLog, fs: seq<Frame>)
    requires FramesTrue(conns, log) && StampsTrue(conns, log) && Extends(log, log')
    requires forall f :: StampedOn(h, f) ==> f in fs || (c in conns && StampedOn(conns[c], f))
    requires c in conns ==> forall f :: StampedOn(conns[c], f) ==> StampedOn(h, f)
    requires forall f :: f in fs ==> StampedOn(h, f) && TrueFrame(f, c, log')
    requires forall id :: id in log'.stamps && id !in log.stamps ==>
               log'.stamps[id].conn == c && Among(fs, id, log'.stamps[id].key)
    ensures FramesTrue(conns[c := h], log') && StampsTrue(conns[c := h], log')
  {
    forall d, f | d in conns[c := h] && StampedOn(conns[c := h][d], f)
      ensures TrueFrame(f, d, log')
    {
      if f !in fs || d != c {
        assert TrueFrame(f, d, log);
      }
    }
    forall id | id in log'.stamps
      ensures log'.stamps[id].conn in conns[c := h]
      ensures HasFrame(conns[c := h][log'.stamps[id].conn], id, log'.stamps[id].key)
    {
      if id in log.stamps {
        var f :| StampedOn(conns[log.stamps[id].conn], f) && f.Event? && f.id == id && f.key == log.stamps[id].key;
        assert StampedOn(conns[c := h][log.stamps[id].conn], f);
      } else {
        var f :| f in fs && f.Event? && f.id == id && f.key == log'.stamps[id].key;
        assert StampedOn(h, f);
      }
    }
  }

  lemma CoversMore(h: ConnLog, h': ConnLog, buffer: seq<PendingEvent>)
    requires Covers(h, buffer) && forall f :: StampedOn(h, f) ==> StampedOn(h', f)
    ensures Covers(h', buffer)
  {
    hide StampedOn;
    forall i | 0 <= i < |buffer| ensures HasKey(h', buffer[i].key) {
      assert HasKey(h, buffer[i].key);
      var f :| StampedOn(h, f) && f.Event? && f.key == buffer[i].key;
      assert StampedOn(h', f);
    }
  }

  lemma EventLiveKeepsContent(s: State, raw: Raw, id: string, c: Conn)
    requires ContentInv(s) && LogInv(s) && NewId(s.log, id)
    requires DeliversLive(s.core.link) && s.core.link.sink == Some(c)
    ensures ContentInv(EventLive(s, raw, id, c))
  {
    hide RewriteEnvelopeId, LogBuffer;
    var s', h := EventLive(s, raw, id, c), s.conns[c];
    var n := s.core.mail.nextKey;
    var f := Stamp(PendingEvent(n, raw), id);
    var h' := h.(live := h.live + [f]);
    assert s'.log.received[n] == raw;
    assert f in [f];
    GainFrames(s.conns, s.log, s'.log, c, h', [f]);
    CoversMore(h, h', s.core.mail.buffer);
    assert StampedOn(h', f);
    assert HasKey(h', n);
  }

  /** The frames of a batch are true. */
  lemma BatchIsTrue(k: Mailbox, log: Log, c: Conn, ids: seq<string>, i: nat)
    requires LogOk(k, log) && |ids| == |k.buffer| && NewIds(log, ids) && i < |ids|
    ensures TrueFrame(StampAll(k.buffer, ids)[i], c, log.(stamps := RecordStamps(log.stamps, c, k.buffer, ids)))
  {
    hide RewriteEnvelopeId, RecordStamps, RecordIds, LiveIds;
    RecordStampsFacts(log.stamps, c, k.buffer, ids);
  }

  /** A batch accounts for every id it mints. */
  lemma BatchIdsHaveFrames(log: Log, c: Conn, es: seq<PendingEvent>, ids: seq<string>)
    requires |ids| == |es| && NewIds(log, ids)
    ensures var log', fs := log.(stamps := RecordStamps(log.stamps, c, es, ids)), StampAll(es, ids);
            && Extends(log, log')
            && (forall id :: id in log'.stamps && id !in log.stamps ==>
                  log'.stamps[id].conn == c && Among(fs, id, log'.stamps[id].key))
  {
    hide RewriteEnvelopeId, RecordStamps;
    RecordStampsFacts(log.stamps, c, es, ids);
    var log', fs := log.(stamps := RecordStamps(log.stamps, c, es, ids)), StampAll(es, ids);
    forall id | id in log'.stamps && id !in log.stamps
      ensures log'.stamps[id].conn == c && Among(fs, id, log'.stamps[id].key)
    {
      var i :| 0 <= i < |ids| && ids[i] == id;
      assert fs[i] in fs;
    }
  }

  lemma BatchCovers(h: ConnLog, es: seq<PendingEvent>, ids: seq<string>)
    requires |es| == |ids| && h.batch == StampAll(es, ids)
    ensures Covers(h, es)
  {
    hide RewriteEnvelopeId;
    forall i | 0 <= i < |es| ensures HasKey(h, es[i].key) {
      assert StampedOn(h, h.batch[i]);
    }
  }

  /** A connection without frames gains those of a batch. */
  lemma GainBatch(conns: Conns, k: Mailbox, log: Log, c: Conn, h: ConnLog, ids: seq<string>)
    requires FramesTrue(conns, log) && StampsTrue(conns, log) && LogOk(k, log)
    requires |ids| == |k.buffer| && NewIds(log, ids) && (c in conns ==> |conns[c].batch| == |conns[c].live| == 0)
    requires h.batch == StampAll(k.buffer, ids) && h.live == []
    ensures var log' := log.(stamps := RecordStamps(log.stamps, c, k.buffer, ids));
            FramesTrue(conns[c := h], log') && StampsTrue(conns[c := h], log')
  {
    var log', fs := log.(stamps := RecordStamps(log.stamps, c, k.buffer, ids)), StampAll(k.buffer, ids);
    assert forall f :: StampedOn(h, f) <==> f in fs;
    assert c in conns ==> forall f :: !StampedOn(conns[c], f);
    hide LogOk, StampAll, RecordStamps, NewIds, TrueFrame, FramesTrue, StampsTrue, StampedOn;
    forall f | f in fs ensures TrueFrame(f, c, log') {
      var i :| 0 <= i < |fs| && fs[i] == f;
      BatchIsTrue(k, log, c, ids, i);
    }
    BatchIdsHaveFrames(log, c, k.buffer, ids);
    GainFrames(conns, log, log', c, h, fs);
  }

  lemma SettleKeepsContent(s: State, t: Thread, c: Conn, ids: seq<string>)
    requires ContentInv(s) && LogInv(s) && Settles(s.core.link, c) && c in s.conns
    requires |s.conns[c].batch| == |s.conns[c].live| == 0 && |ids| == |s.core.mail.buffer| && NewIds(s.log, ids)
    ensures ContentInv(Settle(s, t, c, ids))
  {
    hide LogOk, StampAll, RecordStamps, RecordIds, NewIds, FramesTrue, StampsTrue, Covers;
    var h' := s.conns[c].(settler := Some(t), batch := StampAll(s.core.mail.buffer, ids));
    GainBatch(s.conns, s.core.mail, s.log, c, h', ids);
    BatchCovers(h', s.core.mail.buffer, ids);
  }

  lemma WriteKeepsContent(s: State, t: Thread, ok: bool)
    requires ContentInv(s) && InPhase(s, t, Committed) && s.threads.pcs[t].frames != []
    requires s.threads.pcs[t].conn in s.conns
    ensures ContentInv(Write'(s, t, ok))
  {
    hide TrueFrame;
    var s', c := Write'(s, t, ok), s.threads.pcs[t].conn;
    assert forall f :: StampedOn(s'.conns[c], f) <==> StampedOn(s.conns[c], f);
    GainFrames(s.conns, s.log, s.log, c, s'.conns[c], []);
    if s.core.link.sink == Some(c) && s.core.link.settled {
      CoversMore(s.conns[c], s'.conns[c], s.core.mail.buffer);
    }
  }

  lemma AttachKeepsContent(s: State, c: Conn)
    requires ContentInv(s) && c !in s.conns
    ensures ContentInv(Attach'(s, c))
  {
    hide TrueFrame;
    assert forall f :: !StampedOn(NEW_CONN, f);
    GainFrames(s.conns, s.log, s.log, c, NEW_CONN, []);
  }

  lemma EventHeldKeepsContent(s: State, raw: Raw, id: string)
    requires ContentInv(s) && !DeliversLive(s.core.link)
    ensures ContentInv(EventHeld(s, raw, id))
  {
    var log' := EventHeld(s, raw, id).log;
    forall c, f | c in s.conns && StampedOn(s.conns[c], f) ensures TrueFrame(f, c, log') {
      assert TrueFrame(f, c, s.log);
      assert log'.received[f.key] == s.log.received[f.key];
    }
  }

  lemma {:induction false} RemoveKeySubset(es: seq<PendingEvent>, key: nat)
    ensures forall e :: e in RemoveKey(es, key) ==> e in es
  {
    if es != [] && es[0].key != key {
      RemoveKeySubset(es[1..], key);
    }
  }

  lemma AckKeepsContent(cfg: Config, s: State, id: string)
    requires ContentInv(s)
    ensures ContentInv(Ack'(cfg, s, id))
  {
    if KnowsId(s.core.mail, id) {
      var buffer := s.core.mail.buffer;
      var buffer' := RemoveKey(buffer, s.core.mail.freshIds[id]);
      RemoveKeySubset(buffer, s.core.mail.freshIds[id]);
      assert forall i :: 0 <= i < |buffer'| ==> buffer'[i] in buffer;
    }
  }

  /** The steps that stamp, write and acknowledge nothing. */
  lemma OtherStepsKeepContent(cfg: Config, s: State, l: Label)
    requires ContentInv(s) && Enabled(cfg, s, l)
    requires !l.LEvent? && !l.LAttach? && !l.LWrite? && !l.LDeliver? && !l.LAck?
    ensures ContentInv(Apply(cfg, s, l))
  {
    hide FramesTrue, StampsTrue, Covers;
    var s' := Apply(cfg, s, l);
    assert s'.conns == s.conns && s'.log == s.log && s'.core.mail == s.core.mail;
    assert s'.core.link.settled ==> s.core.link.settled && s'.core.link.sink == s.core.link.sink;
  }

  lemma StepKeepsContent(cfg: Config, s: State, l: Label)
    requires ContentInv(s) && LogInv(s) && PlaceInv(s) && FlowInv(s) && Enabled(cfg, s, l)
    ensures ContentInv(Apply(cfg, s, l))
  {
    hide FramesTrue, StampsTrue, Covers, LogOk, FlowsOk, KeysOk, RewriteEnvelopeId, StampAll, RecordIds, RecordStamps;
    match l
    case LEvent(raw, id) =>
      if DeliversLive(s.core.link) {
        EventLiveKeepsContent(s, raw, id, s.core.link.sink.value);
      } else {
        EventHeldKeepsContent(s, raw, id);
      }
    case LAttach(c) => AttachKeepsContent(s, c);
    case LWrite(t, ok) => WriteKeepsContent(s, t, ok);
    case LDeliver(t, ids) =>
      if Settles(s.core.link, ConnOf(t)) {
        SettleKeepsContent(s, t, ConnOf(t), ids);
      }
    case LAck(_, raw) => AckKeepsContent(cfg, s, AckedId(raw));
    case _ => OtherStepsKeepContent(cfg, s, l);
  }
}
