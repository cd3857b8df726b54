/** What reaches a connection, and in which order: the frames tried on it are hello, live events,
    one contiguous batch and further live events, each stamped event at most once and, as long as
    the connection is current and sound, none left out. */
module Delivery {
  import opened Wrappers
  import opened SocketMode
  import opened SessionCore
  import opened SessionMachine
  import opened Placement

  // ---- The log of one connection

  predicate Increasing(fs: seq<Frame>) {
    && (forall i :: 0 <= i < |fs| ==> fs[i].Event?)
    && (forall i, j :: 0 <= i < j < |fs| ==> fs[i].key < fs[j].key)
  }

  /** Batch and live events are each in arrival order, and every live event is newer than the
      batch. */
  predicate KeysOk(h: ConnLog, nextKey: nat) {
    && Increasing(h.batch) && Increasing(h.live)
    && (forall i, j :: 0 <= i < |h.batch| && 0 <= j < |h.live| ==> h.batch[i].key < h.live[j].key)
    && (forall i :: 0 <= i < |h.batch| ==> h.batch[i].key < nextKey)
    && (forall i :: 0 <= i < |h.live| ==> h.live[i].key < nextKey)
  }

  function HelloPart(helloTried: bool): seq<Frame> {
    if helloTried then [Hello] else []
  }

  function LiveTried(h: ConnLog): nat {
    h.liveBefore + h.liveAfter
  }

  ghost predicate ShapeOk(h: ConnLog) {
    && LiveTried(h) <= |h.live| && h.batchTried <= |h.batch|
    && (h.batchTried == 0 ==> h.liveAfter == 0)
    && (h.liveBefore + h.batchTried > 0 ==> h.helloTried)
    && (h.settler.None? ==> h.batch == [] && h.live == [])
    && h.tried == HelloPart(h.helloTried) + h.live[..h.liveBefore] + h.batch[..h.batchTried]
                  + h.live[h.liveBefore..LiveTried(h)]
  }

  lemma TryHello(h: ConnLog, buffered: nat, ok: bool)
    requires ShapeOk(h) && !h.helloTried
    ensures ShapeOk(Try(h, Hello, ForHello(buffered), ok))
  {
    assert h.tried == [];
  }

  lemma TryBatch(h: ConnLog, ok: bool)
    requires ShapeOk(h) && h.helloTried && h.liveAfter == 0 && h.batchTried < |h.batch|
    ensures ShapeOk(Try(h, h.batch[h.batchTried], ForBatch, ok))
  {
    var n := h.batchTried;
    assert h.batch[..n + 1] == h.batch[..n] + [h.batch[n]];
    assert h.live[h.liveBefore..h.liveBefore] == [];
  }

  lemma TryLive(h: ConnLog, ok: bool)
    requires ShapeOk(h) && h.helloTried && LiveTried(h) < |h.live|
    ensures ShapeOk(Try(h, h.live[LiveTried(h)], ForLive, ok))
  {
    var n := LiveTried(h);
    if h.batchTried == 0 {
      assert h.live[..n + 1] == h.live[..n] + [h.live[n]];
      assert h.batch[..0] == [] && h.live[n..n] == [] && h.live[n + 1..n + 1] == [];
    } else {
      assert h.live[h.liveBefore..n + 1] == h.live[h.liveBefore..n] + [h.live[n]];
    }
  }

  lemma StampLiveKeepsShape(h: ConnLog, f: Frame)
    requires ShapeOk(h) && h.settler.Some?
    ensures ShapeOk(h.(live := h.live + [f]))
  {
    var live' := h.live + [f];
    assert live'[..h.liveBefore] == h.live[..h.liveBefore];
    assert live'[h.liveBefore..LiveTried(h)] == h.live[h.liveBefore..LiveTried(h)];
  }

  lemma StampBatchKeepsShape(h: ConnLog, t: Thread, fs: seq<Frame>)
    requires ShapeOk(h) && h.settler.None?
    ensures ShapeOk(h.(settler := Some(t), batch := fs))
  {
  }

  // ---- How far each writer of a connection has come

  /** `pc` is the handler of the connection. */
  ghost predicate HelloFlow(pc: Pc, h: ConnLog, current: bool) {
    if pc.Writing? && pc.purpose.ForHello? && pc.phase != Releasing then
      && pc.frames == (if h.helloTried then [] else [Hello])
      && (pc.phase == Committed ==> !h.helloTried)
    else
      h.helloTried || !current
  }

  /** `pc` is the thread that settled the connection. */
  ghost predicate BatchFlow(pc: Pc, h: ConnLog, current: bool) {
    if pc.Writing? && pc.phase != Releasing then
      && h.batchTried <= |h.batch| && pc.frames == h.batch[h.batchTried..]
      && (pc.phase == Waiting ==> h.batchTried == 0)
      && h.liveAfter == 0
      && (pc.phase == Committed ==> h.helloTried && pc.frames != [])
    else
      h.batchTried == |h.batch| || !current || h.failed
  }

  predicate WritesLive(pc: Pc, c: Conn) {
    pc.Writing? && pc.conn == c && pc.phase != Releasing
  }

  /** `pc` is the Slack reader. */
  ghost predicate LiveFlow(pc: Pc, c: Conn, h: ConnLog, current: bool) {
    if WritesLive(pc, c) then
      && LiveTried(h) <= |h.live| && pc.frames == h.live[LiveTried(h)..] && |pc.frames| <= 1
      && (pc.phase == Committed ==> h.helloTried && pc.frames != [])
    else
      LiveTried(h) == |h.live| || !current
  }

  function ReaderPc(pcs: map<Thread, Pc>): Pc {
    if Reader in pcs then pcs[Reader] else Ready
  }

  ghost predicate FlowOk(pcs: map<Thread, Pc>, c: Conn, h: ConnLog, current: bool) {
    && Handler(c) in pcs && HelloFlow(pcs[Handler(c)], h, current)
    && (h.settler.Some? ==> h.settler.value in pcs && BatchFlow(pcs[h.settler.value], h, current))
    && LiveFlow(ReaderPc(pcs), c, h, current)
  }

  /** The log of every connection has the right shape. */
  ghost predicate ShapesOk(conns: Conns, nextKey: nat) {
    forall c :: c in conns ==> ShapeOk(conns[c]) && KeysOk(conns[c], nextKey)
  }

  /** Every connection's writers are where its log says. */
  ghost predicate FlowsOk(pcs: map<Thread, Pc>, conns: Conns, sink: Option<Conn>) {
    forall c :: c in conns ==> FlowOk(pcs, c, conns[c], sink == Some(c))
  }

  ghost predicate FlowInv(s: State) {
    ShapesOk(s.conns, s.core.mail.nextKey) && FlowsOk(s.threads.pcs, s.conns, s.core.link.sink)
  }

  /** Moving one thread keeps the flow of `c` if it keeps the roles that thread has for `c`; ceasing
      to be current never hurts. */
  lemma MoveKeepsFlow(pcs: map<Thread, Pc>, t: Thread, pc: Pc, c: Conn, h: ConnLog, was: bool, current: bool)
    requires FlowOk(pcs, c, h, was) && (current ==> was)
    requires t == Handler(c) ==> HelloFlow(pc, h, current)
    requires h.settler == Some(t) ==> BatchFlow(pc, h, current)
    requires t == Reader ==> LiveFlow(pc, c, h, current)
    ensures FlowOk(pcs[t := pc], c, h, current)
  {
  }

  /** The thread serves no connection but `c`. */
  ghost predicate ServesOnly(pcs: map<Thread, Pc>, conns: Conns, t: Thread, pc: Pc, c: Conn) {
    && (!t.Reader? ==> ConnOf(t) == c)
    && (forall d :: d in conns && d != c ==> conns[d].settler != Some(t))
    && (t.Reader? ==> forall d :: d in conns && d != c ==> !WritesLive(ReaderPc(pcs), d) && !WritesLive(pc, d))
  }

  lemma ShapesStep(conns: Conns, nextKey: nat, c: Conn, h: ConnLog, nextKey': nat)
    requires ShapesOk(conns, nextKey) && nextKey <= nextKey' && ShapeOk(h) && KeysOk(h, nextKey')
    ensures ShapesOk(conns[c := h], nextKey')
  {
  }

  /** A step of a thread that serves only `c` concerns only `c`. */
  lemma FlowsStep(pcs: map<Thread, Pc>, conns: Conns, sink: Option<Conn>,
                  t: Thread, pc: Pc, c: Conn, h: ConnLog, sink': Option<Conn>)
    requires FlowsOk(pcs, conns, sink) && ServesOnly(pcs, conns, t, pc, c)
    requires sink' == sink || sink'.None? || sink' == Some(c)
    requires FlowOk(pcs[t := pc], c, h, sink' == Some(c))
    ensures FlowsOk(pcs[t := pc], conns[c := h], sink')
  {
    forall d | d in conns && d != c
      ensures FlowOk(pcs[t := pc], d, conns[d], sink' == Some(d))
    {
      MoveKeepsFlow(pcs, t, pc, d, conns[d], sink == Some(d), sink' == Some(d));
    }
  }

  lemma ThreadsServeOneConnection(s: State, t: Thread, pc: Pc, c: Conn)
    requires PlaceInv(s) && (t in s.threads.pcs || t == Handler(c))
    requires !t.Reader? ==> ConnOf(t) == c
    requires t.Reader? ==> (t in s.threads.pcs && s.threads.pcs[t].Writing? ==> s.threads.pcs[t].conn == c)
    requires t.Reader? ==> (pc.Writing? ==> pc.conn == c)
    ensures ServesOnly(s.threads.pcs, s.conns, t, pc, c)
  {
  }

  // ---- The steps of writeToSink

  /** The phase writeToSink goes to after its "still current?" test. */
  function Checked(pc: Pc, current: bool): Pc
    requires pc.Writing?
  {
    pc.(phase := if pc.frames != [] && current then Committed else Releasing)
  }

  lemma CheckedOwnFlow(s: State, t: Thread)
    requires PlaceInv(s) && FlowInv(s) && InPhase(s, t, Checking) && s.threads.pcs[t].conn in s.conns
    ensures var pc, current := s.threads.pcs[t], s.core.link.sink == Some(s.threads.pcs[t].conn);
            FlowOk(s.threads.pcs[t := Checked(pc, current)], pc.conn, s.conns[pc.conn], current)
  {
    hide ShapesOk, LinkOk;
    var pc := s.threads.pcs[t];
    var c, h, current := pc.conn, s.conns[pc.conn], s.core.link.sink == Some(pc.conn);
    var handler := s.threads.pcs[Handler(c)];
    assert ConnPlace(Handler(c), handler, c, h, handler);
    MoveKeepsFlow(s.threads.pcs, t, Checked(pc, current), c, h, current, current);
  }

  lemma CheckKeepsFlow(s: State, t: Thread)
    requires PlaceInv(s) && FlowInv(s) && InPhase(s, t, Checking)
    ensures FlowInv(Check'(s, t))
  {
    hide ShapesOk, ServesOnly, FlowOk;
    var pc := s.threads.pcs[t];
    var c, h, current := pc.conn, s.conns[pc.conn], s.core.link.sink == Some(pc.conn);
    CheckedOwnFlow(s, t);
    ThreadsServeOneConnection(s, t, Checked(pc, current), c);
    FlowsStep(s.threads.pcs, s.conns, s.core.link.sink, t, Checked(pc, current), c, h, s.core.link.sink);
    assert s.conns[c := h] == s.conns;
  }

  lemma LockKeepsFlow(s: State, t: Thread, s': State)
    requires PlaceInv(s) && FlowInv(s)
    requires (InPhase(s, t, Waiting) && s' == Acquire'(s, t)) || (InPhase(s, t, Releasing) && s' == Release'(s, t))
    ensures FlowInv(s')
  {
    hide ShapesOk, ServesOnly;
    var c, current := s.threads.pcs[t].conn, s.core.link.sink == Some(s.threads.pcs[t].conn);
    var pc := s'.threads.pcs[t];
    MoveKeepsFlow(s.threads.pcs, t, pc, c, s.conns[c], current, current);
    ThreadsServeOneConnection(s, t, pc, c);
    FlowsStep(s.threads.pcs, s.conns, s.core.link.sink, t, pc, c, s.conns[c], s.core.link.sink);
    assert s.conns[c := s.conns[c]] == s.conns;
  }

  function Written(pc: Pc, ok: bool): Pc
    requires pc.Writing? && pc.frames != []
  {
    pc.(frames := pc.frames[1..], phase := if ok then Checking else Releasing)
  }

  /** One WriteFrame, seen from the connection it goes to. */
  lemma WriteKeepsShape(pcs: map<Thread, Pc>, conns: Conns, t: Thread, ok: bool, current: bool)
    requires PlaceOk(pcs, conns) && t in pcs && pcs[t].Writing? && pcs[t].phase == Committed && pcs[t].frames != []
    requires var c := pcs[t].conn;
             c in conns && ShapeOk(conns[c]) && FlowOk(pcs, c, conns[c], current)
    ensures ShapeOk(Try(conns[pcs[t].conn], pcs[t].frames[0], pcs[t].purpose, ok))
  {
    var h := conns[pcs[t].conn];
    match pcs[t].purpose
    case ForHello(n) => TryHello(h, n, ok);
    case ForBatch => TryBatch(h, ok);
    case ForLive => TryLive(h, ok);
  }

  lemma WriteHelloFlow(pcs: map<Thread, Pc>, c: Conn, h: ConnLog, pc: Pc, ok: bool, current: bool)
    requires FlowOk(pcs, c, h, current) && h.settler.None? && pcs[Handler(c)] == pc && !WritesLive(ReaderPc(pcs), c)
    requires pc.Writing? && pc.phase == Committed && pc.purpose.ForHello? && pc.frames != []
    ensures FlowOk(pcs[Handler(c) := Written(pc, ok)], c, Try(h, pc.frames[0], pc.purpose, ok), current)
  {
  }

  lemma WriteBatchFlow(pcs: map<Thread, Pc>, t: Thread, c: Conn, h: ConnLog, pc: Pc, ok: bool, current: bool)
    requires FlowOk(pcs, c, h, current) && h.settler == Some(t) && !t.Reader? && pcs[t] == pc
    requires pc.Writing? && pc.phase == Committed && pc.purpose.ForBatch? && pc.frames != []
    ensures FlowOk(pcs[t := Written(pc, ok)], c, Try(h, pc.frames[0], pc.purpose, ok), current)
  {
    assert h.batch[h.batchTried..][1..] == h.batch[h.batchTried + 1..];
  }

  lemma WriteLiveFlow(pcs: map<Thread, Pc>, c: Conn, h: ConnLog, pc: Pc, ok: bool, current: bool)
    requires FlowOk(pcs, c, h, current) && Reader in pcs && pcs[Reader] == pc
    requires h.settler.Some? && !h.settler.value.Reader?
    requires pcs[h.settler.value].Writing? ==> pcs[h.settler.value].phase == Waiting
    requires pc.Writing? && pc.conn == c && pc.phase == Committed && pc.purpose.ForLive? && pc.frames != []
    ensures FlowOk(pcs[Reader := Written(pc, ok)], c, Try(h, pc.frames[0], pc.purpose, ok), current)
  {
    var n := LiveTried(h);
    assert h.live[n..][1..] == h.live[n + 1..];
  }

  lemma WriteOwnFlow(s: State, t: Thread, ok: bool)
    requires PlaceInv(s) && LockOk(s.threads) && FlowInv(s)
    requires InPhase(s, t, Committed) && s.threads.pcs[t].frames != []
    ensures var pc := s.threads.pcs[t];
            pc.conn in s.conns &&
            FlowOk(s.threads.pcs[t := Written(pc, ok)], pc.conn, Try(s.conns[pc.conn], pc.frames[0], pc.purpose, ok),
                   s.core.link.sink == Some(pc.conn))
  {
    hide ShapeOk, KeysOk, FlowOk, Try, Written;
    var pc := s.threads.pcs[t];
    var c, current := pc.conn, s.core.link.sink == Some(pc.conn);
    match pc.purpose
    case ForHello(_) => WriteHelloFlow(s.threads.pcs, c, s.conns[c], pc, ok, current);
    case ForBatch => WriteBatchFlow(s.threads.pcs, t, c, s.conns[c], pc, ok, current);
    case ForLive => WriteLiveFlow(s.threads.pcs, c, s.conns[c], pc, ok, current);
  }

  lemma WriteKeepsFlow(s: State, t: Thread, ok: bool)
    requires PlaceInv(s) && LockOk(s.threads) && FlowInv(s)
    requires InPhase(s, t, Committed) && s.threads.pcs[t].frames != []
    ensures FlowInv(Write'(s, t, ok))
  {
    hide ShapeOk, FlowOk, ServesOnly, LinkOk, LockOk;
    var pc, nextKey := s.threads.pcs[t], s.core.mail.nextKey;
    WriteOwnFlow(s, t, ok);
    WriteKeepsShape(s.threads.pcs, s.conns, t, ok, s.core.link.sink == Some(pc.conn));
    var h := Try(s.conns[pc.conn], pc.frames[0], pc.purpose, ok);
    ShapesStep(s.conns, nextKey, pc.conn, h, nextKey);
    ThreadsServeOneConnection(s, t, Written(pc, ok), pc.conn);
    FlowsStep(s.threads.pcs, s.conns, s.core.link.sink, t, Written(pc, ok), pc.conn, h, s.core.link.sink);
  }

  // ---- The other steps

  lemma StampedLiveFlow(pcs: map<Thread, Pc>, c: Conn, h: ConnLog, f: Frame)
    requires FlowOk(pcs, c, h, true) && Reader in pcs && pcs[Reader] == Ready
    requires h.settler.Some? && !h.settler.value.Reader?
    ensures FlowOk(pcs[Reader := Writing(c, [f], Waiting, ForLive)], c, h.(live := h.live + [f]), true)
  {
    assert (h.live + [f])[|h.live|..] == [f];
  }

  lemma StampedLiveKeys(h: ConnLog, f: Frame, nextKey: nat)
    requires KeysOk(h, nextKey) && f.Event? && f.key == nextKey
    ensures KeysOk(h.(live := h.live + [f]), nextKey + 1)
  {
  }

  /** A live event joins the log of the current connection. */
  lemma EventLiveKeepsFlow(s: State, raw: Raw, id: string, c: Conn)
    requires PlaceInv(s) && FlowInv(s) && At(s, Reader, Ready)
    requires DeliversLive(s.core.link) && s.core.link.sink == Some(c)
    ensures FlowInv(EventLive(s, raw, id, c))
  {
    hide ShapeOk, KeysOk, FlowOk, ServesOnly, RewriteEnvelopeId;
    var h, f, n := s.conns[c], Stamp(PendingEvent(s.core.mail.nextKey, raw), id), s.core.mail.nextKey;
    var pc := Writing(c, [f], Waiting, ForLive);
    StampLiveKeepsShape(h, f);
    StampedLiveKeys(h, f, n);
    ShapesStep(s.conns, n, c, h.(live := h.live + [f]), n + 1);
    StampedLiveFlow(s.threads.pcs, c, h, f);
    ThreadsServeOneConnection(s, Reader, pc, c);
    FlowsStep(s.threads.pcs, s.conns, Some(c), Reader, pc, c, h.(live := h.live + [f]), Some(c));
  }

  lemma SettledFlow(pcs: map<Thread, Pc>, t: Thread, c: Conn, h: ConnLog, fs: seq<Frame>)
    requires FlowOk(pcs, c, h, true) && ShapeOk(h) && h.settler.None? && t in pcs && !t.Reader? && ConnOf(t) == c
    requires !pcs[t].Writing? && !WritesLive(ReaderPc(pcs), c)
    requires !(pcs[Handler(c)].Writing? && pcs[Handler(c)].purpose.ForHello?)
    ensures FlowOk(pcs[t := Writing(c, fs, Waiting, ForBatch)], c, h.(settler := Some(t), batch := fs), true)
  {
  }

  /** The events whose order the mailbox guarantees. */
  ghost predicate Ordered(k: Mailbox) {
    && (forall i :: 0 <= i < |k.buffer| ==> k.buffer[i].key < k.nextKey)
    && (forall i, j :: 0 <= i < j < |k.buffer| ==> k.buffer[i].key < k.buffer[j].key)
  }

  lemma SettledKeys(k: Mailbox, h: ConnLog, t: Thread, ids: seq<string>)
    requires Ordered(k) && h.live == [] && |ids| == |k.buffer|
    ensures KeysOk(h.(settler := Some(t), batch := StampAll(k.buffer, ids)), k.nextKey)
  {
    hide RewriteEnvelopeId, StampAll;
    var fs := StampAll(k.buffer, ids);
    assert forall i :: 0 <= i < |fs| ==> fs[i].Event? && fs[i].key == k.buffer[i].key;
  }

  lemma UnsettledIsEmpty(h: ConnLog)
    requires ShapeOk(h) && h.settler.None?
    ensures h.batch == [] && h.live == []
  {
  }

  /** The buffered events become the batch of the connection that settles. */
  lemma SettleKeepsFlow(s: State, t: Thread, c: Conn, ids: seq<string>)
    requires PlaceInv(s) && FlowInv(s) && CallsDeliver(s, t) && ConnOf(t) == c && Settles(s.core.link, c)
    requires |ids| == |s.core.mail.buffer| && Ordered(s.core.mail)
    ensures FlowInv(Settle(s, t, c, ids))
  {
    hide ShapeOk, KeysOk, FlowOk, ServesOnly, StampAll;
    var h, fs, n := s.conns[c], StampAll(s.core.mail.buffer, ids), s.core.mail.nextKey;
    var pc, h' := Writing(c, fs, Waiting, ForBatch), h.(settler := Some(t), batch := fs);
    StampBatchKeepsShape(h, t, fs);
    assert h.live == [] by { UnsettledIsEmpty(h); }
    SettledKeys(s.core.mail, h, t, ids);
    ShapesStep(s.conns, n, c, h', n);
    assert ConnPlace(t, s.threads.pcs[t], c, h, s.threads.pcs[Handler(c)]);
    SettledFlow(s.threads.pcs, t, c, h, fs);
    ThreadsServeOneConnection(s, t, pc, c);
    FlowsStep(s.threads.pcs, s.conns, Some(c), t, pc, c, h', Some(c));
  }

  predicate Unused(h: ConnLog) {
    && h.settler.None? && !h.helloTried && |h.batch| == |h.live| == |h.tried| == 0
    && h.liveBefore == h.batchTried == h.liveAfter == 0
  }

  lemma UnusedShape(h: ConnLog)
    requires Unused(h)
    ensures ShapeOk(h) && KeysOk(h, 0)
  {
  }

  lemma UnusedFlow(pcs: map<Thread, Pc>, c: Conn, h: ConnLog, buffered: nat)
    requires !WritesLive(ReaderPc(pcs), c) && Unused(h)
    ensures FlowOk(pcs[Handler(c) := Writing(c, [Hello], Waiting, ForHello(buffered))], c, h, true)
  {
  }

  lemma AttachKeepsFlow(s: State, c: Conn)
    requires PlaceInv(s) && FlowInv(s) && c !in s.conns
    ensures FlowInv(Attach'(s, c))
  {
    hide ServesOnly, FlowOk, ShapeOk;
    var n, pc := s.core.mail.nextKey, Writing(c, [Hello], Waiting, ForHello(|s.core.mail.buffer|));
    UnusedShape(NEW_CONN);
    UnusedFlow(s.threads.pcs, c, NEW_CONN, |s.core.mail.buffer|);
    ShapesStep(s.conns, n, c, NEW_CONN, n);
    ThreadsServeOneConnection(s, Handler(c), pc, c);
    FlowsStep(s.threads.pcs, s.conns, s.core.link.sink, Handler(c), pc, c, NEW_CONN, Some(c));
  }

  /** Threads that start or move outside writeToSink. */
  lemma QuietMoveKeepsFlow(pcs: map<Thread, Pc>, conns: Conns, sink: Option<Conn>, t: Thread, pc: Pc,
                           sink': Option<Conn>)
    requires FlowsOk(pcs, conns, sink) && (sink' == sink || sink'.None?)
    requires !pc.Writing? && (t in pcs ==> !pcs[t].Writing?)
    ensures FlowsOk(pcs[t := pc], conns, sink')
  {
    forall c | c in conns
      ensures FlowOk(pcs[t := pc], c, conns[c], sink' == Some(c))
    {
      MoveKeepsFlow(pcs, t, pc, c, conns[c], sink == Some(c), sink' == Some(c));
    }
  }

  lemma QuietStepKeepsFlow(cfg: Config, s: State, l: Label)
    requires FlowInv(s) && PlaceInv(s) && FreshInv(s) && Enabled(cfg, s, l)
    requires l.LHold? || l.LNote? || l.LPing? || l.LDetach? || l.LFallbackFires? || l.LEnsureStarted?
    ensures FlowInv(Apply(cfg, s, l))
  {
    hide ShapesOk, FlowsOk, PlaceOk, LinkOk;
    var s' := Apply(cfg, s, l);
    var t := match l
      case LHold(c) => Handler(c)
      case LNote(t) => t
      case LPing(t) => t
      case LDetach(c) => Handler(c)
      case LFallbackFires(tm) => Fallback(tm, s.core.link.pending[tm])
      case _ => Reader;
    if l.LEnsureStarted? ==> StartsReader(s.core) {
      QuietMoveKeepsFlow(s.threads.pcs, s.conns, s.core.link.sink, t, s'.threads.pcs[t], s'.core.link.sink);
      assert s'.threads.pcs == s.threads.pcs[t := s'.threads.pcs[t]];
    }
  }

  lemma DeliverKeepsFlow(s: State, t: Thread, ids: seq<string>)
    requires PlaceInv(s) && FlowInv(s) && MayDeliver(s, t, ids) && Ordered(s.core.mail)
    ensures FlowInv(Deliver'(s, t, ids))
  {
    if Settles(s.core.link, ConnOf(t)) {
      SettleKeepsFlow(s, t, ConnOf(t), ids);
    } else {
      QuietMoveKeepsFlow(s.threads.pcs, s.conns, s.core.link.sink, t, Return(t), s.core.link.sink);
    }
  }

  lemma EventKeepsFlow(s: State, raw: Raw, id: string)
    requires PlaceInv(s) && FlowInv(s) && At(s, Reader, Ready)
    ensures FlowInv(Event'(s, raw, id))
  {
    hide ShapeOk, FlowsOk;
    if DeliversLive(s.core.link) {
      EventLiveKeepsFlow(s, raw, id, s.core.link.sink.value);
    } else {
      assert ShapesOk(s.conns, s.core.mail.nextKey + 1);
    }
  }

  lemma StepKeepsFlow(cfg: Config, s: State, l: Label)
    requires PlaceInv(s) && FreshInv(s) && LockOk(s.threads) && FlowInv(s) && Ordered(s.core.mail) && Enabled(cfg, s, l)
    ensures FlowInv(Apply(cfg, s, l))
  {
    hide ShapesOk, FlowsOk, PlaceOk, LinkOk, FreshOk, LockOk, Ordered;
    match l
    case LEvent(raw, id) => EventKeepsFlow(s, raw, id);
    case LAttach(c) => AttachKeepsFlow(s, c);
    case LAcquire(t) => LockKeepsFlow(s, t, Acquire'(s, t));
    case LCheck(t) => CheckKeepsFlow(s, t);
    case LWrite(t, ok) => WriteKeepsFlow(s, t, ok);
    case LRelease(t) => LockKeepsFlow(s, t, Release'(s, t));
    case LDeliver(t, ids) => DeliverKeepsFlow(s, t, ids);
    case LHold(_) => QuietStepKeepsFlow(cfg, s, l);
    case LNote(_) => QuietStepKeepsFlow(cfg, s, l);
    case LPing(_) => QuietStepKeepsFlow(cfg, s, l);
    case LDetach(_) => QuietStepKeepsFlow(cfg, s, l);
    case LFallbackFires(_) => QuietStepKeepsFlow(cfg, s, l);
    case LEnsureStarted(_) => QuietStepKeepsFlow(cfg, s, l);
    case LAck(_, _) =>
    case LResumeReturns(_) =>
    case _ => IdleLabelFrame(cfg, s, l);
  }
}
