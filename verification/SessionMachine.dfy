/** One session under all its goroutines, as a labelled transition system. A step is one critical
    section of `mu`, one acquisition or release of `sinkWrite`, one "still current?" test or one
    `WriteFrame`; any interleaving of the goroutines is a run. */
module SessionMachine {
  import opened Wrappers
  import opened SocketMode
  import opened SessionCore

  /** The goroutines that write to the actor: the Slack reader, the handler of each actor socket,
      and each fired fallback timer. */
  datatype Thread = Reader | Handler(conn: Conn) | Fallback(timer: nat, target: Conn)

  /** Where a call of writeToSink stands: waiting for `sinkWrite`, about to test whether the sink is
      current, past the test and about to write, about to unlock. */
  datatype Phase = Waiting | Checking | Committed | Releasing

  /** Who called writeToSink: Attach with how many events it saw buffered, deliverBufferedNow, or
      onEvent. */
  datatype Purpose = ForHello(buffered: nat) | ForBatch | ForLive

  datatype Pc =
    | Ready
    | Pinged
    | Writing(conn: Conn, frames: seq<Frame>, phase: Phase, purpose: Purpose)
    | HelloSent(buffered: nat)
    | Noting
    | Finished

  /** A fired idle timer whose callback has not yet taken `mu`. */
  datatype Callback = Callback(armedAt: nat, firedAt: nat)

  datatype StampInfo = StampInfo(conn: Conn, key: nat)

  /** What one connection has seen. `settler` is the thread whose deliverBufferedNow took effect,
      `batch` and `live` the frames stamped for it, `tried` the frames passed to WriteFrame. The
      three counters split `tried` into live frames before the batch, batch frames, live frames
      after. */
  datatype ConnLog = ConnLog(
    settler: Option<Thread>,
    helloTried: bool,
    batch: seq<Frame>,
    live: seq<Frame>,
    liveBefore: nat,
    batchTried: nat,
    liveAfter: nat,
    tried: seq<Frame>,
    failed: bool)

  const NEW_CONN := ConnLog(None, false, [], [], 0, 0, 0, [], false)

  /** Everything ever received, every key acknowledged, every id ever minted. */
  datatype Log = Log(received: seq<Raw>, acked: set<nat>, stamps: map<string, StampInfo>)

  datatype Threads = Threads(pcs: map<Thread, Pc>, lock: Option<Thread>)

  /** Resume calls: the event that triggered each, how many failed, how many are running. */
  datatype ResumeTally = ResumeTally(triggers: seq<nat>, failures: nat, running: nat)

  datatype SuspendTally = SuspendTally(started: nat, failures: nat, running: nat, detaches: nat)

  /** Forwards truly outstanding, and how many were at the last effective detach. */
  datatype ForwardTally = ForwardTally(outstanding: nat, cutOff: nat)

  /** `reading` says that the reader has found `stop` open and is waiting for a frame from Slack.
      `callbacks` are the idle timers that fired and wait for `mu`; `lastTouch` is when the idle
      timer was last armed, re-armed or cancelled, `lastDelivery` when an event was last written to
      the actor. Of the history (`log`, `conns`, the tallies)
      only this influences a step: ids and connections are never reused, and a forward or a call
      must have begun to end. */
  datatype State = State(
    core: Core,
    threads: Threads,
    callbacks: map<nat, Callback>,
    now: nat,
    reading: bool,
    log: Log,
    conns: map<Conn, ConnLog>,
    readers: nat,
    resumes: ResumeTally,
    suspends: SuspendTally,
    forwards: ForwardTally,
    lastTouch: nat,
    lastDelivery: nat)

  const INITIAL := State(
    NEW_SESSION, Threads(map[], None), map[], 0, false, Log([], {}, map[]), map[], 0,
    ResumeTally([], 0, 0), SuspendTally(0, 0, 0, 0), ForwardTally(0, 0), 0, 0)

  datatype Label =
    | LEnsureStarted(token: string)
    | LClose
    | LRead
    | LSkip
    | LEvent(raw: Raw, id: string)
    | LAttach(conn: Conn)
    | LAcquire(thread: Thread)
    | LCheck(thread: Thread)
    | LWrite(thread: Thread, ok: bool)
    | LRelease(thread: Thread)
    | LHold(conn: Conn)
    | LDeliver(thread: Thread, ids: seq<string>)
    | LNote(thread: Thread)
    | LPing(thread: Thread)
    | LAck(conn: Conn, raw: Raw)
    | LDetach(conn: Conn)
    | LFallbackFires(timer: nat)
    | LIdleFires(timer: nat)
    | LOnIdle(timer: nat)
    | LBeginForward
    | LEndForward
    | LResumeReturns(ok: bool)
    | LSuspendReturns(ok: bool)
    | LTick(elapsed: nat)

  // ---- Guards

  predicate At(s: State, t: Thread, pc: Pc) {
    t in s.threads.pcs && s.threads.pcs[t] == pc
  }

  predicate InPhase(s: State, t: Thread, phase: Phase) {
    t in s.threads.pcs && s.threads.pcs[t].Writing? && s.threads.pcs[t].phase == phase
  }

  /** randID: never empty, never drawn before. */
  predicate NewId(log: Log, id: string) {
    id != "" && id !in log.stamps
  }

  predicate NewIds(log: Log, ids: seq<string>) {
    && (forall i :: 0 <= i < |ids| ==> NewId(log, ids[i]))
    && (forall i, j :: 0 <= i < j < |ids| ==> ids[i] != ids[j])
  }

  function ConnOf(t: Thread): Conn
    requires !t.Reader?
  {
    if t.Handler? then t.conn else t.target
  }

  /** deliverBufferedNow is called by Attach when nothing was buffered, by MarkReady after a ping, and
      by a fired fallback timer. */
  predicate CallsDeliver(s: State, t: Thread) {
    && !t.Reader?
    && (if t.Handler? then At(s, t, Pinged) || At(s, t, HelloSent(0)) else At(s, t, Ready))
  }

  predicate MayHold(s: State, c: Conn) {
    var t := Handler(c);
    t in s.threads.pcs && s.threads.pcs[t].HelloSent? && s.threads.pcs[t].buffered > 0
  }

  predicate MayDeliver(s: State, t: Thread, ids: seq<string>) {
    && CallsDeliver(s, t)
    && (Settles(s.core.link, ConnOf(t)) ==> |ids| == |s.core.mail.buffer| && NewIds(s.log, ids))
  }

  predicate Enabled(cfg: Config, s: State, l: Label) {
    match l
    case LEnsureStarted(_) => true
    case LClose => true
    case LRead => At(s, Reader, Ready) && !s.reading && !s.core.reader.closed
    case LSkip => At(s, Reader, Ready) && s.reading
    case LEvent(raw, id) => At(s, Reader, Ready) && s.reading && IsEventFrame(raw) && NewId(s.log, id)
    case LAttach(c) => c !in s.conns
    case LAcquire(t) => InPhase(s, t, Waiting) && s.threads.lock.None?
    case LCheck(t) => InPhase(s, t, Checking)
    case LWrite(t, _) => InPhase(s, t, Committed) && s.threads.pcs[t].frames != []
    case LRelease(t) => InPhase(s, t, Releasing)
    case LHold(c) => MayHold(s, c)
    case LDeliver(t, ids) => MayDeliver(s, t, ids)
    case LNote(t) => At(s, t, Noting)
    case LPing(t) => t.Handler? && At(s, t, Ready)
    case LAck(c, _) => At(s, Handler(c), Ready)
    case LDetach(c) => At(s, Handler(c), Ready)
    case LFallbackFires(tm) => tm in s.core.link.pending
    case LIdleFires(tm) => tm in s.core.idle.pending && s.now >= s.core.idle.pending[tm] + cfg.idleGrace
    case LOnIdle(tm) => tm in s.callbacks
    case LBeginForward => true
    case LEndForward => s.forwards.outstanding > 0
    case LResumeReturns(_) => s.resumes.running > 0
    case LSuspendReturns(_) => s.suspends.running > 0
    case LTick(_) => true
  }

  // ---- Effects

  function LogOf(s: State, c: Conn): ConnLog {
    if c in s.conns then s.conns[c] else NEW_CONN
  }

  function Goto(th: Threads, t: Thread, pc: Pc): Threads {
    th.(pcs := th.pcs[t := pc])
  }

  /** onEvent when the actor is connected and settled: the event goes out at once. */
  function EventLive(s: State, raw: Raw, id: string, c: Conn): State {
    var key := s.core.mail.nextKey;
    var frame := Stamp(PendingEvent(key, raw), id);
    var h := LogOf(s, c);
    s.(core := OnEvent(s.core, raw, id),
       threads := Goto(s.threads, Reader, Writing(c, [frame], Waiting, ForLive)),
       reading := false,
       log := s.log.(received := s.log.received + [raw], stamps := s.log.stamps[id := StampInfo(c, key)]),
       conns := s.conns[c := h.(live := h.live + [frame])])
  }

  /** onEvent otherwise: the event waits, and an absent actor is resumed unless that is under way. */
  function EventHeld(s: State, raw: Raw, id: string): State {
    s.(core := OnEvent(s.core, raw, id),
       reading := false,
       log := s.log.(received := s.log.received + [raw]),
       resumes := if NeedsResume(s.core.link)
                  then s.resumes.(triggers := s.resumes.triggers + [s.core.mail.nextKey],
                                  running := s.resumes.running + 1)
                  else s.resumes)
  }

  function Event'(s: State, raw: Raw, id: string): State {
    if DeliversLive(s.core.link) then EventLive(s, raw, id, s.core.link.sink.value) else EventHeld(s, raw, id)
  }

  function Attach'(s: State, c: Conn): State {
    s.(core := Attach(s.core, c),
       threads := Goto(s.threads, Handler(c), Writing(c, [Hello], Waiting, ForHello(|s.core.mail.buffer|))),
       conns := s.conns[c := NEW_CONN])
  }

  function Acquire'(s: State, t: Thread): State
    requires InPhase(s, t, Waiting)
  {
    s.(threads := Threads(s.threads.pcs[t := s.threads.pcs[t].(phase := Checking)], Some(t)))
  }

  function Check'(s: State, t: Thread): State
    requires InPhase(s, t, Checking)
  {
    var pc := s.threads.pcs[t];
    var next := if pc.frames != [] && s.core.link.sink == Some(pc.conn) then Committed else Releasing;
    s.(threads := Goto(s.threads, t, pc.(phase := next)))
  }

  /** One WriteFrame, successful or not. */
  function Try(h: ConnLog, f: Frame, purpose: Purpose, ok: bool): ConnLog {
    h.(tried := h.tried + [f],
       failed := h.failed || !ok,
       helloTried := h.helloTried || purpose.ForHello?,
       batchTried := if purpose.ForBatch? then h.batchTried + 1 else h.batchTried,
       liveBefore := if purpose.ForLive? && h.batchTried == 0 then h.liveBefore + 1 else h.liveBefore,
       liveAfter := if purpose.ForLive? && h.batchTried > 0 then h.liveAfter + 1 else h.liveAfter)
  }

  function Write'(s: State, t: Thread, ok: bool): State
    requires InPhase(s, t, Committed) && s.threads.pcs[t].frames != []
  {
    var pc := s.threads.pcs[t];
    s.(threads := Goto(s.threads, t, pc.(frames := pc.frames[1..], phase := if ok then Checking else Releasing)),
       conns := s.conns[pc.conn := Try(LogOf(s, pc.conn), pc.frames[0], pc.purpose, ok)],
       lastDelivery := if ok && !pc.purpose.ForHello? then s.now else s.lastDelivery)
  }

  function Release'(s: State, t: Thread): State
    requires InPhase(s, t, Releasing)
  {
    var purpose := s.threads.pcs[t].purpose;
    s.(threads := Threads(s.threads.pcs[t := if purpose.ForHello? then HelloSent(purpose.buffered) else Noting], None))
  }

  function Hold'(cfg: Config, s: State, c: Conn): State {
    s.(threads := Goto(s.threads, Handler(c), Ready),
       core := if cfg.deliverDelay > 0 then ArmFallback(s.core, c) else s.core)
  }

  /** A fallback callback ends with its call; a handler returns to its read loop. */
  function Return(t: Thread): Pc {
    if t.Fallback? then Finished else Ready
  }

  /** Records the stamps of a delivery to `c`. */
  function RecordStamps(m: map<string, StampInfo>, c: Conn, es: seq<PendingEvent>, ids: seq<string>)
    : map<string, StampInfo>
    requires |es| == |ids|
  {
    if es == [] then m
    else RecordStamps(m, c, es[..|es| - 1], ids[..|es| - 1])[ids[|es| - 1] := StampInfo(c, es[|es| - 1].key)]
  }

  /** deliverBufferedNow taking effect. */
  function Settle(s: State, t: Thread, c: Conn, ids: seq<string>): State
    requires |ids| == |s.core.mail.buffer|
  {
    var frames := StampAll(s.core.mail.buffer, ids);
    s.(core := Deliver(s.core, c, ids),
       threads := Goto(s.threads, t, Writing(c, frames, Waiting, ForBatch)),
       log := s.log.(stamps := RecordStamps(s.log.stamps, c, s.core.mail.buffer, ids)),
       conns := s.conns[c := LogOf(s, c).(settler := Some(t), batch := frames)])
  }

  function Deliver'(s: State, t: Thread, ids: seq<string>): State
    requires MayDeliver(s, t, ids)
  {
    if Settles(s.core.link, ConnOf(t)) then Settle(s, t, ConnOf(t), ids)
    else s.(threads := Goto(s.threads, t, Return(t)))
  }

  function Note'(cfg: Config, s: State, t: Thread): State {
    s.(core := NoteActivity(cfg, s.core, s.now),
       threads := Goto(s.threads, t, Return(t)),
       lastTouch := s.now)
  }

  /** The id a frame from the actor acknowledges; a frame that does not decode acknowledges none. */
  function AckedId(raw: Raw): string {
    if DecodeEnvelope(raw).Ok? then DecodeEnvelope(raw).value.envelopeId else ""
  }

  function Ack'(cfg: Config, s: State, id: string): State {
    if !KnowsId(s.core.mail, id) then s
    else s.(core := Ack(cfg, s.core, id, s.now),
            log := s.log.(acked := s.log.acked + {s.core.mail.freshIds[id]}),
            lastTouch := s.now)
  }

  /** Detach of the current connection. */
  function Disconnect(s: State, c: Conn): State {
    s.(core := Detach(s.core, c),
       threads := Goto(s.threads, Handler(c), Finished),
       suspends := s.suspends.(detaches := s.suspends.detaches + 1),
       forwards := s.forwards.(cutOff := s.forwards.outstanding),
       lastTouch := s.now)
  }

  function Detach'(s: State, c: Conn): State {
    if s.core.link.sink == Some(c) then Disconnect(s, c)
    else s.(threads := Goto(s.threads, Handler(c), Finished))
  }

  function FallbackFires'(s: State, tm: nat): State
    requires tm in s.core.link.pending
  {
    s.(core := s.core.(link := s.core.link.(pending := s.core.link.pending - {tm})),
       threads := Goto(s.threads, Fallback(tm, s.core.link.pending[tm]), Ready))
  }

  function IdleFires'(s: State, tm: nat): State
    requires tm in s.core.idle.pending
  {
    s.(core := s.core.(idle := s.core.idle.(pending := s.core.idle.pending - {tm})),
       callbacks := s.callbacks[tm := Callback(s.core.idle.pending[tm], s.now)])
  }

  function OnIdle'(s: State, tm: nat): State {
    s.(core := OnIdle(s.core),
       callbacks := s.callbacks - {tm},
       suspends := if SuspendsNow(s.core)
                   then s.suspends.(started := s.suspends.started + 1, running := s.suspends.running + 1)
                   else s.suspends)
  }

  function BeginForward'(s: State): State {
    s.(core := BeginForward(s.core),
       forwards := s.forwards.(outstanding := s.forwards.outstanding + 1),
       lastTouch := s.now)
  }

  function EndForward'(cfg: Config, s: State): State
    requires s.forwards.outstanding > 0
  {
    s.(core := EndForward(cfg, s.core, s.now),
       forwards := s.forwards.(outstanding := s.forwards.outstanding - 1),
       lastTouch := s.now)
  }

  function ResumeReturns'(s: State, ok: bool): State
    requires s.resumes.running > 0
  {
    s.(core := if ok then s.core else ResumeFailed(s.core),
       resumes := s.resumes.(running := s.resumes.running - 1,
                             failures := if ok then s.resumes.failures else s.resumes.failures + 1))
  }

  function SuspendReturns'(cfg: Config, s: State, ok: bool): State
    requires s.suspends.running > 0
  {
    s.(core := if ok then s.core else SuspendFailed(cfg, s.core, s.now),
       suspends := s.suspends.(running := s.suspends.running - 1,
                               failures := if ok then s.suspends.failures else s.suspends.failures + 1),
       lastTouch := if ok then s.lastTouch else s.now)
  }

  function EnsureStarted'(s: State, token: string): State {
    s.(core := EnsureStarted(s.core, token),
       threads := if StartsReader(s.core) then Goto(s.threads, Reader, Ready) else s.threads,
       readers := if StartsReader(s.core) then s.readers + 1 else s.readers)
  }

  function Apply(cfg: Config, s: State, l: Label): State
    requires Enabled(cfg, s, l)
  {
    match l
    case LEnsureStarted(token) => EnsureStarted'(s, token)
    case LClose => s.(core := Close(s.core))
    case LRead => s.(reading := true)
    case LSkip => s.(reading := false)
    case LEvent(raw, id) => Event'(s, raw, id)
    case LAttach(c) => Attach'(s, c)
    case LAcquire(t) => Acquire'(s, t)
    case LCheck(t) => Check'(s, t)
    case LWrite(t, ok) => Write'(s, t, ok)
    case LRelease(t) => Release'(s, t)
    case LHold(c) => Hold'(cfg, s, c)
    case LDeliver(t, ids) => Deliver'(s, t, ids)
    case LNote(t) => Note'(cfg, s, t)
    case LPing(t) => s.(threads := Goto(s.threads, t, Pinged))
    case LAck(_, raw) => Ack'(cfg, s, AckedId(raw))
    case LDetach(c) => Detach'(s, c)
    case LFallbackFires(tm) => FallbackFires'(s, tm)
    case LIdleFires(tm) => IdleFires'(s, tm)
    case LOnIdle(tm) => OnIdle'(s, tm)
    case LBeginForward => BeginForward'(s)
    case LEndForward => EndForward'(cfg, s)
    case LResumeReturns(ok) => ResumeReturns'(s, ok)
    case LSuspendReturns(ok) => SuspendReturns'(cfg, s, ok)
    case LTick(d) => s.(now := s.now + d)
  }

  // ---- Runs

  predicate IsRun(cfg: Config, s: State, ls: seq<Label>)
    decreases |ls|
  {
    ls == [] || (Enabled(cfg, s, ls[0]) && IsRun(cfg, Apply(cfg, s, ls[0]), ls[1..]))
  }

  function After(cfg: Config, s: State, ls: seq<Label>): State
    requires IsRun(cfg, s, ls)
    decreases |ls|
  {
    if ls == [] then s else After(cfg, Apply(cfg, s, ls[0]), ls[1..])
  }

  ghost predicate Reachable(cfg: Config, s: State) {
    exists ls :: IsRun(cfg, INITIAL, ls) && After(cfg, INITIAL, ls) == s
  }

  /** Runs compose. */
  lemma {:induction false} RunsCompose(cfg: Config, s: State, first: seq<Label>, second: seq<Label>)
    requires IsRun(cfg, s, first) && IsRun(cfg, After(cfg, s, first), second)
    ensures IsRun(cfg, s, first + second)
    ensures After(cfg, s, first + second) == After(cfg, After(cfg, s, first), second)
    decreases |first|
  {
    if first == [] {
      assert first + second == second;
    } else {
      assert (first + second)[1..] == first[1..] + second;
      RunsCompose(cfg, Apply(cfg, s, first[0]), first[1..], second);
    }
  }

  /** A run may start with any enabled step. */
  lemma FirstStep(cfg: Config, s: State, l: Label, ls: seq<Label>)
    requires Enabled(cfg, s, l) && IsRun(cfg, Apply(cfg, s, l), ls)
    ensures IsRun(cfg, s, [l] + ls) && After(cfg, s, [l] + ls) == After(cfg, Apply(cfg, s, l), ls)
  {
    assert ([l] + ls)[1..] == ls;
  }

  lemma InitialReachable(cfg: Config)
    ensures Reachable(cfg, INITIAL)
  {
    assert IsRun(cfg, INITIAL, []) && After(cfg, INITIAL, []) == INITIAL;
  }

  lemma ReachableRun(cfg: Config, s: State, ls: seq<Label>)
    requires Reachable(cfg, s) && IsRun(cfg, s, ls)
    ensures Reachable(cfg, After(cfg, s, ls))
  {
    var first :| IsRun(cfg, INITIAL, first) && After(cfg, INITIAL, first) == s;
    RunsCompose(cfg, INITIAL, first, ls);
  }

  lemma ReachableStep(cfg: Config, s: State, l: Label)
    requires Reachable(cfg, s) && Enabled(cfg, s, l)
    ensures Reachable(cfg, Apply(cfg, s, l))
  {
    FirstStep(cfg, s, l, []);
    ReachableRun(cfg, s, [l] + []);
  }
}
