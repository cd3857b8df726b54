/** The fields of a `session` (cmd/egress-broker/registry.go) as a value, and one function for each
    critical section of its lock `mu`. The class in SessionObject.dfy is proved against these functions
    and the concurrent machine in SessionMachine.dfy steps by them. */
module SessionCore {
  import opened Wrappers
  import opened SocketMode
  import opened Identity

  /** An actor-facing connection (`actorSink`); every accepted WebSocket is a new one. */
  type Conn = nat

  /** `Registry.deliverDelay` and `Registry.idleGrace`; zero or less turns each off. */
  datatype Config = Config(deliverDelay: int, idleGrace: int)

  datatype PendingEvent = PendingEvent(key: nat, raw: Raw)

  /** A frame for the actor. `out` is what goes on the wire; `key` names the event it carries. */
  datatype Frame = Hello | Event(key: nat, id: string, out: Rewritten)

  datatype ReaderFields = ReaderFields(appToken: string, started: bool, closed: bool)

  /** Events awaiting the actor's ack, the key generator, and the minted ids still accepted. */
  datatype Mailbox = Mailbox(buffer: seq<PendingEvent>, nextKey: nat, freshIds: map<string, nat>)

  /** The current connection. `pending` holds, by connection, the fallback deliveries that
      `time.AfterFunc` has outstanding; `deliverTmr` points at the latest of them. */
  datatype Link = Link(
    sink: Option<Conn>,
    resuming: bool,
    settled: bool,
    deliverTmr: Option<nat>,
    nextTimer: nat,
    pending: map<nat, Conn>)

  /** Idle suspend. `pending` holds, by the time they were armed, the outstanding countdowns. */
  datatype Idle = Idle(
    inFlight: nat,
    suspending: bool,
    idleTmr: Option<nat>,
    nextTimer: nat,
    pending: map<nat, nat>)

  datatype Core = Core(reader: ReaderFields, mail: Mailbox, link: Link, idle: Idle)

  const NEW_SESSION := Core(
    ReaderFields("", false, false),
    Mailbox([], 0, map[]),
    Link(None, false, false, None, 0, map[]),
    Idle(0, false, None, 0, map[]))

  // ---- Timers

  function Without<T>(pending: map<nat, T>, tmr: Option<nat>): map<nat, T> {
    if tmr.Some? then pending - {tmr.value} else pending
  }

  function StopDeliver(k: Link): Link {
    k.(deliverTmr := None, pending := Without(k.pending, k.deliverTmr))
  }

  function StopIdle(k: Idle): Idle {
    k.(idleTmr := None, pending := Without(k.pending, k.idleTmr))
  }

  /** The guard of armIdleLocked, negated. */
  predicate MayArm(cfg: Config, k: Idle, connected: bool) {
    connected && !k.suspending && k.inFlight == 0 && cfg.idleGrace > 0
  }

  /** armIdleLocked. */
  function ArmIdle(cfg: Config, k: Idle, connected: bool, now: nat): Idle {
    if MayArm(cfg, k, connected) then
      k.(idleTmr := Some(k.nextTimer),
         pending := Without(k.pending, k.idleTmr)[k.nextTimer := now],
         nextTimer := k.nextTimer + 1)
    else StopIdle(k)
  }

  function NoteActivity(cfg: Config, k: Core, now: nat): Core {
    k.(idle := ArmIdle(cfg, k.idle, k.link.sink.Some?, now))
  }

  // ---- Idle suspend and forwards

  /** The guard of onIdle, negated: the callback goes on to suspend the actor. */
  predicate SuspendsNow(k: Core) {
    k.link.sink.Some? && !k.idle.suspending && k.idle.inFlight == 0
  }

  function OnIdle(k: Core): Core {
    k.(idle := k.idle.(suspending := k.idle.suspending || SuspendsNow(k)))
  }

  /** The error path of onIdle. */
  function SuspendFailed(cfg: Config, k: Core, now: nat): Core {
    k.(idle := ArmIdle(cfg, k.idle.(suspending := false), k.link.sink.Some?, now))
  }

  function BeginForward(k: Core): Core {
    k.(idle := StopIdle(k.idle.(inFlight := k.idle.inFlight + 1)))
  }

  function EndForward(cfg: Config, k: Core, now: nat): Core {
    var n := if k.idle.inFlight > 0 then k.idle.inFlight - 1 else 0;
    k.(idle := ArmIdle(cfg, k.idle.(inFlight := n), k.link.sink.Some?, now))
  }

  // ---- Slack side

  predicate StartsReader(k: Core) {
    !k.reader.started && !k.reader.closed
  }

  function EnsureStarted(k: Core, token: string): Core {
    k.(reader := k.reader.(appToken := token, started := k.reader.started || StartsReader(k)))
  }

  function Close(k: Core): Core {
    k.(reader := k.reader.(closed := true))
  }

  /** stampLocked: the frame for one delivery of `e`. */
  function Stamp(e: PendingEvent, id: string): Frame {
    Event(e.key, id, RewriteEnvelopeId(e.raw, id))
  }

  predicate NeedsResume(k: Link) {
    k.sink.None? && !k.resuming
  }

  predicate DeliversLive(k: Link) {
    k.sink.Some? && k.settled
  }

  function Receive(k: Mailbox, raw: Raw): Mailbox {
    k.(buffer := k.buffer + [PendingEvent(k.nextKey, raw)], nextKey := k.nextKey + 1)
  }

  /** Receiving an event and stamping it at once. */
  function ReceiveLive(k: Mailbox, raw: Raw, id: string): Mailbox {
    Receive(k, raw).(freshIds := k.freshIds[id := k.nextKey])
  }

  /** The critical section of onEvent; `id` is the envelope id it mints if it delivers at once. */
  function OnEvent(k: Core, raw: Raw, id: string): Core {
    k.(mail := if DeliversLive(k.link) then ReceiveLive(k.mail, raw, id) else Receive(k.mail, raw),
       link := k.link.(resuming := k.link.resuming || NeedsResume(k.link)))
  }

  function ResumeFailed(k: Core): Core {
    k.(link := k.link.(resuming := false))
  }

  // ---- Actor side

  /** The first critical section of Attach. */
  function Attach(k: Core, c: Conn): Core {
    k.(link := StopDeliver(k.link.(sink := Some(c), resuming := false, settled := false)))
  }

  /** The second critical section of Attach, entered only for a positive fallback delay. It
      overwrites `deliverTmr` without stopping what is there. */
  function ArmFallback(k: Core, c: Conn): Core {
    k.(link := k.link.(deliverTmr := Some(k.link.nextTimer),
                       pending := k.link.pending[k.link.nextTimer := c],
                       nextTimer := k.link.nextTimer + 1))
  }

  predicate Settles(k: Link, c: Conn) {
    k.sink == Some(c) && !k.settled
  }

  /** The frames of buildEventFramesLocked, one per buffered event. */
  function StampAll(es: seq<PendingEvent>, ids: seq<string>): (fs: seq<Frame>)
    requires |es| == |ids|
    ensures |fs| == |es|
    ensures forall i :: 0 <= i < |es| ==> fs[i] == Stamp(es[i], ids[i])
  {
    if es == [] then []
    else StampAll(es[..|es| - 1], ids[..|es| - 1]) + [Stamp(es[|es| - 1], ids[|es| - 1])]
  }

  /** The ids buildEventFramesLocked adds to `freshIDs`. */
  function RecordIds(m: map<string, nat>, es: seq<PendingEvent>, ids: seq<string>): map<string, nat>
    requires |es| == |ids|
  {
    if es == [] then m
    else RecordIds(m, es[..|es| - 1], ids[..|es| - 1])[ids[|es| - 1] := es[|es| - 1].key]
  }

  /** The critical section of deliverBufferedNow; `ids` are the envelope ids it mints. */
  function Deliver(k: Core, c: Conn, ids: seq<string>): Core
    requires Settles(k.link, c) ==> |ids| == |k.mail.buffer|
  {
    if !Settles(k.link, c) then k
    else k.(link := StopDeliver(k.link.(settled := true)),
            mail := k.mail.(freshIds := RecordIds(k.mail.freshIds, k.mail.buffer, ids)))
  }

  /** The buffer without the first event that has this key. */
  function RemoveKey(es: seq<PendingEvent>, key: nat): seq<PendingEvent> {
    if es == [] then []
    else if es[0].key == key then es[1..]
    else [es[0]] + RemoveKey(es[1..], key)
  }

  function WithoutKey(m: map<string, nat>, key: nat): map<string, nat> {
    map id | id in m && m[id] != key :: m[id]
  }

  /** Ack takes effect for an id the session knows; the empty id and unknown ids change nothing. */
  predicate KnowsId(k: Mailbox, id: string) {
    id != "" && id in k.freshIds
  }

  function Drop(k: Mailbox, key: nat): Mailbox {
    k.(buffer := RemoveKey(k.buffer, key), freshIds := WithoutKey(k.freshIds, key))
  }

  function Ack(cfg: Config, k: Core, id: string, now: nat): Core {
    if !KnowsId(k.mail, id) then k
    else NoteActivity(cfg, k.(mail := Drop(k.mail, k.mail.freshIds[id])), now)
  }

  function Detach(k: Core, c: Conn): Core {
    if k.link.sink != Some(c) then k
    else k.(link := StopDeliver(k.link.(sink := None, settled := false)),
            idle := StopIdle(k.idle.(suspending := false, inFlight := 0)))
  }

  // ---- Registry

  /** The sessions on file after GetOrCreate. */
  function WithSession(sessions: map<ActorRef, Core>, ref: ActorRef): map<ActorRef, Core> {
    if ref in sessions then sessions else sessions[ref := NEW_SESSION]
  }
}
