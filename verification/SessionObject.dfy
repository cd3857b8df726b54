/** The `session` and `Registry` objects of cmd/egress-broker/registry.go. Each method is one
    critical section of `mu`, or one of the loops of the source, and is proved against the
    functions of SessionCore; ids that `randID` mints and the current time are parameters. */
module SessionObject {
  import opened Wrappers
  import opened SocketMode
  import opened Identity
  import opened LogRefinement
  import opened SessionCore

  class Session {
    const ref: ActorRef
    const cfg: Config

    var appToken: string
    var started: bool
    var closed: bool

    var sink: Option<Conn>
    var resuming: bool
    var buffer: seq<PendingEvent>
    var nextKey: nat
    var freshIds: map<string, nat>
    var settled: bool
    var deliverTmr: Option<nat>
    var idleTmr: Option<nat>
    var inFlight: nat
    var suspending: bool

    // What the runtime has pending: fallback deliveries and idle countdowns.
    var nextDeliverTimer: nat
    var deliverPending: map<nat, Conn>
    var nextIdleTimer: nat
    var idlePending: map<nat, nat>

    /** The fields as a value. */
    function Value(): Core
      reads this
    {
      Core(ReaderFields(appToken, started, closed),
           Mailbox(buffer, nextKey, freshIds),
           Link(sink, resuming, settled, deliverTmr, nextDeliverTimer, deliverPending),
           Idle(inFlight, suspending, idleTmr, nextIdleTimer, idlePending))
    }

    constructor (ref: ActorRef, cfg: Config)
      ensures Value() == NEW_SESSION && this.ref == ref && this.cfg == cfg
    {
      this.ref, this.cfg := ref, cfg;
      appToken, started, closed := "", false, false;
      sink, resuming, settled := None, false, false;
      buffer, nextKey, freshIds := [], 0, map[];
      deliverTmr, nextDeliverTimer, deliverPending := None, 0, map[];
      idleTmr, nextIdleTimer, idlePending, inFlight, suspending := None, 0, map[], 0, false;
    }

    // ---- Timers

    method StopDeliverTimer()
      modifies this
      ensures Value() == old(Value()).(link := StopDeliver(old(Value()).link))
    {
      if deliverTmr.Some? {
        deliverPending := deliverPending - {deliverTmr.value};
        deliverTmr := None;
      }
    }

    method StopIdleTimer()
      modifies this
      ensures Value() == old(Value()).(idle := StopIdle(old(Value()).idle))
    {
      if idleTmr.Some? {
        idlePending := idlePending - {idleTmr.value};
        idleTmr := None;
      }
    }

    // ---- Idle suspend and forwards

    method ArmIdleLocked(now: nat)
      modifies this
      ensures Value() == SessionCore.NoteActivity(cfg, old(Value()), now)
    {
      StopIdleTimer();
      if sink.None? || suspending || inFlight > 0 || cfg.idleGrace <= 0 {
        return;
      }
      idlePending := idlePending[nextIdleTimer := now];
      idleTmr := Some(nextIdleTimer);
      nextIdleTimer := nextIdleTimer + 1;
    }

    method OnIdle() returns (suspend: bool)
      modifies this
      ensures Value() == SessionCore.OnIdle(old(Value())) && suspend == SuspendsNow(old(Value()))
    {
      if sink.None? || suspending || inFlight > 0 {
        return false;
      }
      suspending := true;
      return true;
    }

    method SuspendFailed(now: nat)
      modifies this
      ensures Value() == SessionCore.SuspendFailed(cfg, old(Value()), now)
    {
      suspending := false;
      ArmIdleLocked(now);
    }

    method BeginForward()
      modifies this
      ensures Value() == SessionCore.BeginForward(old(Value()))
    {
      inFlight := inFlight + 1;
      StopIdleTimer();
    }

    method EndForward(now: nat)
      modifies this
      ensures Value() == SessionCore.EndForward(cfg, old(Value()), now)
    {
      if inFlight > 0 {
        inFlight := inFlight - 1;
      }
      ArmIdleLocked(now);
    }

    // ---- Slack side

    method EnsureStarted(token: string) returns (startReader: bool)
      modifies this
      ensures Value() == SessionCore.EnsureStarted(old(Value()), token) && startReader == StartsReader(old(Value()))
      ensures appToken == token && started == (old(started) || !old(closed))
      ensures startReader == (started && !old(started))
    {
      appToken := token;
      if started || closed {
        return false;
      }
      started := true;
      return true;
    }

    method Close()
      modifies this
      ensures Value() == SessionCore.Close(old(Value())) && closed
    {
      if closed {
        return;
      }
      closed := true;
    }

    method StampLocked(e: PendingEvent, id: string) returns (frame: Frame)
      modifies this
      ensures frame == Stamp(e, id)
      ensures Value() == old(Value()).(mail := old(Value()).mail.(freshIds := old(freshIds)[id := e.key]))
    {
      freshIds := freshIds[id := e.key];
      frame := Event(e.key, id, RewriteEnvelopeId(e.raw, id));
    }

    /** What onEvent does next: write `frames` to the connection, or resume the actor. */
    method OnEvent(raw: Raw, id: string) returns (target: Option<Conn>, frames: seq<Frame>, needResume: bool)
      modifies this
      ensures Value() == SessionCore.OnEvent(old(Value()), raw, id)
      ensures target == old(sink) && needResume == NeedsResume(old(Value()).link)
      ensures frames == if DeliversLive(old(Value()).link) then [Stamp(PendingEvent(old(nextKey), raw), id)] else []
    {
      var pe := PendingEvent(nextKey, raw);
      nextKey := nextKey + 1;
      buffer := buffer + [pe];
      target := sink;
      needResume := sink.None? && !resuming;
      if needResume {
        resuming := true;
      }
      frames := [];
      if sink.Some? && settled {
        var frame := StampLocked(pe, id);
        frames := [frame];
      }
    }

    method ResumeFailed()
      modifies this
      ensures Value() == SessionCore.ResumeFailed(old(Value()))
    {
      resuming := false;
    }

    // ---- Actor side

    method Attach(c: Conn) returns (buffered: nat)
      modifies this
      ensures Value() == SessionCore.Attach(old(Value()), c) && buffered == |old(buffer)|
    {
      sink := Some(c);
      resuming := false;
      settled := false;
      StopDeliverTimer();
      buffered := |buffer|;
    }

    method ArmFallback(c: Conn)
      modifies this
      ensures Value() == SessionCore.ArmFallback(old(Value()), c)
    {
      deliverPending := deliverPending[nextDeliverTimer := c];
      deliverTmr := Some(nextDeliverTimer);
      nextDeliverTimer := nextDeliverTimer + 1;
    }

    method BuildEventFramesLocked(ids: seq<string>) returns (frames: seq<Frame>)
      requires |ids| == |buffer|
      modifies this
      ensures frames == StampAll(old(buffer), ids)
      ensures Value() ==
              old(Value()).(mail := old(Value()).mail.(freshIds := RecordIds(old(freshIds), old(buffer), ids)))
    {
      frames := [];
      ghost var es := buffer;
      for i := 0 to |buffer|
        invariant buffer == es && |ids| == |es|
        invariant frames == StampAll(es[..i], ids[..i])
        invariant Value() ==
                  old(Value()).(mail := old(Value()).mail.(freshIds := RecordIds(old(freshIds), es[..i], ids[..i])))
      {
        var frame := StampLocked(buffer[i], ids[i]);
        frames := frames + [frame];
        assert es[..i + 1][..i] == es[..i] && ids[..i + 1][..i] == ids[..i];
      }
      assert es[..|es|] == es && ids[..|es|] == ids;
    }

    method DeliverBufferedNow(c: Conn, ids: seq<string>) returns (frames: Option<seq<Frame>>)
      requires Settles(Value().link, c) ==> |ids| == |buffer|
      modifies this
      ensures Value() == SessionCore.Deliver(old(Value()), c, ids)
      ensures frames == if Settles(old(Value()).link, c) then Some(StampAll(old(buffer), ids)) else None
    {
      if sink != Some(c) || settled {
        return None;
      }
      settled := true;
      StopDeliverTimer();
      var built := BuildEventFramesLocked(ids);
      frames := Some(built);
    }

    method Ack(id: string, now: nat)
      modifies this
      ensures Value() == SessionCore.Ack(cfg, old(Value()), id, now)
    {
      if id == "" || id !in freshIds {
        return;
      }
      var key := freshIds[id];
      RemoveBuffered(key);
      ForgetIds(key);
      ArmIdleLocked(now);
    }

    /** The first loop of Ack: splice the acknowledged event out of the buffer. */
    method RemoveBuffered(key: nat)
      modifies this`buffer
      ensures buffer == RemoveKey(old(buffer), key)
    {
      var i := 0;
      while i < |buffer|
        invariant 0 <= i <= |buffer| && buffer == old(buffer)
        invariant forall j :: 0 <= j < i ==> buffer[j].key != key
      {
        if buffer[i].key == key {
          RemoveFromConcat(buffer[..i], buffer[i..], key);
          assert buffer[..i] + buffer[i..] == buffer && buffer[i..][1..] == buffer[i + 1..];
          buffer := buffer[..i] + buffer[i + 1..];
          return;
        }
        i := i + 1;
      }
      RemoveAbsent(buffer, key);
    }

    /** The second loop of Ack: drop every minted id that pointed at the acknowledged event. */
    method ForgetIds(key: nat)
      modifies this`freshIds
      ensures freshIds == WithoutKey(old(freshIds), key)
    {
      var rest := freshIds.Keys;
      while rest != {}
        invariant rest <= old(freshIds).Keys
        invariant freshIds ==
                  map id | id in old(freshIds) && (id in rest || old(freshIds)[id] != key) :: old(freshIds)[id]
        decreases rest
      {
        var id :| id in rest;
        rest := rest - {id};
        if freshIds[id] == key {
          freshIds := freshIds - {id};
        }
      }
    }

    method Detach(c: Conn)
      modifies this
      ensures Value() == SessionCore.Detach(old(Value()), c)
    {
      if sink == Some(c) {
        sink := None;
        settled := false;
        suspending := false;
        inFlight := 0;
        StopDeliverTimer();
        StopIdleTimer();
      }
    }
  }

  // ---- Registry

  class Registry {
    const cfg: Config
    var sessions: map<ActorRef, Session>

    /** Each session belongs to the actor it is filed under, so no two actors share one. */
    ghost predicate Valid()
      reads this
    {
      forall ref :: ref in sessions ==> sessions[ref].ref == ref && sessions[ref].cfg == cfg
    }

    /** The sessions on file, as values. */
    ghost function Value(): map<ActorRef, Core>
      reads this, sessions.Values
    {
      map ref | ref in sessions :: sessions[ref].Value()
    }

    constructor (cfg: Config)
      ensures Valid() && sessions == map[] && this.cfg == cfg
    {
      this.cfg := cfg;
      sessions := map[];
    }

    method GetOrCreate(ref: ActorRef) returns (s: Session)
      requires Valid()
      modifies this
      ensures Valid() && s.ref == ref && ref in sessions && sessions[ref] == s
      ensures Value() == WithSession(old(Value()), ref)
      ensures ref in old(sessions) ==> s == old(sessions)[ref] && sessions == old(sessions)
      ensures ref !in old(sessions) ==> fresh(s) && s.Value() == NEW_SESSION && sessions == old(sessions)[ref := s]
    {
      if ref in sessions {
        s := sessions[ref];
      } else {
        s := new Session(ref, cfg);
        sessions := sessions[ref := s];
      }
    }

    method Lookup(ref: ActorRef) returns (s: Option<Session>)
      requires Valid()
      ensures s.Some? <==> ref in sessions
      ensures s.Some? ==> s.value == sessions[ref] && s.value.ref == ref
    {
      s := if ref in sessions then Some(sessions[ref]) else None;
    }
  }
}
