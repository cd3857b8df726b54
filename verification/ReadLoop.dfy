/** The loop of cmd/egress-broker/registry.go that reads Slack frames until the connection ends. What
    the outside answers (frames read, acks accepted) comes in as parameters. */
module ReadLoop {
  import opened SocketMode
  import opened SessionCore
  import opened SessionObject

  /** One `SlackConn.Read`: a transport error, or a message (whose decoding may still fail, which
      surfaces as a read error too). */
  datatype SlackRead = Broken | Message(raw: Raw)

  /** The read that ends the loop. */
  predicate EndsLoop(r: SlackRead) {
    || r.Broken?
    || DecodeEnvelope(r.raw).Err?
    || DecodeEnvelope(r.raw).value.kind == TYPE_DISCONNECT
  }

  predicate DeliversEvent(r: SlackRead) {
    r.Message? && IsEventFrame(r.raw)
  }

  /** The loop ends at a transport error, at text that is no decodable envelope, and at an envelope
      of type disconnect. */
  lemma EndsLoopIff(r: SlackRead)
    ensures EndsLoop(r) <==>
            || r.Broken? || r.raw.NotJson?
            || (r.raw.value != Null && !r.raw.value.Obj?)
            || (&& r.raw.value.Obj?
                && (|| !Decodable(r.raw.value.members)
                    || ("type" in r.raw.value.members && r.raw.value.members["type"] == Str("disconnect"))))
  {
    if r.Message? {
      DecodeOutcomes(r.raw);
      hide DecodeEnvelope;
    }
  }

  /** What is acknowledged to Slack for an event frame is the string at its envelope_id. */
  lemma EventEnvelopeId(raw: Raw)
    requires IsEventFrame(raw)
    ensures raw.Text? && raw.value.Obj? && EnvelopeId(raw) == TextAt(raw.value.members, "envelope_id")
  {
    EventFrameIff(raw);
    DecodeOutcomes(raw);
  }

  /** The reads before the first one that ends the loop. */
  function UpToEnd(stream: seq<SlackRead>): (rs: seq<SlackRead>)
    ensures rs <= stream && forall i :: 0 <= i < |rs| ==> !EndsLoop(rs[i])
    ensures |rs| < |stream| ==> EndsLoop(stream[|rs|])
  {
    if stream == [] || EndsLoop(stream[0]) then [] else [stream[0]] + UpToEnd(stream[1..])
  }

  /** The event frames among them, in order. */
  function Events(rs: seq<SlackRead>): (raws: seq<Raw>)
    ensures forall i :: 0 <= i < |raws| ==> IsEventFrame(raws[i])
  {
    if rs == [] then []
    else Events(rs[..|rs| - 1]) + (if DeliversEvent(rs[|rs| - 1]) then [rs[|rs| - 1].raw] else [])
  }

  /** Selecting events is done read by read: a stream in two parts gives the events of both, and a
      single read gives its frame exactly if that is an event. */
  lemma {:induction false} EventsOfParts(a: seq<SlackRead>, b: seq<SlackRead>)
    ensures Events(a + b) == Events(a) + Events(b)
    decreases |b|
  {
    if b == [] {
      assert a + b == a;
    } else {
      var n := |b| - 1;
      assert (a + b)[..|a| + n] == a + b[..n];
      EventsOfParts(a, b[..n]);
    }
  }

  lemma EventsOfOne(r: SlackRead)
    ensures Events([r]) == if r.Message? && IsEventFrame(r.raw) then [r.raw] else []
  {
    assert [r][..0] == [];
  }

  function EnvelopeId(raw: Raw): string {
    if DecodeEnvelope(raw).Ok? then DecodeEnvelope(raw).value.envelopeId else ""
  }

  /** What the loop does to the outside: acknowledge an envelope to Slack, hand a frame to onEvent. */
  datatype Action = AckSlack(id: string) | HandOn(raw: Raw)

  /** For each event in turn, its ack to Slack and only then its delivery. */
  function Actions(raws: seq<Raw>): (acts: seq<Action>)
    ensures |acts| == 2 * |raws|
    ensures forall i :: 0 <= i < |raws| ==>
              acts[2 * i] == AckSlack(EnvelopeId(raws[i])) && acts[2 * i + 1] == HandOn(raws[i])
  {
    if raws == [] then []
    else
      var n := |raws| - 1;
      Actions(raws[..n]) + [AckSlack(EnvelopeId(raws[n])), HandOn(raws[n])]
  }

  /** The session after a sequence of events, with nothing in between. */
  function AfterEvents(k: Core, raws: seq<Raw>, ids: seq<string>): Core
    requires |raws| <= |ids|
  {
    if raws == [] then k
    else SessionCore.OnEvent(AfterEvents(k, raws[..|raws| - 1], ids), raws[|raws| - 1], ids[|raws| - 1])
  }

  /** How many of the first `n` answers are refusals. */
  function Refused(answers: seq<bool>, n: nat): nat
    requires n <= |answers|
  {
    if n == 0 then 0 else Refused(answers, n - 1) + (if answers[n - 1] then 0 else 1)
  }

  lemma NextRefused(answers: seq<bool>, n: nat)
    requires n < |answers|
    ensures Refused(answers, n + 1) == Refused(answers, n) + (if answers[n] then 0 else 1)
  {
  }

  /** The read loop is a filter: for every stream of frames, and whether or not Slack accepts the
      acks, it attempts an ack for and then hands to onEvent exactly the event frames before the
      first disconnect, read error or stop, in order. `stopAfter` is how many reads happen before
      `stop` is found closed, `ackAccepted` is Slack's answer to each ack, of which only the number of
      refusals is noticed, and `ids` are the ids onEvent may mint. */
  method ReadSlackUntilClose(s: Session, stream: seq<SlackRead>, stopAfter: nat, ackAccepted: seq<bool>,
                             ids: seq<string>)
    returns (trace: seq<Action>, warnings: nat, ghost handed: seq<Raw>)
    requires stopAfter <= |stream| <= |ids| && |ackAccepted| == |stream|
    modifies s
    ensures handed == Events(UpToEnd(stream[..stopAfter])) && |handed| <= |stream|
    ensures trace == Actions(handed) && warnings == Refused(ackAccepted, |handed|)
    ensures s.Value() == AfterEvents(old(s.Value()), handed, ids)
  {
    trace, warnings, handed := [], 0, [];
    var i, events := 0, 0;
    ghost var all := stream[..stopAfter];
    assert SoFar(old(s.Value()), ids, all, i, handed, trace, s.Value());
    assert Refused(ackAccepted, 0) == 0;
    hide Refused, SessionCore.OnEvent, SoFar, UpToEnd, Events, Actions, AfterEvents, Stamp, EndsLoop, DeliversEvent,
      IsConnectionManagement, IsEvent, DecodeEnvelope, EnvelopeId;
    while i < stopAfter
      invariant 0 <= i <= stopAfter && events == |handed| <= i && warnings == Refused(ackAccepted, events)
      invariant SoFar(old(s.Value()), ids, all, i, handed, trace, s.Value())
    {
      var r := stream[i];
      Classify(r);
      if r.Broken? || DecodeEnvelope(r.raw).Err? {
        LoopEnds(old(s.Value()), ids, all, i, handed, trace, s.Value());
        return;
      }
      var env := DecodeEnvelope(r.raw).value;
      if IsConnectionManagement(env) {
        if env.kind == TYPE_DISCONNECT {
          LoopEnds(old(s.Value()), ids, all, i, handed, trace, s.Value());
          return;
        }
        SkipsRead(old(s.Value()), ids, all, i, handed, trace, s.Value());
      } else if IsEvent(env) {
        TakesEvent(old(s.Value()), ids, all, i, handed, trace, s.Value());
        NextRefused(ackAccepted, events);
        var acts, warned := TakeEvent(s, r.raw, env.envelopeId, ackAccepted[events], ids[events]);
        trace := trace + acts;
        warnings := warnings + warned;
        handed := handed + [r.raw];
        events := events + 1;
      } else {
        SkipsRead(old(s.Value()), ids, all, i, handed, trace, s.Value());
      }
      i := i + 1;
    }
    LoopEnds(old(s.Value()), ids, all, i, handed, trace, s.Value());
  }

  /** The event branch of the loop: ack to Slack, note a refusal, hand on. */
  method TakeEvent(s: Session, raw: Raw, envelopeId: string, accepted: bool, id: string)
    returns (acts: seq<Action>, warned: nat)
    modifies s
    ensures acts == [AckSlack(envelopeId), HandOn(raw)] && warned == if accepted then 0 else 1
    ensures s.Value() == SessionCore.OnEvent(old(s.Value()), raw, id)
  {
    acts := [AckSlack(envelopeId)];
    warned := 0;
    if !accepted {
      warned := 1;
    }
    var target, frames, needResume := s.OnEvent(raw, id);
    acts := acts + [HandOn(raw)];
  }

  /** After `i` reads: `k0` has become `k`. */
  ghost predicate SoFar(k0: Core, ids: seq<string>, all: seq<SlackRead>, i: nat, handed: seq<Raw>,
                        trace: seq<Action>, k: Core)
  {
    && i <= |all| <= |ids| && |handed| <= i
    && (forall j :: 0 <= j < i ==> !EndsLoop(all[j]))
    && handed == Events(all[..i]) && trace == Actions(handed) && k == AfterEvents(k0, handed, ids)
  }

  lemma SkipsRead(k0: Core, ids: seq<string>, all: seq<SlackRead>, i: nat, handed: seq<Raw>,
                  trace: seq<Action>, k: Core)
    requires SoFar(k0, ids, all, i, handed, trace, k) && i < |all| && !EndsLoop(all[i]) && !DeliversEvent(all[i])
    ensures SoFar(k0, ids, all, i + 1, handed, trace, k)
  {
    hide EndsLoop, AfterEvents, Actions;
    NextRead(all, i);
  }

  lemma TakesEvent(k0: Core, ids: seq<string>, all: seq<SlackRead>, i: nat, handed: seq<Raw>,
                   trace: seq<Action>, k: Core)
    requires SoFar(k0, ids, all, i, handed, trace, k) && i < |all| && !EndsLoop(all[i]) && DeliversEvent(all[i])
    ensures |handed| <= i < |ids|
    ensures SoFar(k0, ids, all, i + 1, handed + [all[i].raw],
                  trace + [AckSlack(EnvelopeId(all[i].raw)), HandOn(all[i].raw)],
                  SessionCore.OnEvent(k, all[i].raw, ids[|handed|]))
  {
    hide EndsLoop, AfterEvents, Actions, SessionCore.OnEvent, EnvelopeId;
    NextRead(all, i);
    NextEvent(k0, handed, all[i].raw, ids);
  }

  lemma LoopEnds(k0: Core, ids: seq<string>, all: seq<SlackRead>, i: nat, handed: seq<Raw>,
                 trace: seq<Action>, k: Core)
    requires SoFar(k0, ids, all, i, handed, trace, k) && (i == |all| || EndsLoop(all[i]))
    ensures handed == Events(UpToEnd(all)) && trace == Actions(handed) && |handed| <= |all|
    ensures k == AfterEvents(k0, handed, ids)
  {
    hide EndsLoop, AfterEvents, Actions;
    UpToEndIs(all, i);
  }

  /** The branches of the loop, read by read. */
  lemma Classify(r: SlackRead)
    ensures r.Broken? || DecodeEnvelope(r.raw).Err? ==> EndsLoop(r)
    ensures r.Message? && DecodeEnvelope(r.raw).Ok? ==>
              var env := DecodeEnvelope(r.raw).value;
              && (EndsLoop(r) <==> IsConnectionManagement(env) && env.kind == TYPE_DISCONNECT)
              && (DeliversEvent(r) <==> !IsConnectionManagement(env) && IsEvent(env))
              && EnvelopeId(r.raw) == env.envelopeId
  {
  }

  lemma NextRead(stream: seq<SlackRead>, i: nat)
    requires i < |stream|
    ensures Events(stream[..i + 1]) == Events(stream[..i]) + (if DeliversEvent(stream[i]) then [stream[i].raw] else [])
  {
    assert stream[..i + 1][..i] == stream[..i];
  }

  lemma NextEvent(k: Core, raws: seq<Raw>, raw: Raw, ids: seq<string>)
    requires |raws| < |ids|
    ensures AfterEvents(k, raws + [raw], ids) == SessionCore.OnEvent(AfterEvents(k, raws, ids), raw, ids[|raws|])
    ensures Actions(raws + [raw]) == Actions(raws) + [AckSlack(EnvelopeId(raw)), HandOn(raw)]
  {
    assert (raws + [raw])[..|raws|] == raws;
  }

  lemma {:induction false} UpToEndIs(stream: seq<SlackRead>, n: nat)
    requires n <= |stream| && (forall j :: 0 <= j < n ==> !EndsLoop(stream[j]))
    requires n == |stream| || EndsLoop(stream[n])
    ensures UpToEnd(stream) == stream[..n]
  {
    if n > 0 {
      UpToEndIs(stream[1..], n - 1);
      assert stream[..n] == [stream[0]] + stream[1..][..n - 1];
    }
  }

  function Numbered(raws: seq<Raw>, first: nat): seq<PendingEvent> {
    seq(|raws|, i requires 0 <= i < |raws| => PendingEvent(first + i, raws[i]))
  }

  /** What a stream does to the session: its events are appended to the buffer in order under
      consecutive keys; a stream without events changes nothing, so keepalive never wakes an actor. */
  lemma {:induction false} StreamOnlyAppends(k: Core, raws: seq<Raw>, ids: seq<string>)
    requires |raws| <= |ids|
    ensures var k' := AfterEvents(k, raws, ids);
            && k'.mail.nextKey == k.mail.nextKey + |raws|
            && k'.mail.buffer == k.mail.buffer + Numbered(raws, k.mail.nextKey)
            && k'.link == k.link.(resuming := k.link.resuming || (raws != [] && k.link.sink.None?))
            && k'.idle == k.idle && k'.reader == k.reader
    ensures raws == [] ==> AfterEvents(k, raws, ids) == k
  {
    if raws != [] {
      var n := |raws| - 1;
      StreamOnlyAppends(k, raws[..n], ids);
    }
  }
}
