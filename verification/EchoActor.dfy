/** The echo actor's de-duplication (echo-actor/app.js: `firstTime`, `echoReply`), which absorbs the
    broker's redeliveries. Times are in milliseconds. */
module EchoActor {
  import opened SocketMode

  const FORGET_AFTER: nat := 60_000

  /** The fields of a Slack event the actor looks at; an absent field is the empty string. */
  datatype SlackEvent = SlackEvent(kind: string, ts: string, botId: string, subtype: string)

  function Field(j: Json, name: string): Json {
    if j.Obj? && name in j.members then j.members[name] else Null
  }

  function TextField(j: Json, name: string): string {
    if Field(j, name).Str? then Field(j, name).s else ""
  }

  /** The event inside a delivered envelope. */
  function EventIn(env: Envelope): SlackEvent {
    var e := if env.payload.Some? then Field(env.payload.value, "event") else Null;
    SlackEvent(TextField(e, "type"), TextField(e, "ts"), TextField(e, "bot_id"), TextField(e, "subtype"))
  }

  /** The two kinds the actor listens for. */
  predicate Handled(e: SlackEvent) {
    e.kind == "message" || e.kind == "app_mention"
  }

  predicate WorthEchoing(e: SlackEvent) {
    e.botId == "" && e.subtype == ""
  }

  /** The actor process. `due` is when the timer that forgets a timestamp may run. */
  class Actor {
    var echoed: set<string>
    var due: map<string, nat>

    ghost predicate Valid()
      reads this
    {
      echoed == due.Keys && "" !in echoed
    }

    constructor ()
      ensures Valid() && echoed == {}
    {
      echoed, due := {}, map[];
    }

    method FirstTime(ts: string, now: nat) returns (first: bool)
      requires Valid()
      modifies this
      ensures Valid()
      ensures first == (ts != "" && ts !in old(due))
      ensures due == if first then old(due)[ts := now + 60_000] else old(due)
    {
      if ts == "" || ts in echoed {
        return false;
      }
      echoed := echoed + {ts};
      due := due[ts := now + FORGET_AFTER];
      return true;
    }

    method EchoReply(e: SlackEvent, now: nat) returns (said: bool)
      requires Valid()
      modifies this
      ensures Valid()
      ensures said == Accepts(old(due), e) && due == Remember(old(due), e, now)
      ensures said <==> e.botId == "" && e.subtype == "" && e.ts != "" && e.ts !in old(due)
      ensures !said ==> due == old(due)
    {
      if e.botId != "" || e.subtype != "" {
        return false;
      }
      said := FirstTime(e.ts, now);
    }

    /** The timer set by firstTime. */
    method Forget(ts: string)
      requires Valid()
      modifies this
      ensures Valid() && due == old(due) - {ts}
    {
      echoed := echoed - {ts};
      due := due - {ts};
    }
  }

  /** Whether an event delivered now is answered, and what is remembered afterwards. */
  predicate Accepts(due: map<string, nat>, e: SlackEvent) {
    WorthEchoing(e) && e.ts != "" && e.ts !in due
  }

  function Remember(due: map<string, nat>, e: SlackEvent, now: nat): map<string, nat> {
    if Accepts(due, e) then due[e.ts := now + FORGET_AFTER] else due
  }

  // ---- Whole runs of one actor process

  datatype Reply = Reply(ts: string, at: nat)

  /** History: the replies given; the timestamps whose timer has run; whether an event came again
      after its timestamp had been forgotten. */
  datatype EchoState = EchoState(
    due: map<string, nat>,
    now: nat,
    replies: seq<Reply>,
    forgotten: set<string>,
    cameLate: bool)

  const NEW_PROCESS := EchoState(map[], 0, [], {}, false)

  /** A frame arrives (delivered or redelivered), a forgetting timer runs, time passes. */
  datatype EchoLabel = EDeliver(raw: Raw) | EForget(ts: string) | ETick(elapsed: nat)

  predicate EchoEnabled(s: EchoState, l: EchoLabel) {
    l.EForget? ==> l.ts in s.due && s.due[l.ts] <= s.now
  }

  /** The event a frame brings to the handlers. */
  function EventOf(raw: Raw): SlackEvent {
    EventIn(if DecodeEnvelope(raw).Ok? then DecodeEnvelope(raw).value else EMPTY_ENVELOPE)
  }

  function Deliver(s: EchoState, e: SlackEvent): EchoState {
    if !Handled(e) || !WorthEchoing(e) then s
    else s.(due := Remember(s.due, e, s.now),
            replies := if Accepts(s.due, e) then s.replies + [Reply(e.ts, s.now)] else s.replies,
            cameLate := s.cameLate || e.ts in s.forgotten)
  }

  function EchoStep(s: EchoState, l: EchoLabel): EchoState {
    match l
    case EDeliver(raw) => Deliver(s, EventOf(raw))
    case EForget(ts) => s.(due := s.due - {ts}, forgotten := s.forgotten + {ts})
    case ETick(d) => s.(now := s.now + d)
  }

  predicate IsEchoRun(s: EchoState, ls: seq<EchoLabel>)
    decreases |ls|
  {
    ls == [] || (EchoEnabled(s, ls[0]) && IsEchoRun(EchoStep(s, ls[0]), ls[1..]))
  }

  function AfterEcho(s: EchoState, ls: seq<EchoLabel>): EchoState
    requires IsEchoRun(s, ls)
    decreases |ls|
  {
    if ls == [] then s else AfterEcho(EchoStep(s, ls[0]), ls[1..])
  }

  predicate Spaced(replies: seq<Reply>) {
    forall i, j :: 0 <= i < j < |replies| && replies[i].ts == replies[j].ts ==>
      replies[i].at + 60_000 <= replies[j].at
  }

  ghost predicate EachOnce(replies: seq<Reply>) {
    forall i, j :: 0 <= i < j < |replies| ==> replies[i].ts != replies[j].ts
  }

  ghost predicate Replied(replies: seq<Reply>, ts: string) {
    exists i :: 0 <= i < |replies| && replies[i].ts == ts
  }

  /** A reply is remembered until its time is up. */
  ghost predicate SpacingInv(s: EchoState) {
    && Spaced(s.replies)
    && (forall i :: 0 <= i < |s.replies| ==>
          && (s.replies[i].at + FORGET_AFTER <= s.now || s.replies[i].ts in s.due)
          && (s.replies[i].ts in s.due ==> s.replies[i].at + FORGET_AFTER <= s.due[s.replies[i].ts]))
    && (forall ts :: ts in s.due ==> RepliedAt(s.replies, ts, s.due[ts]))
  }

  /** Some reply to `ts` is to be forgotten at `due`. */
  ghost predicate RepliedAt(replies: seq<Reply>, ts: string, due: nat) {
    exists i :: 0 <= i < |replies| && replies[i].ts == ts && replies[i].at + FORGET_AFTER == due
  }

  lemma RepliedAtMore(replies: seq<Reply>, r: Reply)
    ensures forall ts, due :: RepliedAt(replies, ts, due) ==> RepliedAt(replies + [r], ts, due)
    ensures RepliedAt(replies + [r], r.ts, r.at + FORGET_AFTER)
  {
    var more := replies + [r];
    forall ts, due | RepliedAt(replies, ts, due) ensures RepliedAt(more, ts, due) {
      var i :| 0 <= i < |replies| && replies[i].ts == ts && replies[i].at + FORGET_AFTER == due;
      assert more[i] == replies[i];
    }
    assert more[|replies|] == r;
  }

  /** What has been answered is exactly what is remembered or forgotten. */
  ghost predicate MemoryInv(s: EchoState) {
    && (forall ts :: Replied(s.replies, ts) <==> ts in s.due || ts in s.forgotten)
    && (forall ts :: ts in s.due && ts in s.forgotten ==> s.cameLate)
    && (EachOnce(s.replies) <==> !s.cameLate)
    && "" !in s.due && "" !in s.forgotten
  }

  lemma RepliedMore(replies: seq<Reply>, r: Reply)
    ensures forall ts :: Replied(replies + [r], ts) <==> Replied(replies, ts) || ts == r.ts
    ensures EachOnce(replies + [r]) <==> EachOnce(replies) && !Replied(replies, r.ts)
  {
    var more := replies + [r];
    forall ts ensures Replied(more, ts) <==> Replied(replies, ts) || ts == r.ts {
      assert more[|replies|].ts == r.ts;
      if Replied(replies, ts) {
        var i :| 0 <= i < |replies| && replies[i].ts == ts;
        assert more[i].ts == ts;
      }
    }
    if EachOnce(more) {
      assert forall i :: 0 <= i < |replies| ==> more[i] == replies[i] && more[i].ts != more[|replies|].ts;
    }
  }

  lemma DeliverKeepsMemory(s: EchoState, e: SlackEvent)
    requires MemoryInv(s)
    ensures MemoryInv(Deliver(s, e))
  {
    hide EachOnce, Replied;
    RepliedMore(s.replies, Reply(e.ts, s.now));
  }

  lemma EchoStepKeepsInv(s: EchoState, l: EchoLabel)
    requires SpacingInv(s) && MemoryInv(s) && EchoEnabled(s, l)
    ensures SpacingInv(EchoStep(s, l)) && MemoryInv(EchoStep(s, l))
  {
    hide DecodeEnvelope, EventIn, EachOnce, Replied, RepliedAt;
    if l.EDeliver? {
      DeliverKeepsMemory(s, EventOf(l.raw));
      RepliedAtMore(s.replies, Reply(EventOf(l.raw).ts, s.now));
    }
  }

  lemma {:induction false} EchoRunKeepsInv(s: EchoState, ls: seq<EchoLabel>)
    requires SpacingInv(s) && MemoryInv(s) && IsEchoRun(s, ls)
    ensures SpacingInv(AfterEcho(s, ls)) && MemoryInv(AfterEcho(s, ls))
    decreases |ls|
  {
    hide SpacingInv, MemoryInv, EchoEnabled, EchoStep;
    if ls != [] {
      EchoStepKeepsInv(s, ls[0]);
      EchoRunKeepsInv(EchoStep(s, ls[0]), ls[1..]);
    }
  }

  // ---- Late deliveries, read off the run itself

  /** The label brings the handlers an event worth echoing under this timestamp. */
  predicate Brings(l: EchoLabel, ts: string) {
    l.EDeliver? && Handled(EventOf(l.raw)) && WorthEchoing(EventOf(l.raw)) && EventOf(l.raw).ts == ts
  }

  /** Some timestamp's timer runs, and an event worth echoing comes under it afterwards. */
  ghost predicate CameLate(ls: seq<EchoLabel>) {
    exists j, k :: 0 <= j < k < |ls| && ls[j].EForget? && Brings(ls[k], ls[j].ts)
  }

  /** Some event worth echoing comes under one of these timestamps. */
  ghost predicate BringsAny(ls: seq<EchoLabel>, tss: set<string>) {
    exists k, ts :: 0 <= k < |ls| && ts in tss && Brings(ls[k], ts)
  }

  lemma BringsAnyFirst(l: EchoLabel, rest: seq<EchoLabel>, tss: set<string>)
    ensures BringsAny([l] + rest, tss) <==> BringsAny(rest, tss) || exists ts :: ts in tss && Brings(l, ts)
  {
    hide Brings;
    var ls := [l] + rest;
    if k, ts :| 0 <= k < |rest| && ts in tss && Brings(rest[k], ts) {
      assert ls[k + 1] == rest[k];
    }
    if ts :| ts in tss && Brings(l, ts) {
      assert ls[0] == l;
    }
    if k, ts :| 0 <= k < |ls| && ts in tss && Brings(ls[k], ts) {
      assert k > 0 ==> ls[k] == rest[k - 1];
    }
  }

  lemma CameLateFirst(l: EchoLabel, rest: seq<EchoLabel>)
    ensures CameLate([l] + rest) <==> CameLate(rest) || (l.EForget? && BringsAny(rest, {l.ts}))
  {
    hide Brings;
    var ls := [l] + rest;
    if j, k :| 0 <= j < k < |rest| && rest[j].EForget? && Brings(rest[k], rest[j].ts) {
      assert ls[j + 1] == rest[j] && ls[k + 1] == rest[k];
    }
    if l.EForget? && BringsAny(rest, {l.ts}) {
      var k, ts :| 0 <= k < |rest| && ts in {l.ts} && Brings(rest[k], ts);
      assert ls[0] == l && ls[k + 1] == rest[k];
    }
    if j, k :| 0 <= j < k < |ls| && ls[j].EForget? && Brings(ls[k], ls[j].ts) {
      assert ls[k] == rest[k - 1];
      assert j > 0 ==> ls[j] == rest[j - 1];
    }
  }

  lemma BringsAnyUnion(ls: seq<EchoLabel>, a: set<string>, b: set<string>)
    ensures BringsAny(ls, a + b) <==> BringsAny(ls, a) || BringsAny(ls, b)
  {
    hide Brings;
  }

  /** The history flag is exactly a late delivery, in this run or under a timestamp forgotten before. */
  lemma {:induction false} FlagMeansLate(s: EchoState, ls: seq<EchoLabel>)
    requires IsEchoRun(s, ls)
    ensures AfterEcho(s, ls).cameLate <==> s.cameLate || CameLate(ls) || BringsAny(ls, s.forgotten)
    decreases |ls|
  {
    hide EchoEnabled, EventOf, Handled, WorthEchoing, Accepts, Remember;
    if ls != [] {
      var l, rest := ls[0], ls[1..];
      FlagMeansLate(EchoStep(s, l), rest);
      assert ls == [l] + rest;
      BringsAnyFirst(l, rest, s.forgotten);
      CameLateFirst(l, rest);
      if l.EForget? {
        BringsAnyUnion(rest, s.forgotten, {l.ts});
      }
      hide CameLate, BringsAny;
    }
  }

  /** Whatever is delivered, redelivered or delivered in two kinds, two replies to one Slack
      timestamp are at least a minute apart. And each timestamp is echoed at most once exactly when
      no event worth echoing is delivered after the timer of its timestamp has run. */
  lemma EchoesAreSpaced(ls: seq<EchoLabel>)
    requires IsEchoRun(NEW_PROCESS, ls)
    ensures Spaced(AfterEcho(NEW_PROCESS, ls).replies)
    ensures EachOnce(AfterEcho(NEW_PROCESS, ls).replies) <==> !CameLate(ls)
  {
    EchoRunKeepsInv(NEW_PROCESS, ls);
    FlagMeansLate(NEW_PROCESS, ls);
  }

  // ---- What is answered, read off the frames and the run

  /** The frame's payload holds an event of one of the two kinds, from no bot, without a subtype, under
      this timestamp. */
  predicate Asks(raw: Raw, ts: string) {
    && raw.Text? && raw.value.Obj? && Decodable(raw.value.members)
    && "payload" in raw.value.members && raw.value.members["payload"].Obj?
    && var payload := raw.value.members["payload"].members;
       && "event" in payload && payload["event"].Obj?
       && var event := payload["event"].members;
          && (TextAt(event, "type") == "message" || TextAt(event, "type") == "app_mention")
          && TextAt(event, "bot_id") == "" && TextAt(event, "subtype") == "" && TextAt(event, "ts") == ts
  }

  lemma BringsWhatItAsks(raw: Raw, ts: string)
    ensures Brings(EDeliver(raw), ts) <==> Asks(raw, ts)
  {
    DecodeOutcomes(raw);
    hide DecodeEnvelope;
  }

  /** A frame has asked for an answer to `ts`, and the timer of `ts` has not run since. */
  ghost predicate Remembered(ls: seq<EchoLabel>, ts: string) {
    exists j :: 0 <= j < |ls| && ls[j].EDeliver? && Asks(ls[j].raw, ts)
      && forall k :: j < k < |ls| ==> ls[k] != EForget(ts)
  }

  lemma RememberedLast(ls: seq<EchoLabel>, ts: string)
    requires ls != []
    ensures var n := |ls| - 1;
            Remembered(ls, ts) <==>
            (ls[n].EDeliver? && Asks(ls[n].raw, ts)) || (Remembered(ls[..n], ts) && ls[n] != EForget(ts))
  {
    hide Asks;
    var n := |ls| - 1;
    if Remembered(ls[..n], ts) && ls[n] != EForget(ts) {
      var j :| 0 <= j < n && ls[..n][j].EDeliver? && Asks(ls[..n][j].raw, ts)
        && forall k :: j < k < n ==> ls[..n][k] != EForget(ts);
      assert ls[j] == ls[..n][j];
      assert forall k :: j < k < n ==> ls[k] == ls[..n][k];
    }
    if Remembered(ls, ts) {
      var j :| 0 <= j < |ls| && ls[j].EDeliver? && Asks(ls[j].raw, ts)
        && forall k :: j < k < |ls| ==> ls[k] != EForget(ts);
      assert j < n ==> ls[..n][j] == ls[j];
    }
    if ls[n].EDeliver? && Asks(ls[n].raw, ts) {
      assert Remembered(ls, ts);
    }
  }

  /** A run, seen from its last step. */
  lemma {:induction false} EchoLastStep(s: EchoState, ls: seq<EchoLabel>)
    requires IsEchoRun(s, ls) && ls != []
    ensures var n := |ls| - 1;
            IsEchoRun(s, ls[..n]) && AfterEcho(s, ls) == EchoStep(AfterEcho(s, ls[..n]), ls[n])
    decreases |ls|
  {
    hide EchoEnabled, EchoStep;
    var n := |ls| - 1;
    if n > 0 {
      EchoLastStep(EchoStep(s, ls[0]), ls[1..]);
      assert ls[1..][..n - 1] == ls[..n][1..] && ls[1..][n - 1] == ls[n];
    } else {
      assert ls[..0] == [] && ls[1..] == [];
    }
  }

  lemma StepRemembers(s: EchoState, l: EchoLabel, ts: string)
    requires ts != ""
    ensures ts in EchoStep(s, l).due <==>
            (l.EDeliver? && Asks(l.raw, ts)) || (ts in s.due && l != EForget(ts))
  {
    if l.EDeliver? {
      BringsWhatItAsks(l.raw, ts);
    }
    hide Asks, DecodeEnvelope, EventIn, EventOf;
  }

  lemma {:induction false} MemoryFromLabels(ls: seq<EchoLabel>, ts: string)
    requires IsEchoRun(NEW_PROCESS, ls) && ts != ""
    ensures ts in AfterEcho(NEW_PROCESS, ls).due <==> Remembered(ls, ts)
    decreases |ls|
  {
    if ls != [] {
      var n := |ls| - 1;
      EchoLastStep(NEW_PROCESS, ls);
      MemoryFromLabels(ls[..n], ts);
      hide Remembered, Asks, IsEchoRun, AfterEcho;
      RememberedLast(ls, ts);
      StepRemembers(AfterEcho(NEW_PROCESS, ls[..n]), ls[n], ts);
    }
  }

  /** After any run, delivering a frame adds a reply to `ts` now if and only if the frame asks for one
      and `ts` is not remembered; nothing else is ever replied, and no other step replies. */
  lemma AnswersIff(ls: seq<EchoLabel>, l: EchoLabel, ts: string)
    requires IsEchoRun(NEW_PROCESS, ls)
    ensures var s, s' := AfterEcho(NEW_PROCESS, ls), EchoStep(AfterEcho(NEW_PROCESS, ls), l);
            && (s'.replies == s.replies + [Reply(ts, s.now)] <==>
                  ts != "" && l.EDeliver? && Asks(l.raw, ts) && !Remembered(ls, ts))
            && (s'.replies == s.replies || exists u :: s'.replies == s.replies + [Reply(u, s.now)])
  {
    var s := AfterEcho(NEW_PROCESS, ls);
    if l.EDeliver? {
      BringsWhatItAsks(l.raw, ts);
    }
    if ts != "" {
      MemoryFromLabels(ls, ts);
    }
    hide Asks, Remembered, DecodeEnvelope, EventIn, EventOf, IsEchoRun, AfterEcho;
    assert forall u, r :: s.replies + [Reply(u, s.now)] == s.replies + [r] ==> Reply(u, s.now) == r by {
      forall u, r | s.replies + [Reply(u, s.now)] == s.replies + [r] ensures Reply(u, s.now) == r {
        assert (s.replies + [Reply(u, s.now)])[|s.replies|] == (s.replies + [r])[|s.replies|];
      }
    }
    assert s.replies != s.replies + [Reply(ts, s.now)];
  }

  /** If no timer is overdue, a frame that asks for an answer gets one exactly if its timestamp was not
      answered within the last minute. */
  lemma PromptAnswersIff(ls: seq<EchoLabel>, raw: Raw, ts: string)
    requires IsEchoRun(NEW_PROCESS, ls) && ts != "" && Asks(raw, ts)
    requires var s := AfterEcho(NEW_PROCESS, ls); forall u :: u in s.due ==> s.now < s.due[u]
    ensures var s, s' := AfterEcho(NEW_PROCESS, ls), EchoStep(AfterEcho(NEW_PROCESS, ls), EDeliver(raw));
            s'.replies == s.replies + [Reply(ts, s.now)] <==>
            forall i :: 0 <= i < |s.replies| && s.replies[i].ts == ts ==> s.replies[i].at + 60_000 <= s.now
  {
    var s := AfterEcho(NEW_PROCESS, ls);
    hide Asks, Remembered, IsEchoRun, AfterEcho, EchoStep, SpacingInv, MemoryInv;
    AnswersIff(ls, EDeliver(raw), ts);
    MemoryFromLabels(ls, ts);
    EchoRunFromStart(ls);
    RememberedMeansRecent(s, ts);
  }

  lemma EchoRunFromStart(ls: seq<EchoLabel>)
    requires IsEchoRun(NEW_PROCESS, ls)
    ensures SpacingInv(AfterEcho(NEW_PROCESS, ls))
  {
    EchoRunKeepsInv(NEW_PROCESS, ls);
  }

  lemma RememberedMeansRecent(s: EchoState, ts: string)
    requires SpacingInv(s) && forall u :: u in s.due ==> s.now < s.due[u]
    ensures ts !in s.due <==>
            forall i :: 0 <= i < |s.replies| && s.replies[i].ts == ts ==> s.replies[i].at + 60_000 <= s.now
  {
    if ts in s.due {
      assert RepliedAt(s.replies, ts, s.due[ts]);
      var i :| 0 <= i < |s.replies| && s.replies[i].ts == ts && s.replies[i].at + FORGET_AFTER == s.due[ts];
    }
  }

  lemma EchoFirstStep(s: EchoState, l: EchoLabel, ls: seq<EchoLabel>)
    requires EchoEnabled(s, l) && IsEchoRun(EchoStep(s, l), ls)
    ensures IsEchoRun(s, [l] + ls) && AfterEcho(s, [l] + ls) == AfterEcho(EchoStep(s, l), ls)
  {
    hide EchoEnabled, EchoStep;
    assert ([l] + ls)[1..] == ls;
  }

  /** "Echo each ts at most once" does fail, for every echo-worthy event, after a minute. */
  lemma EchoesTwiceAfterAMinute(raw: Raw, ts: string)
    requires Asks(raw, ts) && ts != ""
    ensures exists ls :: IsEchoRun(NEW_PROCESS, ls) && !EachOnce(AfterEcho(NEW_PROCESS, ls).replies)
  {
    BringsWhatItAsks(raw, ts);
    hide DecodeEnvelope, EventIn, EventOf, Asks;
    var e := EventOf(raw);
    var s1 := EchoStep(NEW_PROCESS, EDeliver(raw));
    var s2 := EchoStep(s1, ETick(FORGET_AFTER));
    var s3 := EchoStep(s2, EForget(e.ts));
    var s4 := EchoStep(s3, EDeliver(raw));
    assert s4.replies[0].ts == s4.replies[1].ts;
    var l4 := [EDeliver(raw)] + [];
    var l3 := [EForget(e.ts)] + l4;
    var l2 := [ETick(FORGET_AFTER)] + l3;
    EchoFirstStep(s3, EDeliver(raw), []);
    EchoFirstStep(s2, EForget(e.ts), l4);
    EchoFirstStep(s1, ETick(FORGET_AFTER), l3);
    EchoFirstStep(NEW_PROCESS, EDeliver(raw), l2);
  }

  /** A redelivery is the same event to the actor: the new envelope id leaves the payload alone. */
  lemma RedeliveryIsTheSameEvent(raw: Raw, newId: string)
    requires IsEventFrame(raw)
    ensures RewriteEnvelopeId(raw, newId).Sent?
    ensures EventOf(RewriteEnvelopeId(raw, newId).raw) == EventOf(raw)
  {
    RewritePreservesMeaning(raw, newId);
    hide RewriteEnvelopeId, DecodeEnvelope;
  }
}
