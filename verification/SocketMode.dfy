/** Socket Mode frames at the level of JSON values (internal/socketmode/protocol.go), and the
    rewriting of a frame's envelope id (cmd/egress-broker/registry.go). Member names are exact and
    unique, as section 4 of RFC 8259 recommends. */
module SocketMode {
  import opened Wrappers

  /** A JSON value. `Int` is a number literal without fraction or exponent, `Decimal` any other. */
  datatype Json =
    | Null
    | Bool(b: bool)
    | Int(n: int)
    | Decimal(text: string)
    | Str(s: string)
    | Arr(elems: seq<Json>)
    | Obj(members: map<string, Json>)

  /** The bytes of one WebSocket message: either not JSON at all, or the text of one value. */
  datatype Raw = NotJson | Text(value: Json)

  datatype Envelope = Envelope(
    kind: string,
    envelopeId: string,
    acceptsResponsePayload: bool,
    payload: Option<Json>,
    numConnections: int,
    reason: string)

  const TYPE_HELLO := "hello"
  const TYPE_DISCONNECT := "disconnect"
  const TYPE_EVENTS_API := "events_api"
  const TYPE_SLASH_COMMANDS := "slash_commands"
  const TYPE_INTERACTIVE := "interactive"
  const ENVELOPE_ID := "envelope_id"

  const EMPTY_ENVELOPE := Envelope("", "", false, None, 0, "")

  predicate IsConnectionManagement(e: Envelope) {
    e.kind == TYPE_HELLO || e.kind == TYPE_DISCONNECT
  }

  predicate IsEvent(e: Envelope) {
    e.kind == TYPE_EVENTS_API || e.kind == TYPE_SLASH_COMMANDS || e.kind == TYPE_INTERACTIVE
  }

  /** A string field: absent and null leave it empty, another type is a decoding error. */
  function StringField(m: map<string, Json>, name: string): Result<string> {
    if name !in m || m[name].Null? then Ok("")
    else if m[name].Str? then Ok(m[name].s)
    else Err
  }

  function BoolField(m: map<string, Json>, name: string): Result<bool> {
    if name !in m || m[name].Null? then Ok(false)
    else if m[name].Bool? then Ok(m[name].b)
    else Err
  }

  /** A 64-bit integer field: fractions, exponents and out-of-range literals do not decode. */
  function IntField(m: map<string, Json>, name: string): Result<int> {
    if name !in m || m[name].Null? then Ok(0)
    else if m[name].Int? && -0x8000_0000_0000_0000 <= m[name].n < 0x8000_0000_0000_0000 then Ok(m[name].n)
    else Err
  }

  /** DecodeEnvelope. JSON null decodes to the zero envelope, any other non-object is an error. */
  function DecodeEnvelope(raw: Raw): Result<Envelope> {
    if raw.NotJson? then Err
    else if raw.value.Null? then Ok(EMPTY_ENVELOPE)
    else if !raw.value.Obj? then Err
    else
      var m := raw.value.members;
      var kind := StringField(m, "type");
      var id := StringField(m, ENVELOPE_ID);
      var accepts := BoolField(m, "accepts_response_payload");
      var payload := if "payload" in m then Some(m["payload"]) else None;
      var num := IntField(m, "num_connections");
      var reason := StringField(m, "reason");
      if kind.Err? || id.Err? || accepts.Err? || num.Err? || reason.Err? then Err
      else Ok(Envelope(kind.value, id.value, accepts.value, payload, num.value, reason.value))
  }

  /** What the Slack reader hands on: a frame that decodes and is one of the event kinds. */
  predicate IsEventFrame(raw: Raw) {
    DecodeEnvelope(raw).Ok? && IsEvent(DecodeEnvelope(raw).value)
  }

  // ---- What decoding means, member by member

  predicate IsText(m: map<string, Json>, name: string) {
    name in m ==> m[name].Null? || m[name].Str?
  }

  /** The string at a member; absent and null count as empty. */
  function TextAt(m: map<string, Json>, name: string): string {
    if name in m && m[name].Str? then m[name].s else ""
  }

  /** Every member the envelope knows is absent, null, or of its own type and range. */
  predicate Decodable(m: map<string, Json>) {
    && IsText(m, "type") && IsText(m, "envelope_id") && IsText(m, "reason")
    && ("accepts_response_payload" in m ==>
          m["accepts_response_payload"].Null? || m["accepts_response_payload"].Bool?)
    && ("num_connections" in m ==>
          || m["num_connections"].Null?
          || (&& m["num_connections"].Int?
              && -9_223_372_036_854_775_808 <= m["num_connections"].n <= 9_223_372_036_854_775_807))
  }

  /** Decoding succeeds on JSON null, which gives the empty envelope, and on exactly the decodable
      objects, whose envelope has each field from the member of its own name. */
  lemma DecodeOutcomes(raw: Raw)
    ensures DecodeEnvelope(raw).Ok? <==>
            raw.Text? && (raw.value.Null? || (raw.value.Obj? && Decodable(raw.value.members)))
    ensures raw == Text(Null) ==> DecodeEnvelope(raw).value == Envelope("", "", false, None, 0, "")
    ensures DecodeEnvelope(raw).Ok? && raw.value.Obj? ==>
              var e, m := DecodeEnvelope(raw).value, raw.value.members;
              && e.kind == TextAt(m, "type") && e.envelopeId == TextAt(m, "envelope_id")
              && e.reason == TextAt(m, "reason")
              && (e.acceptsResponsePayload <==>
                    "accepts_response_payload" in m && m["accepts_response_payload"] == Bool(true))
              && (e.payload.Some? <==> "payload" in m) && (e.payload.Some? ==> e.payload.value == m["payload"])
              && e.numConnections ==
                 (if "num_connections" in m && m["num_connections"].Int? then m["num_connections"].n else 0)
  {
  }

  /** An event frame is a decodable object whose type is one of the three event kinds. */
  lemma EventFrameIff(raw: Raw)
    ensures IsEventFrame(raw) <==>
            && raw.Text? && raw.value.Obj? && Decodable(raw.value.members) && "type" in raw.value.members
            && var kind := raw.value.members["type"];
               kind == Str("events_api") || kind == Str("slash_commands") || kind == Str("interactive")
  {
    DecodeOutcomes(raw);
    hide DecodeEnvelope;
  }

  /** The outcome of rewriting: bytes to send, or the panic of an assignment into a nil map, which
      is what unmarshalling JSON null into a Go map leaves behind. */
  datatype Rewritten = Sent(raw: Raw) | Panic

  /** rewriteEnvelopeID: replaces the top-level envelope id, falling back to the input. */
  function RewriteEnvelopeId(raw: Raw, newId: string): Rewritten {
    if raw.NotJson? then Sent(raw)
    else match raw.value
      case Null => Panic
      case Obj(m) => Sent(Text(Obj(m[ENVELOPE_ID := Str(newId)])))
      case _ => Sent(raw)
  }

  /** What rewriting must achieve, without reference to how it is done: the outcome decodes to the
      same envelope under the new id, and every other member is what it was. */
  ghost predicate SameUnderNewId(raw: Raw, newId: string, out: Rewritten) {
    && out.Sent? && out.raw.Text? && out.raw.value.Obj? && raw.Text? && raw.value.Obj?
    && DecodeEnvelope(raw).Ok?
    && DecodeEnvelope(out.raw) == Ok(DecodeEnvelope(raw).value.(envelopeId := newId))
    && "envelope_id" in out.raw.value.members && out.raw.value.members["envelope_id"] == Str(newId)
    && out.raw.value.members - {"envelope_id"} == raw.value.members - {"envelope_id"}
  }

  /** Rewriting preserves meaning on every event frame: neither the fallback nor the panic is
      reached, and the rewritten frame is again an event frame. */
  lemma RewritePreservesMeaning(raw: Raw, newId: string)
    requires IsEventFrame(raw)
    ensures SameUnderNewId(raw, newId, RewriteEnvelopeId(raw, newId))
    ensures IsEventFrame(RewriteEnvelopeId(raw, newId).raw)
  {
    assert EMPTY_ENVELOPE.kind == "";
    var m := raw.value.members;
    var m' := m[ENVELOPE_ID := Str(newId)];
    assert m' - {ENVELOPE_ID} == m - {ENVELOPE_ID};
    assert forall k: string :: k != ENVELOPE_ID ==> (k in m' <==> k in m) && (k in m ==> m'[k] == m[k]);
    assert "type" != ENVELOPE_ID && "payload" != ENVELOPE_ID && "reason" != ENVELOPE_ID;
    assert "accepts_response_payload" != ENVELOPE_ID && "num_connections" != ENVELOPE_ID;
  }

  /** Exactly which inputs meet the specification of rewriting, which panic and which fall back. */
  lemma RewriteOutcomes(raw: Raw, newId: string)
    ensures SameUnderNewId(raw, newId, RewriteEnvelopeId(raw, newId))
            <==> DecodeEnvelope(raw).Ok? && raw != Text(Null)
    ensures RewriteEnvelopeId(raw, newId).Panic? <==> raw == Text(Null)
    ensures raw != Text(Null) && !(raw.Text? && raw.value.Obj?) ==> RewriteEnvelopeId(raw, newId) == Sent(raw)
    ensures raw.Text? && raw.value.Obj? ==>
              var out := RewriteEnvelopeId(raw, newId);
              && out.Sent? && out.raw.Text? && out.raw.value.Obj?
              && out.raw.value.members.Keys == raw.value.members.Keys + {"envelope_id"}
              && out.raw.value.members["envelope_id"] == Str(newId)
              && (forall k :: k in raw.value.members && k != "envelope_id" ==>
                    out.raw.value.members[k] == raw.value.members[k])
  {
    if DecodeEnvelope(raw).Ok? && raw != Text(Null) {
      var m := raw.value.members;
      var m' := m[ENVELOPE_ID := Str(newId)];
      assert m' - {ENVELOPE_ID} == m - {ENVELOPE_ID};
      assert forall k: string :: k != ENVELOPE_ID ==> (k in m' <==> k in m) && (k in m ==> m'[k] == m[k]);
      assert "type" != ENVELOPE_ID && "payload" != ENVELOPE_ID && "reason" != ENVELOPE_ID;
      assert "accepts_response_payload" != ENVELOPE_ID && "num_connections" != ENVELOPE_ID;
    }
  }

  /** Redelivery after redelivery: only the last id survives, so nothing accumulates. */
  lemma RewriteTwice(raw: Raw, first: string, second: string)
    requires raw != Text(Null)
    ensures RewriteEnvelopeId(raw, first).Sent?
    ensures RewriteEnvelopeId(RewriteEnvelopeId(raw, first).raw, second) == RewriteEnvelopeId(raw, second)
  {
    if raw.Text? && raw.value.Obj? {
      var m := raw.value.members;
      assert m[ENVELOPE_ID := Str(first)][ENVELOPE_ID := Str(second)] == m[ENVELOPE_ID := Str(second)];
    }
  }
}
