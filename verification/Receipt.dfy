/**
  The receipt builder (src/aci/receipt.rs): an event log appended to and edited
  in place, checked when it is finalized and signed.
 */
module Receipt {
  import opened Foundation

  const REQUEST_RECEIVED := "request.received"
  const REQUEST_FORWARDED := "request.forwarded"
  const MIDDLEWARE_FORWARDED := "middleware.forwarded"
  const ROUTE_SELECTED := "route.selected"
  const UPSTREAM_VERIFIED := "upstream.verified"
  const RESPONSE_RECEIVED := "response.received"
  const RESPONSE_RETURNED := "response.returned"

  const RESULT := "result"
  const VERIFIED := "verified"
  const FAILED := "failed"
  const REQUIRED := "required"
  const MODEL_ID := "model_id"
  const SESSION_ID := "session_id"
  const REASON := "reason"
  const UPSTREAM_NAME := "upstream_name"
  const BODY_HASH := "body_hash"
  const TARGET_ROUTE_ID := "target_route_id"
  const TYPE := "type"
  const CHAT_ID := "chat_id"
  const KEY_ID := "key_id"
  const SIGNATURE := "signature"

  datatype Value = Text(text: string) | Flag(flag: bool) | Opaque(json: string)

  type Fields = map<string, Value>

  datatype Event = Event(kind: string, fields: Fields)

  datatype Problem =
    | FirstEventMustBeRequestReceived
    | ReservedField
    | ReservedEventType
    | InvalidSessionId
    | EmptyReceipt
    | MissingRequiredEvent(kind: string)
    | UnknownKey

  datatype Result<T> = Ok(value: T) | Err(problem: Problem)

  predicate Hex64(id: string) {
    |id| == 64 && forall i :: 0 <= i < |id| ==> '0' <= id[i] <= '9' || 'a' <= id[i] <= 'f'
  }

  function VerifiedFields(required: bool, model: string, session: string): Fields {
    map[RESULT := Text(VERIFIED), REQUIRED := Flag(required), MODEL_ID := Text(model), SESSION_ID := Text(session)]
  }

  function FailedFields(required: bool, model: string, reason: string, upstream: Option<string>): Fields {
    var fields := map[RESULT := Text(FAILED), REQUIRED := Flag(required), MODEL_ID := Text(model), REASON := Text(reason)];
    if upstream.Some? && upstream.value != "" then fields[UPSTREAM_NAME := Text(upstream.value)] else fields
  }

  // ---------- what a log says ----------

  predicate Says(e: Event, field: string, value: Value) {
    field in e.fields && e.fields[field] == value
  }

  /** An `upstream.verified` event is in one of its two forms, and not in both. */
  predicate InForm(e: Event) {
    || (Says(e, RESULT, Text(VERIFIED)) && REASON !in e.fields
        && SESSION_ID in e.fields && e.fields[SESSION_ID].Text? && Hex64(e.fields[SESSION_ID].text))
    || (Says(e, RESULT, Text(FAILED)) && SESSION_ID !in e.fields
        && REASON in e.fields && e.fields[REASON].Text?)
  }

  /** The event refuses the request: a verification that was required failed. */
  predicate Refuses(e: Event) {
    e.kind == UPSTREAM_VERIFIED && Says(e, RESULT, Text(FAILED)) && Says(e, REQUIRED, Flag(true))
  }

  ghost predicate Has(events: seq<Event>, kind: string) {
    exists i :: 0 <= i < |events| && events[i].kind == kind
  }

  ghost predicate Refused(events: seq<Event>) {
    exists i :: 0 <= i < |events| && Refuses(events[i])
  }

  /** What every log keeps, from the first call to the last. */
  ghost predicate LogInv(events: seq<Event>) {
    && (events != [] ==> events[0].kind == REQUEST_RECEIVED)
    && (forall i :: 0 <= i < |events| ==> TYPE !in events[i].fields)
    && (forall i :: 0 <= i < |events| && events[i].kind == UPSTREAM_VERIFIED ==> InForm(events[i]))
  }

  /** What a receipt that was issued promises of its log. */
  ghost predicate Complete(events: seq<Event>) {
    && LogInv(events) && events != []
    && Has(events, RESPONSE_RETURNED)
    && (Has(events, REQUEST_FORWARDED) || Refused(events))
  }

  // ---------- calls ----------

  datatype Call =
    | AddBodyHash(kind: string, hash: string)   // request, middleware and response events
    | AddRouteSelected(route: string)
    | AddVerifiedWithSession(required: bool, model: string, session: string)
    | AddVerifiedFailed(required: bool, model: string, reason: string, upstream: Option<string>)
    | AddExtension(kind: string, fields: Fields)
    | SetModelId(served: Option<string>)

  /** The kinds of event with their own method that records a body hash. */
  predicate HashKind(kind: string) {
    kind in {REQUEST_RECEIVED, REQUEST_FORWARDED, MIDDLEWARE_FORWARDED, RESPONSE_RECEIVED, RESPONSE_RETURNED}
  }

  function Appended(events: seq<Event>, kind: string, fields: Fields): Result<seq<Event>> {
    if events == [] && kind != REQUEST_RECEIVED then Err(FirstEventMustBeRequestReceived)
    else if TYPE in fields then Err(ReservedField)
    else Ok(events + [Event(kind, fields)])
  }

  predicate IsVerified(e: Event) {
    e.kind == UPSTREAM_VERIFIED && Says(e, RESULT, Text(VERIFIED))
  }

  /** The log with the model written on its first verified event, if it has one. */
  function WithModel(events: seq<Event>, model: string): seq<Event> {
    if events == [] then []
    else if IsVerified(events[0]) then [events[0].(fields := events[0].fields[MODEL_ID := Text(model)])] + events[1..]
    else [events[0]] + WithModel(events[1..], model)
  }

  function Applied(events: seq<Event>, call: Call): Result<seq<Event>>
    requires call.AddBodyHash? ==> HashKind(call.kind)
  {
    match call
    case AddBodyHash(kind, hash) => Appended(events, kind, map[BODY_HASH := Text(hash)])
    case AddRouteSelected(route) => Appended(events, ROUTE_SELECTED, map[TARGET_ROUTE_ID := Text(route)])
    case AddVerifiedWithSession(required, model, session) =>
      if !Hex64(session) then Err(InvalidSessionId)
      else Appended(events, UPSTREAM_VERIFIED, VerifiedFields(required, model, session))
    case AddVerifiedFailed(required, model, reason, upstream) =>
      Appended(events, UPSTREAM_VERIFIED, FailedFields(required, model, reason, upstream))
    case AddExtension(kind, fields) =>
      if kind in {REQUEST_RECEIVED, REQUEST_FORWARDED, UPSTREAM_VERIFIED, RESPONSE_RETURNED} then Err(ReservedEventType)
      else Appended(events, kind, fields)
    case SetModelId(model) => Ok(if model.None? then events else WithModel(events, model.value))
  }

  /** The log after a sequence of calls; a call that fails leaves it as it was. */
  function AfterCalls(events: seq<Event>, calls: seq<Call>): seq<Event>
    requires forall i :: 0 <= i < |calls| && calls[i].AddBodyHash? ==> HashKind(calls[i].kind)
    decreases |calls|
  {
    if calls == [] then events
    else
      var r := Applied(events, calls[0]);
      AfterCalls(if r.Ok? then r.value else events, calls[1..])
  }

  predicate Missing(events: seq<Event>, kind: string) {
    forall i :: 0 <= i < |events| ==> events[i].kind != kind
  }

  /** The check of a log before it is signed. */
  function Checked(events: seq<Event>): Result<seq<Event>> {
    if events == [] then Err(EmptyReceipt)
    else if Missing(events, REQUEST_RECEIVED) then Err(MissingRequiredEvent(REQUEST_RECEIVED))
    else if !(exists i :: 0 <= i < |events| && Refuses(events[i])) && Missing(events, REQUEST_FORWARDED) then
      Err(MissingRequiredEvent(REQUEST_FORWARDED))
    else if Missing(events, RESPONSE_RETURNED) then Err(MissingRequiredEvent(RESPONSE_RETURNED))
    else Ok(events)
  }

  // ---------- what calls keep ----------

  /** Event `k` is the first that verified an upstream. */
  predicate FirstVerified(events: seq<Event>, k: nat) {
    && k < |events| && IsVerified(events[k])
    && forall i :: 0 <= i < k ==> !IsVerified(events[i])
  }

  /** The model served is on the first verified event, which is otherwise as it was, and so is the rest of the log. */
  ghost predicate ModelWritten(events: seq<Event>, model: string, after: seq<Event>) {
    && |after| == |events|
    && (forall i :: 0 <= i < |events| && !FirstVerified(events, i) ==> after[i] == events[i])
    && (forall i :: 0 <= i < |events| && FirstVerified(events, i) ==>
          && after[i].kind == events[i].kind && after[i].fields.Keys == events[i].fields.Keys + {"model_id"}
          && after[i].fields["model_id"] == Text(model)
          && forall f :: f in events[i].fields && f != "model_id" ==> after[i].fields[f] == events[i].fields[f])
  }

  lemma {:induction false} WithModelWrites(events: seq<Event>, model: string)
    ensures ModelWritten(events, model, WithModel(events, model))
    decreases |events|
  {
    if events != [] && !IsVerified(events[0]) {
      var rest := events[1..];
      WithModelWrites(rest, model);
      forall i | 0 <= i < |events|
        ensures i > 0 ==> (FirstVerified(events, i) <==> FirstVerified(rest, i - 1)) && events[i] == rest[i - 1]
      {
        FirstVerifiedTail(events, i);
      }
    }
  }

  lemma FirstVerifiedTail(events: seq<Event>, i: nat)
    requires i < |events| && !IsVerified(events[0])
    ensures i > 0 ==> (FirstVerified(events, i) <==> FirstVerified(events[1..], i - 1))
  {
    if i > 0 && FirstVerified(events[1..], i - 1) {
      forall j | 0 <= j < i
        ensures !IsVerified(events[j])
      {
        if j > 0 { assert events[1..][j - 1] == events[j]; }
      }
    }
  }

  lemma WithModelKeeps(events: seq<Event>, model: string)
    requires LogInv(events)
    ensures LogInv(WithModel(events, model))
  {
    var after := WithModel(events, model);
    WithModelWrites(events, model);
    forall i | 0 <= i < |after|
      ensures after[i].kind == events[i].kind && TYPE !in after[i].fields
      ensures after[i].kind == UPSTREAM_VERIFIED ==> InForm(after[i])
    {
      assert FirstVerified(events, i) || after[i] == events[i];
    }
  }

  /** The event a call adds, member by member. */
  ghost predicate Records(call: Call, e: Event) {
    match call
    case AddBodyHash(kind, hash) => e == Event(kind, map["body_hash" := Text(hash)])
    case AddRouteSelected(route) => e == Event("route.selected", map["target_route_id" := Text(route)])
    case AddVerifiedWithSession(required, model, session) =>
      && e.kind == "upstream.verified" && e.fields.Keys == {"result", "required", "model_id", "session_id"}
      && e.fields["result"] == Text("verified") && e.fields["required"] == Flag(required)
      && e.fields["model_id"] == Text(model) && e.fields["session_id"] == Text(session)
    case AddVerifiedFailed(required, model, reason, upstream) =>
      && e.kind == "upstream.verified"
      && e.fields.Keys == {"result", "required", "model_id", "reason"}
                          + (if upstream.None? || upstream.value == "" then {} else {"upstream_name"})
      && e.fields["result"] == Text("failed") && e.fields["required"] == Flag(required)
      && e.fields["model_id"] == Text(model) && e.fields["reason"] == Text(reason)
      && ("upstream_name" in e.fields ==> e.fields["upstream_name"] == Text(upstream.value))
    case AddExtension(kind, fields) => e == Event(kind, fields)
    case SetModelId(_) => false
  }

  /** A call adds its own event at the end and touches nothing else, or rewrites a model. */
  ghost predicate Performed(events: seq<Event>, call: Call, after: seq<Event>) {
    if call.SetModelId? then
      if call.served.None? then after == events else ModelWritten(events, call.served.value, after)
    else |after| == |events| + 1 && after[..|events|] == events && Records(call, after[|events|])
  }

  lemma AppliedPerforms(events: seq<Event>, call: Call)
    requires (call.AddBodyHash? ==> HashKind(call.kind)) && Applied(events, call).Ok?
    ensures Performed(events, call, Applied(events, call).value)
  {
    if call.SetModelId? && call.served.Some? { WithModelWrites(events, call.served.value); }
  }

  predicate ReservedKind(kind: string) {
    kind in {"request.received", "request.forwarded", "upstream.verified", "response.returned"}
  }

  predicate LowerHex(s: string, n: nat) {
    |s| == n && forall i :: 0 <= i < n ==> s[i] in "0123456789abcdef"
  }

  /** What is wrong with a call, in the order it is found, if anything is. */
  function Objection(events: seq<Event>, call: Call): Option<Problem> {
    if call.SetModelId? then None
    else if call.AddVerifiedWithSession? && !LowerHex(call.session, 64) then Some(InvalidSessionId)
    else if call.AddExtension? && ReservedKind(call.kind) then Some(ReservedEventType)
    else if events == [] && !(call.AddBodyHash? && call.kind == "request.received") then Some(FirstEventMustBeRequestReceived)
    else if call.AddExtension? && "type" in call.fields then Some(ReservedField)
    else None
  }

  /** A call is refused exactly if there is something wrong with it, and for that reason. */
  lemma RefusedExactly(events: seq<Event>, call: Call)
    requires call.AddBodyHash? ==> HashKind(call.kind)
    ensures Objection(events, call) == (if Applied(events, call).Err? then Some(Applied(events, call).problem) else None)
  {
  }

  /** A verification that was required and failed makes the log one that refuses. */
  lemma RequiredFailureRefuses(events: seq<Event>, model: string, reason: string, upstream: Option<string>)
    requires Applied(events, AddVerifiedFailed(true, model, reason, upstream)).Ok?
    ensures Refused(Applied(events, AddVerifiedFailed(true, model, reason, upstream)).value)
  {
    var after := Applied(events, AddVerifiedFailed(true, model, reason, upstream)).value;
    assert Refuses(after[|events|]);
  }

  lemma AppendedKeeps(events: seq<Event>, kind: string, fields: Fields)
    requires LogInv(events) && Appended(events, kind, fields).Ok?
    requires kind == UPSTREAM_VERIFIED ==> InForm(Event(kind, fields))
    ensures LogInv(Appended(events, kind, fields).value)
  {
  }

  lemma AppliedKeeps(events: seq<Event>, call: Call)
    requires LogInv(events) && (call.AddBodyHash? ==> HashKind(call.kind)) && Applied(events, call).Ok?
    ensures LogInv(Applied(events, call).value)
  {
    match call
    case AddBodyHash(kind, hash) => AppendedKeeps(events, kind, map[BODY_HASH := Text(hash)]);
    case AddRouteSelected(route) => AppendedKeeps(events, ROUTE_SELECTED, map[TARGET_ROUTE_ID := Text(route)]);
    case AddVerifiedWithSession(required, model, session) =>
      AppendedKeeps(events, UPSTREAM_VERIFIED, VerifiedFields(required, model, session));
    case AddVerifiedFailed(required, model, reason, upstream) =>
      AppendedKeeps(events, UPSTREAM_VERIFIED, FailedFields(required, model, reason, upstream));
    case AddExtension(kind, fields) => AppendedKeeps(events, kind, fields);
    case SetModelId(model) => if model.Some? { WithModelKeeps(events, model.value); }
  }

  lemma {:induction false} CallsKeep(events: seq<Event>, calls: seq<Call>)
    requires LogInv(events) && forall i :: 0 <= i < |calls| && calls[i].AddBodyHash? ==> HashKind(calls[i].kind)
    ensures LogInv(AfterCalls(events, calls))
    decreases |calls|
  {
    if calls != [] {
      var r := Applied(events, calls[0]);
      if r.Ok? { AppliedKeeps(events, calls[0]); }
      CallsKeep(if r.Ok? then r.value else events, calls[1..]);
    }
  }

  lemma CheckedIff(events: seq<Event>)
    requires LogInv(events)
    ensures Checked(events).Ok? <==> Complete(events)
  {
    if events != [] { assert events[0].kind == REQUEST_RECEIVED; }
  }

  /** A log that does not pass names the first event it lacks. */
  lemma CheckedNames(events: seq<Event>)
    requires Checked(events).Err?
    ensures match Checked(events).problem
            case EmptyReceipt => events == []
            case MissingRequiredEvent(kind) =>
              && events != [] && !Has(events, kind)
              && (|| kind == "request.received"
                  || (kind == "request.forwarded" && Has(events, "request.received") && !Refused(events))
                  || (kind == "response.returned" && Has(events, "request.received")
                      && (Has(events, "request.forwarded") || Refused(events))))
            case _ => false
  {
  }

  /**
    After any calls in any order, starting from nothing or from any log that calls
    have made, what passes the check is a complete log, and every complete log passes.
   */
  lemma CheckedIsComplete(events: seq<Event>, calls: seq<Call>)
    requires events == [] || LogInv(events)
    requires forall i :: 0 <= i < |calls| && calls[i].AddBodyHash? ==> HashKind(calls[i].kind)
    ensures LogInv(AfterCalls(events, calls))
    ensures Checked(AfterCalls(events, calls)).Ok? <==> Complete(AfterCalls(events, calls))
  {
    CallsKeep(events, calls);
    CheckedIff(AfterCalls(events, calls));
  }

  // ---------- signing ----------

  /** A JSON object at the top level of a receipt; members other than strings are kept as text. */
  type Document = map<string, Value>

  datatype Signer = Signer(
    jcs: Document -> seq<byte>, parse: seq<byte> -> Option<Document>, render: seq<Event> -> string,
    sign: seq<byte> -> string)
  {
    ghost predicate Lawful() {
      forall d :: parse(jcs(d)) == Some(d)
    }
  }

  /** What a signature covers: the document without its `signature` member. */
  function SigningInput(s: Signer, document: Document): seq<byte> {
    s.jcs(document - {SIGNATURE})
  }

  datatype Signed = Signed(served: seq<byte>, covered: seq<byte>, signature: string)

  /** `header` is every member of the payload but the log. */
  function Sign(s: Signer, header: Document, events: seq<Event>, keyId: string): Signed {
    var document := header["event_log" := Opaque(s.render(events))][KEY_ID := Text(keyId)];
    var covered := SigningInput(s, document);
    var signature := s.sign(covered);
    Signed(s.jcs(document[SIGNATURE := Text(signature)]), covered, signature)
  }

  /** The served document: the header, the log, the key and the signature, and nothing else. */
  ghost predicate Serves(s: Signer, r: Signed, header: Document, events: seq<Event>, keyId: string) {
    && s.parse(r.served).Some?
    && var d := s.parse(r.served).value;
       && d.Keys == header.Keys + {"event_log", "key_id", "signature"}
       && (forall m :: m in header && m !in {"event_log", "key_id", "signature"} ==> d[m] == header[m])
       && d["event_log"] == Opaque(s.render(events)) && d["key_id"] == Text(keyId)
       && d["signature"] == Text(s.sign(s.jcs(d - {"signature"})))
  }

  /**
    What is served holds every member and the whole log, and anyone who takes the
    signature out of it has exactly the bytes that were signed.
   */
  lemma SignatureCoversTheRest(s: Signer, header: Document, events: seq<Event>, keyId: string)
    requires s.Lawful() && SIGNATURE !in header
    ensures var r := Sign(s, header, events, keyId);
            && Serves(s, r, header, events, keyId)
            && r.covered == s.jcs(s.parse(r.served).value - {"signature"}) && r.signature == s.sign(r.covered)
  {
    var document := header["event_log" := Opaque(s.render(events))][KEY_ID := Text(keyId)];
    var signature := s.sign(SigningInput(s, document));
    var d := document[SIGNATURE := Text(signature)];
    assert d - {SIGNATURE} == document - {SIGNATURE};
    assert s.parse(s.jcs(d)) == Some(d);
  }

  // ---------- the builder in place ----------

  class ReceiptBuilder {
    var header: Document
    var events: seq<Event>

    constructor (header: Document)
      requires SIGNATURE !in header
      ensures events == [] && this.header == header
    {
      this.header := header;
      events := [];
    }

    /** The chat id is known late; it is signed like the rest of the header. */
    method SetChatId(chatId: Option<string>)
      modifies this`header
      ensures header == old(header)[CHAT_ID := if chatId.Some? then Text(chatId.value) else Opaque("null")]
      ensures SIGNATURE !in old(header) ==> SIGNATURE !in header
    {
      header := header[CHAT_ID := if chatId.Some? then Text(chatId.value) else Opaque("null")];
    }

    method Append(kind: string, fields: Fields) returns (r: Result<()>)
      modifies this`events
      ensures var after := Appended(old(events), kind, fields);
              if after.Ok? then r.Ok? && events == after.value else r == Err(after.problem) && events == old(events)
    {
      if events == [] && kind != REQUEST_RECEIVED { return Err(FirstEventMustBeRequestReceived); }
      if TYPE in fields { return Err(ReservedField); }
      events := events + [Event(kind, fields)];
      r := Ok(());
    }

    method Run(call: Call) returns (r: Result<()>)
      requires call.AddBodyHash? ==> HashKind(call.kind)
      modifies this`events
      ensures var after := Applied(old(events), call);
              if after.Ok? then r.Ok? && events == after.value else r == Err(after.problem) && events == old(events)
      ensures r.Ok? ==> Performed(old(events), call, events)
    {
      if Applied(events, call).Ok? { AppliedPerforms(events, call); }
      match call
      case AddBodyHash(kind, hash) => r := Append(kind, map[BODY_HASH := Text(hash)]);
      case AddRouteSelected(route) => r := Append(ROUTE_SELECTED, map[TARGET_ROUTE_ID := Text(route)]);
      case AddVerifiedWithSession(required, model, session) =>
        if !Hex64(session) { return Err(InvalidSessionId); }
        r := Append(UPSTREAM_VERIFIED, VerifiedFields(required, model, session));
      case AddVerifiedFailed(required, model, reason, upstream) =>
        r := Append(UPSTREAM_VERIFIED, FailedFields(required, model, reason, upstream));
      case AddExtension(kind, fields) =>
        if kind in {REQUEST_RECEIVED, REQUEST_FORWARDED, UPSTREAM_VERIFIED, RESPONSE_RETURNED} {
          return Err(ReservedEventType);
        }
        r := Append(kind, fields);
      case SetModelId(model) =>
        if model.Some? { SetUpstreamVerifiedModelId(model.value); }
        r := Ok(());
    }

    /** Write the served model on the first verified event. */
    method SetUpstreamVerifiedModelId(model: string)
      modifies this`events
      ensures events == WithModel(old(events), model)
    {
      var i := 0;
      while i < |events|
        invariant i <= |events| && events == old(events)
        invariant WithModel(events, model) == events[..i] + WithModel(events[i..], model)
      {
        assert events[i..][1..] == events[i + 1..];
        if IsVerified(events[i]) {
          var edited := events[i].(fields := events[i].fields[MODEL_ID := Text(model)]);
          assert events[..i] + ([edited] + events[i + 1..]) == events[i := edited];
          events := events[i := edited];
          return;
        }
        assert events[..i] + ([events[i]] + WithModel(events[i + 1..], model))
               == events[..i + 1] + WithModel(events[i + 1..], model);
        i := i + 1;
      }
      assert events[..i] + [] == events;
    }

    method Contains(kind: string) returns (found: bool)
      ensures found == !Missing(events, kind)
    {
      for i := 0 to |events|
        invariant forall j :: 0 <= j < i ==> events[j].kind != kind
      {
        if events[i].kind == kind { return true; }
      }
      return false;
    }

    method IsRefusal() returns (refused: bool)
      ensures refused == exists i :: 0 <= i < |events| && Refuses(events[i])
    {
      for i := 0 to |events|
        invariant forall j :: 0 <= j < i ==> !Refuses(events[j])
      {
        if Refuses(events[i]) { return true; }
      }
      return false;
    }

    /** Check the log, then sign exactly what is served. `known` says whether the key id names a receipt key. */
    method Finalize(s: Signer, keyId: string, known: bool) returns (r: Result<Signed>)
      ensures Checked(events).Err? ==> r == Err(Checked(events).problem)
      ensures Checked(events).Ok? ==> r == if known then Ok(Sign(s, header, events, keyId)) else Err(UnknownKey)
      ensures r.Ok? && s.Lawful() && SIGNATURE !in header ==> Serves(s, r.value, header, events, keyId)
    {
      if s.Lawful() && SIGNATURE !in header { SignatureCoversTheRest(s, header, events, keyId); }
      if events == [] { return Err(EmptyReceipt); }
      var refused := IsRefusal();
      var required := [REQUEST_RECEIVED, REQUEST_FORWARDED, RESPONSE_RETURNED];
      for i := 0 to 3
        invariant i > 0 ==> !Missing(events, REQUEST_RECEIVED)
        invariant i > 1 ==> refused || !Missing(events, REQUEST_FORWARDED)
        invariant i > 2 ==> !Missing(events, RESPONSE_RETURNED)
      {
        if required[i] == REQUEST_FORWARDED && refused { continue; }
        var found := Contains(required[i]);
        if !found { return Err(MissingRequiredEvent(required[i])); }
      }
      if !known { return Err(UnknownKey); }
      r := Ok(Sign(s, header, events, keyId));
    }
  }
}
