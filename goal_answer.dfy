/**
 * The answer to a goals request: `Message`, `GoalAnswer` and the decoder
 * `GoalAnswer.parse` (coqlspclient/coq_lsp_structs.py).
 */
module GoalAnswers {
  import opened Wrappers
  import opened PyJson
  import opened LspTypes
  import opened Goals

  /**
   * The `range` a Message receives: converted to a Range when the server's
   * value is truthy, otherwise the server's (falsy) value itself.
   */
  datatype MessageRange = Converted(range: Range) | Kept(raw: Json)

  datatype Message = Message(level: Json, text: Json, range: MessageRange)

  /**
   * An entry of `messages`: the server's value where the loop left it
   * (plain strings), or the Message that replaced it.
   */
  datatype MessageEntry = Raw(json: Json) | Structured(msg: Message)

  datatype GoalAnswer = GoalAnswer(
    textDocument: TextDocumentId,
    position: Position,
    messages: seq<MessageEntry>,
    goals: Option<GoalConfig>,
    error: Json,
    program: Json)

  /** The keyword parameters of `Message` and of `GoalAnswer`. */
  const MessageParams: set<string> := {"level", "text", "range"}
  const AnswerParams: set<string> := {"textDocument", "position", "messages", "goals", "error", "program"}

  /** The `range` of a message as `Message(**message)` receives it. */
  function MessageRangeOf(raw: Json): (r: Res<MessageRange>)
    ensures !Truthy(raw) ==> r == Ok(Kept(raw))
    ensures Truthy(raw) ==> (r.Ok? <==> RangeOf(raw).Ok?)
    ensures Truthy(raw) && r.Ok? ==> r.value == Converted(RangeOf(raw).value)
  {
    if Truthy(raw) then
      var range :- RangeOf(raw);
      Ok(Converted(range))
    else
      Ok(Kept(raw))
  }

  /**
   * One iteration of the message loop of `GoalAnswer.parse` on the entry `e`:
   * strings are left alone, anything else is made a Message.
   */
  function MessageStep(e: MessageEntry): (r: Res<MessageEntry>)
    ensures e.Raw? && e.json.JStr? ==> r == Ok(e)
    ensures e.Raw? && !e.json.JStr? ==> r == MessageOf(e.json)
    ensures e.Structured? ==> r == Err(TypeError)
  {
    match e
    case Structured(_) => Err(TypeError)  // a Message is not subscriptable
    case Raw(j) => if j.JStr? then Ok(e) else MessageOf(j)
  }

  /** `message["range"]` converted, then `Message(**message)`. */
  function MessageOf(j: Json): (r: Res<MessageEntry>)
    ensures j.JObject? && "range" !in j.fields ==> r == Err(KeyError(JStr("range")))
    ensures r.Ok? ==> MessageFrom(j, r.value)
  {
    var raw :- GetKey(j, "range");
    var range :- MessageRangeOf(raw);
    var args :- KwArgs(j, MessageParams, {"level", "text"});
    Ok(Structured(Message(args["level"], args["text"], range)))
  }

  /** `e` is the Message `GoalAnswer.parse` makes of the dictionary `j`. */
  predicate MessageFrom(j: Json, e: MessageEntry) {
    && j.JObject? && {"level", "text", "range"} <= j.fields.Keys <= MessageParams
    && e.Structured?
    && e.msg.level == j.fields["level"]
    && e.msg.text == j.fields["text"]
    && (if Truthy(j.fields["range"])
        then RangeOf(j.fields["range"]).Ok? && e.msg.range == Converted(RangeOf(j.fields["range"]).value)
        else e.msg.range == Kept(j.fields["range"]))
  }

  /** The messages `ms` are decoded one per entry of the list `j`, in order. */
  predicate DecodedMessages(j: Json, ms: seq<MessageEntry>) {
    && j.JList? && |ms| == |j.items|
    && forall i :: 0 <= i < |ms| ==>
         if j.items[i].JStr? then ms[i] == Raw(j.items[i]) else MessageFrom(j.items[i], ms[i])
  }

  /** What `GoalAnswer.parse` returns or raises for `answer`. */
  function GoalAnswerOf(answer: Json): (r: Res<GoalAnswer>)
    ensures r.Ok? ==> answer.JObject? && {"textDocument", "position", "messages"} <= answer.fields.Keys <= AnswerParams
    ensures r.Ok? ==> TextDocumentIdOf(answer.fields["textDocument"]) == Ok(r.value.textDocument)
    ensures r.Ok? ==>
      && answer.fields["position"].JObject?
      && {"line", "character"} <= answer.fields["position"].fields.Keys
      && r.value.position == Position(answer.fields["position"].fields["line"], answer.fields["position"].fields["character"])
    ensures r.Ok? ==> (r.value.goals.None? <==> "goals" !in answer.fields)
    ensures r.Ok? && r.value.goals.Some? ==> GoalConfigOf(answer.fields["goals"]) == Ok(r.value.goals.value)
    ensures r.Ok? ==> DecodedMessages(answer.fields["messages"], r.value.messages)
    ensures r.Ok? ==> r.value.error == ArgOr(answer.fields, "error", JNull)
    ensures r.Ok? ==> r.value.program == ArgOr(answer.fields, "program", JList([]))
  {
    var tdRaw :- GetKey(answer, "textDocument");
    var textDocument :- TextDocumentIdOf(tdRaw);
    var pos :- GetKey(answer, "position");
    var line :- GetKey(pos, "line");
    var character :- GetKey(pos, "character");
    var goals :- if "goals" in answer.fields then
                   var config :- GoalConfigOf(answer.fields["goals"]);
                   Ok(Some(config))
                 else Ok(None);
    var ms :- GetKey(answer, "messages");
    var items :- Iterate(ms);
    var messages :- Traverse(Map(items, j => Raw(j)), MessageStep);
    var args :- KwArgs(answer, AnswerParams, {"textDocument", "position", "messages"});
    assert DecodedMessages(ms, messages) by {
      forall i | 0 <= i < |messages|
        ensures if items[i].JStr? then messages[i] == Raw(items[i]) else MessageFrom(items[i], messages[i])
      {
        assert MessageStep(Raw(items[i])) == Ok(messages[i]);
      }
    }
    Ok(GoalAnswer(textDocument, Position(line, character), messages, goals,
                  ArgOr(args, "error", JNull), ArgOr(args, "program", JList([]))))
  }

  /**
   * The loop of `GoalAnswer.parse`: replaces `messages[i]` in place by its
   * Message, stopping at the first entry that raises.
   */
  method DecodeMessagesInPlace(messages: array<MessageEntry>) returns (o: Outcome<PyError>)
    modifies messages
    ensures o == FailureOf(Traverse(old(messages[..]), MessageStep))
    ensures o.Pass? ==> messages[..] == Traverse(old(messages[..]), MessageStep).value
    ensures o.Fail? ==>
      exists i :: 0 <= i < messages.Length && MessageStep(old(messages[i])).Err? &&
        (forall k :: 0 <= k < i ==> MessageStep(old(messages[k])).Ok? && messages[k] == MessageStep(old(messages[k])).value) &&
        (forall k :: i <= k < messages.Length ==> messages[k] == old(messages[k]))
  {
    var i := 0;
    while i < messages.Length
      invariant 0 <= i <= messages.Length
      invariant forall k :: 0 <= k < i ==>
        MessageStep(old(messages[k])).Ok? && messages[k] == MessageStep(old(messages[k])).value
      invariant forall k :: i <= k < messages.Length ==> messages[k] == old(messages[k])
    {
      match messages[i] {
        case Raw(j) =>
          if !j.JStr? {
            var raw := GetKey(j, "range");
            if raw.Err? {
              return Fail(raw.error);
            }
            var range := Kept(raw.value);
            if Truthy(raw.value) {
              var converted := RangeOf(raw.value);
              if converted.Err? {
                return Fail(converted.error);
              }
              range := Converted(converted.value);
            }
            var args := KwArgs(j, MessageParams, {"level", "text"});
            if args.Err? {
              return Fail(args.error);
            }
            messages[i] := Structured(Message(args.value["level"], args.value["text"], range));
          }
        case Structured(_) =>
          return Fail(TypeError);
      }
      i := i + 1;
    }
    ghost var was := old(messages[..]);
    assert forall k :: 0 <= k < |was| ==>
      MessageStep(was[k]).Ok? && messages[..][k] == MessageStep(was[k]).value;
    return Pass;
  }

  /** `GoalAnswer.parse`. */
  method ParseGoalAnswer(answer: Json) returns (r: Res<GoalAnswer>)
    ensures r == GoalAnswerOf(answer)
  {
    var tdRaw :- GetKey(answer, "textDocument");
    var textDocument :- TextDocumentIdOf(tdRaw);
    var pos :- GetKey(answer, "position");
    var line :- GetKey(pos, "line");
    var character :- GetKey(pos, "character");
    var goals: Option<GoalConfig> := None;
    if "goals" in answer.fields {
      var config :- GoalConfigOf(answer.fields["goals"]);
      goals := Some(config);
    }
    var ms :- GetKey(answer, "messages");
    var items :- Iterate(ms);
    var a := new MessageEntry[|items|](i requires 0 <= i < |items| => Raw(items[i]));
    assert a[..] == Map(items, j => Raw(j));
    var decoding := DecodeMessagesInPlace(a);
    if decoding.Fail? {
      return Err(decoding.error);
    }
    var args :- KwArgs(answer, AnswerParams, {"textDocument", "position", "messages"});
    return Ok(GoalAnswer(textDocument, Position(line, character), a[..], goals,
                         ArgOr(args, "error", JNull), ArgOr(args, "program", JList([]))));
  }

  // ---------------------------------------------------------------------------
  // The wire form, and the round trip through the decoder

  /** The answers `GoalAnswer.parse` can produce: see `DecodedAnswerWellFormed`. */
  predicate WellFormed(a: GoalAnswer) {
    forall i :: 0 <= i < |a.messages| ==>
      match a.messages[i]
      case Raw(j) => j.JStr?
      case Structured(m) => m.range.Kept? ==> !Truthy(m.range.raw)
  }

  function EncodeMessageEntry(e: MessageEntry): Json {
    match e
    case Raw(j) => j
    case Structured(m) =>
      JObject(map[
        "level" := m.level,
        "text" := m.text,
        "range" := match m.range
                   case Converted(r) => EncodeRange(r)
                   case Kept(raw) => raw])
  }

  function EncodeGoalAnswer(a: GoalAnswer): Json {
    var base := map[
      "textDocument" := EncodeTextDocumentId(a.textDocument),
      "position" := EncodePosition(a.position),
      "messages" := JList(Map(a.messages, EncodeMessageEntry)),
      "error" := a.error,
      "program" := a.program];
    JObject(if a.goals.Some? then base["goals" := EncodeGoalConfig(a.goals.value)] else base)
  }

  /** Every answer `GoalAnswer.parse` returns keeps only strings unconverted. */
  lemma DecodedAnswerWellFormed(answer: Json)
    requires GoalAnswerOf(answer).Ok?
    ensures WellFormed(GoalAnswerOf(answer).value)
  {
  }

  lemma MessageRoundTrip(e: MessageEntry)
    requires e.Raw? ==> e.json.JStr?
    requires e.Structured? && e.msg.range.Kept? ==> !Truthy(e.msg.range.raw)
    ensures MessageStep(Raw(EncodeMessageEntry(e))) == Ok(e)
  {
    if e.Structured? && e.msg.range.Converted? {
      RangeRoundTrip(e.msg.range.range);
    }
  }

  /** The messages of a well-formed answer survive the message loop. */
  lemma {:induction false} MessagesRoundTrip(ms: seq<MessageEntry>)
    requires forall i :: 0 <= i < |ms| ==> ms[i].Raw? ==> ms[i].json.JStr?
    requires forall i :: 0 <= i < |ms| ==> ms[i].Structured? && ms[i].msg.range.Kept? ==> !Truthy(ms[i].msg.range.raw)
    ensures Traverse(Map(Map(ms, EncodeMessageEntry), j => Raw(j)), MessageStep) == Ok(ms)
  {
    var raws := Map(Map(ms, EncodeMessageEntry), j => Raw(j));
    forall i | 0 <= i < |ms| ensures MessageStep(raws[i]) == Ok(ms[i]) {
      MessageRoundTrip(ms[i]);
    }
    var r := Traverse(raws, MessageStep);
    assert r.Ok? && |r.value| == |ms|;
    assert forall i :: 0 <= i < |ms| ==> r.value[i] == ms[i];
    assert r.value == ms;
  }

  /** Decoding the wire form of a well-formed answer gives the answer back. */
  lemma {:induction false} GoalAnswerRoundTrip(a: GoalAnswer)
    requires WellFormed(a)
    ensures GoalAnswerOf(EncodeGoalAnswer(a)) == Ok(a)
  {
    var j := EncodeGoalAnswer(a);
    TextDocumentIdRoundTrip(a.textDocument);
    if a.goals.Some? {
      GoalConfigRoundTrip(a.goals.value);
    }
    MessagesRoundTrip(a.messages);
    assert j.fields.Keys <= AnswerParams;
    assert j.fields["textDocument"] == EncodeTextDocumentId(a.textDocument);
    assert j.fields["position"] == EncodePosition(a.position);
    assert j.fields["messages"] == JList(Map(a.messages, EncodeMessageEntry));
    assert ("goals" in j.fields) == a.goals.Some?;
    assert a.goals.Some? ==> j.fields["goals"] == EncodeGoalConfig(a.goals.value);
    assert j.fields["error"] == a.error;
    assert j.fields["program"] == a.program;
  }
}
