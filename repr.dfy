/**
 * `GoalAnswer.__repr__`: its helper `recursive_vars` turns an object into
 * nested dictionaries and lists (coqlspclient/coq_lsp_structs.py). Only the
 * structure is modelled, not the text `str()` makes of it.
 */
module Repr {
  import opened Wrappers
  import opened PyJson
  import opened LspTypes
  import opened Goals
  import opened GoalAnswers

  /** The Python values `recursive_vars` meets. */
  datatype PyValue =
    | PNone
    | PBool(b: bool)
    | PInt(i: int)
    | PStr(s: string)
    | PList(items: seq<PyValue>)
    | PTuple(elems: seq<PyValue>)
    | PDict(entries: map<string, PyValue>)  // a plain dict: it has no `__dict__`
    | PObject(attrs: map<string, PyValue>)  // an instance: `vars()` gives its attributes

  /**
   * `recursive_vars(obj)` as written: `None`, integers (booleans among them)
   * and strings are returned, lists rebuilt element by element, and anything
   * else goes through `vars()`, which raises TypeError for tuples and dicts.
   */
  function RecursiveVars(v: PyValue): (r: Res<Json>)
    ensures r.Err? ==> r.error == TypeError
    ensures r.Ok? && v.PList? ==> r.value.JList? && |r.value.items| == |v.items|
    ensures r.Ok? && v.PObject? ==> r.value.JObject? && r.value.fields.Keys == v.attrs.Keys
  {
    match v
    case PNone => Ok(JNull)
    case PBool(b) => Ok(JBool(b))
    case PInt(i) => Ok(JInt(i))
    case PStr(s) => Ok(JStr(s))
    case PList(items) =>
      if forall i | 0 <= i < |items| :: RecursiveVars(items[i]).Ok? then
        Ok(JList(seq(|items|, i requires 0 <= i < |items| => RecursiveVars(items[i]).value)))
      else Err(TypeError)
    case PObject(attrs) =>
      if forall k | k in attrs :: RecursiveVars(attrs[k]).Ok? then
        Ok(JObject(map k | k in attrs :: RecursiveVars(attrs[k]).value))
      else Err(TypeError)
    case PTuple(_) => Err(TypeError)
    case PDict(_) => Err(TypeError)
  }

  /** No tuple and no plain dict occurs anywhere inside `v`. */
  predicate Renderable(v: PyValue) {
    match v
    case PTuple(_) => false
    case PDict(_) => false
    case PList(items) => forall i | 0 <= i < |items| :: Renderable(items[i])
    case PObject(attrs) => forall k | k in attrs :: Renderable(attrs[k])
    case _ => true
  }

  /** `recursive_vars` succeeds exactly on the values without tuples or dicts. */
  lemma {:induction false} RecursiveVarsSucceedsIff(v: PyValue)
    ensures RecursiveVars(v).Ok? <==> Renderable(v)
  {
    match v
    case PList(items) =>
      forall i | 0 <= i < |items| ensures RecursiveVars(items[i]).Ok? <==> Renderable(items[i]) {
        RecursiveVarsSucceedsIff(items[i]);
      }
    case PObject(attrs) =>
      forall k | k in attrs ensures RecursiveVars(attrs[k]).Ok? <==> Renderable(attrs[k]) {
        RecursiveVarsSucceedsIff(attrs[k]);
      }
    case _ =>
  }

  /**
   * `recursive_vars` as evidently intended: tuples become lists and dicts are
   * rebuilt entry by entry, so every value has a rendering.
   */
  function Vars(v: PyValue): (r: Json)
    ensures v.PList? ==> r.JList? && |r.items| == |v.items|
    ensures v.PTuple? ==> r.JList? && |r.items| == |v.elems|
    ensures v.PDict? ==> r.JObject? && r.fields.Keys == v.entries.Keys
    ensures v.PObject? ==> r.JObject? && r.fields.Keys == v.attrs.Keys
  {
    match v
    case PNone => JNull
    case PBool(b) => JBool(b)
    case PInt(i) => JInt(i)
    case PStr(s) => JStr(s)
    case PList(items) => JList(seq(|items|, i requires 0 <= i < |items| => Vars(items[i])))
    case PTuple(elems) => JList(seq(|elems|, i requires 0 <= i < |elems| => Vars(elems[i])))
    case PDict(entries) => JObject(map k | k in entries :: Vars(entries[k]))
    case PObject(attrs) => JObject(map k | k in attrs :: Vars(attrs[k]))
  }

  /** Wherever `recursive_vars` as written succeeds, the intended one agrees with it. */
  lemma {:induction false} VarsExtendsRecursiveVars(v: PyValue)
    requires RecursiveVars(v).Ok?
    ensures RecursiveVars(v).value == Vars(v)
  {
    match v
    case PList(items) =>
      forall i | 0 <= i < |items| ensures RecursiveVars(items[i]).value == Vars(items[i]) {
        VarsExtendsRecursiveVars(items[i]);
      }
    case PObject(attrs) =>
      forall k | k in attrs ensures RecursiveVars(attrs[k]).value == Vars(attrs[k]) {
        VarsExtendsRecursiveVars(attrs[k]);
      }
    case _ =>
  }

  // ---------------------------------------------------------------------------
  // The Python values of the decoded records

  /** The Python value of a decoded JSON value. */
  function JsonValue(j: Json): PyValue {
    match j
    case JNull => PNone
    case JBool(b) => PBool(b)
    case JInt(i) => PInt(i)
    case JStr(s) => PStr(s)
    case JList(items) => PList(seq(|items|, i requires 0 <= i < |items| => JsonValue(items[i])))
    case JObject(fields) => PDict(map k | k in fields :: JsonValue(fields[k]))
  }

  /** Rendering a decoded JSON value gives it back. */
  lemma {:induction false} VarsOfJsonValue(j: Json)
    ensures Vars(JsonValue(j)) == j
  {
    match j
    case JList(items) =>
      forall i | 0 <= i < |items| ensures Vars(JsonValue(items[i])) == items[i] {
        VarsOfJsonValue(items[i]);
      }
      assert Vars(JsonValue(j)).items == items;
    case JObject(fields) =>
      forall k | k in fields ensures Vars(JsonValue(fields[k])) == fields[k] {
        VarsOfJsonValue(fields[k]);
      }
      assert Vars(JsonValue(j)).fields == fields;
    case _ =>
  }

  function PositionValue(p: Position): PyValue {
    PObject(map["line" := JsonValue(p.line), "character" := JsonValue(p.character)])
  }

  function RangeValue(r: Range): PyValue {
    PObject(map["start" := PositionValue(r.start), "end" := PositionValue(r.end)])
  }

  function TextDocumentValue(t: TextDocumentId): PyValue {
    PObject(map["uri" := JsonValue(t.uri), "version" := JsonValue(t.version)])
  }

  function HypValue(h: Hyp): PyValue {
    PObject(map["names" := JsonValue(h.names), "ty" := JsonValue(h.ty), "definition" := JsonValue(h.definition)])
  }

  function GoalValue(g: Option<Goal>): PyValue {
    match g
    case None => PNone
    case Some(goal) => PObject(map["hyps" := PList(Map(goal.hyps, HypValue)), "ty" := JsonValue(goal.ty)])
  }

  function GoalsValue(gs: GoalList): PyValue {
    PList(Map(gs, GoalValue))
  }

  /** A stack entry is the tuple `GoalConfig.parse` builds. */
  function StackEntryValue(e: (GoalList, GoalList)): PyValue {
    PTuple([GoalsValue(e.0), GoalsValue(e.1)])
  }

  function GoalConfigValue(c: GoalConfig): PyValue {
    PObject(map[
      "goals" := GoalsValue(c.goals),
      "stack" := PList(Map(c.stack, StackEntryValue)),
      "shelf" := GoalsValue(c.shelf),
      "given_up" := GoalsValue(c.givenUp),
      "bullet" := JsonValue(c.bullet)])
  }

  function MessageEntryValue(e: MessageEntry): PyValue {
    match e
    case Raw(j) => JsonValue(j)
    case Structured(m) =>
      PObject(map[
        "level" := JsonValue(m.level),
        "text" := JsonValue(m.text),
        "range" := match m.range
                   case Converted(r) => RangeValue(r)
                   case Kept(raw) => JsonValue(raw)])
  }

  function GoalAnswerValue(a: GoalAnswer): PyValue {
    PObject(map[
      "textDocument" := TextDocumentValue(a.textDocument),
      "position" := PositionValue(a.position),
      "messages" := PList(Map(a.messages, MessageEntryValue)),
      "goals" := if a.goals.Some? then GoalConfigValue(a.goals.value) else PNone,
      "error" := JsonValue(a.error),
      "program" := JsonValue(a.program)])
  }

  // ---------------------------------------------------------------------------
  // __repr__ as written, and as intended

  /** What `__repr__` renders (or raises) as written. */
  function ReprAsWritten(a: GoalAnswer): (r: Res<Json>)
    ensures r.Ok? <==> Renderable(GoalAnswerValue(a))
    ensures r.Err? ==> r.error == TypeError
  {
    RecursiveVarsSucceedsIff(GoalAnswerValue(a));
    RecursiveVars(GoalAnswerValue(a))
  }

  /**
   * As written, `__repr__` raises TypeError for every answer whose goal
   * stack is not empty: the stack entries are tuples, and `vars()` of a
   * tuple raises.
   */
  lemma ReprFailsOnNonEmptyStack(a: GoalAnswer)
    requires a.goals.Some? && a.goals.value.stack != []
    ensures ReprAsWritten(a).Err?
  {
    var v := GoalAnswerValue(a);
    var stack := v.attrs["goals"].attrs["stack"];
    assert stack.items[0] == StackEntryValue(a.goals.value.stack[0]);
    assert !Renderable(stack);
    assert !Renderable(v.attrs["goals"]);
    RecursiveVarsSucceedsIff(v);
  }

  /** The answer the server sends with one focused bullet level and no goals left in it. */
  function FocusedAnswer(): GoalAnswer {
    GoalAnswer(
      TextDocumentId(JStr("file:///proof.v"), JInt(1)),
      Position(JInt(3), JInt(2)),
      [],
      Some(GoalConfig([], [([], [])], [], [], JNull)),
      JNull,
      JList([]))
  }

  /** The wire answer that shows it: it decodes, and its `__repr__` raises. */
  lemma FocusedAnswerReprFails()
    ensures GoalAnswerOf(EncodeGoalAnswer(FocusedAnswer())) == Ok(FocusedAnswer())
    ensures ReprAsWritten(FocusedAnswer()).Err?
  {
    GoalAnswerRoundTrip(FocusedAnswer());
    ReprFailsOnNonEmptyStack(FocusedAnswer());
  }

  /** Rendering an object renders each of its attributes. */
  lemma VarsOfAttribute(attrs: map<string, PyValue>, k: string)
    requires k in attrs
    ensures Vars(PObject(attrs)).JObject? && Vars(PObject(attrs)).fields.Keys == attrs.Keys
    ensures Vars(PObject(attrs)).fields[k] == Vars(attrs[k])
  {
  }

  /** What `__repr__` renders, with tuples rendered as lists. */
  function Repr(a: GoalAnswer): (r: Json)
    ensures r.JObject? && r.fields.Keys == AnswerParams
    ensures r.fields["messages"].JList? && |r.fields["messages"].items| == |a.messages|
    ensures ReprAsWritten(a).Ok? ==> ReprAsWritten(a).value == r
  {
    var v := GoalAnswerValue(a);
    VarsOfAttribute(v.attrs, "messages");
    assert RecursiveVars(v).Ok? ==> RecursiveVars(v).value == Vars(v) by {
      if RecursiveVars(v).Ok? {
        VarsExtendsRecursiveVars(v);
      }
    }
    Vars(v)
  }

  /**
   * The intended rendering of a goal stack: one two-element list per entry,
   * holding the renderings of the entry's two goal lists.
   */
  lemma StackRendering(a: GoalAnswer)
    requires a.goals.Some?
    ensures Repr(a).fields["goals"].JObject? && "stack" in Repr(a).fields["goals"].fields
    ensures var stack := Repr(a).fields["goals"].fields["stack"];
      && stack.JList? && |stack.items| == |a.goals.value.stack|
      && forall i :: 0 <= i < |stack.items| ==>
           stack.items[i] == JList([Vars(GoalsValue(a.goals.value.stack[i].0)), Vars(GoalsValue(a.goals.value.stack[i].1))])
  {
    var v := GoalAnswerValue(a);
    var config := GoalConfigValue(a.goals.value);
    VarsOfAttribute(v.attrs, "goals");
    VarsOfAttribute(config.attrs, "stack");
    var entries := Map(a.goals.value.stack, StackEntryValue);
    var stack := Repr(a).fields["goals"].fields["stack"];
    assert stack == Vars(PList(entries));
    forall i | 0 <= i < |stack.items|
      ensures stack.items[i] == JList([Vars(GoalsValue(a.goals.value.stack[i].0)), Vars(GoalsValue(a.goals.value.stack[i].1))])
    {
      assert stack.items[i] == Vars(entries[i]);
      StackEntryRendering(a.goals.value.stack[i]);
    }
  }

  /** A stack entry renders as the two-element list of its rendered goal lists. */
  lemma StackEntryRendering(e: (GoalList, GoalList))
    ensures Vars(StackEntryValue(e)) == JList([Vars(GoalsValue(e.0)), Vars(GoalsValue(e.1))])
  {
    assert Vars(StackEntryValue(e)).items == [Vars(GoalsValue(e.0)), Vars(GoalsValue(e.1))];
  }
}
