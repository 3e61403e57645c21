/**
 * Goal states: `Hyp`, `Goal` and `GoalConfig` and their decoders `Goal.parse`
 * and `GoalConfig.parse` (coqlspclient/coq_lsp_structs.py).
 */
module Goals {
  import opened Wrappers
  import opened PyJson

  /** A hypothesis: its names, its type and its body, `None` when it has none. */
  datatype Hyp = Hyp(names: Json, ty: Json, definition: Json)

  /** A goal: hypotheses and conclusion (`None` when the server sent none). */
  datatype Goal = Goal(hyps: seq<Hyp>, ty: Json)

  /** `Goal.parse` yields `None` for an entry without hypotheses. */
  type GoalList = seq<Option<Goal>>

  datatype GoalConfig = GoalConfig(
    goals: GoalList,
    stack: seq<(GoalList, GoalList)>,
    shelf: GoalList,
    givenUp: GoalList,
    bullet: Json)

  // ---------------------------------------------------------------------------
  // Goal.parse

  /**
   * One pass of the renaming loop of `Goal.parse` over one hypothesis:
   * the key `def` (a Python keyword) becomes `definition`.
   */
  function RenameDef(hyp: Json): (r: Res<Json>)
    ensures hyp.JObject? ==> r.Ok? && r.value.JObject?
    ensures hyp.JObject? && "def" !in hyp.fields ==> r.value == hyp
    ensures hyp.JObject? && "def" in hyp.fields ==>
      && r.value.fields.Keys == hyp.fields.Keys - {"def"} + {"definition"}
      && r.value.fields["definition"] == hyp.fields["def"]
      && forall k :: k in hyp.fields && k != "def" && k != "definition" ==> r.value.fields[k] == hyp.fields[k]
  {
    var has :- Contains("def", hyp);
    if !has then Ok(hyp)
    else match hyp
      case JObject(m) => Ok(JObject(m["definition" := m["def"]] - {"def"}))
      case _ => Err(TypeError)  // item assignment on a list or a string
  }

  /** `Hyp(**hyp)`. */
  function HypOf(hyp: Json): (r: Res<Hyp>)
    ensures r.Ok? <==> hyp.JObject? && {"names", "ty"} <= hyp.fields.Keys <= {"names", "ty", "definition"}
    ensures r.Ok? ==> r.value == Hyp(hyp.fields["names"], hyp.fields["ty"], ArgOr(hyp.fields, "definition", JNull))
  {
    var args :- KwArgs(hyp, {"names", "ty", "definition"}, {"names", "ty"});
    Ok(Hyp(args["names"], args["ty"], ArgOr(args, "definition", JNull)))
  }

  /** The keys `Hyp(**hyp)` sees once `def` has been renamed. */
  function RenamedKeys(keys: set<string>): set<string> {
    if "def" in keys then keys - {"def"} + {"definition"} else keys
  }

  /** A hypothesis entry `Goal.parse` accepts. */
  predicate HypAccepted(hyp: Json) {
    hyp.JObject? && {"names", "ty"} <= RenamedKeys(hyp.fields.Keys) <= {"names", "ty", "definition"}
  }

  /** `h` is what `Goal.parse` makes of the entry `hyp`. */
  predicate HypFrom(hyp: Json, h: Hyp) {
    && hyp.JObject? && "names" in hyp.fields && "ty" in hyp.fields
    && h.names == hyp.fields["names"]
    && h.ty == hyp.fields["ty"]
    && h.definition == (if "def" in hyp.fields then hyp.fields["def"] else ArgOr(hyp.fields, "definition", JNull))
  }

  /** The hypotheses `hs` are decoded one per entry of the list `j`, in order. */
  predicate DecodedHyps(j: Json, hs: seq<Hyp>) {
    j.JList? && |hs| == |j.items| && forall i :: 0 <= i < |hs| ==> HypFrom(j.items[i], hs[i])
  }

  /** What `Goal.parse` returns or raises for `goal`. */
  function GoalOf(goal: Json): (r: Res<Option<Goal>>)
    ensures goal.JObject? ==> (r == Ok(None) <==> "hyps" !in goal.fields)
    ensures r.Ok? && r.value.Some? ==>
      && goal.JObject? && "hyps" in goal.fields
      && DecodedHyps(goal.fields["hyps"], r.value.value.hyps)
      && r.value.value.ty == ArgOr(goal.fields, "ty", JNull)
  {
    var has :- Contains("hyps", goal);
    if !has then Ok(None)
    else
      var hs :- GetKey(goal, "hyps");
      var items :- Iterate(hs);
      var renamed :- Traverse(items, RenameDef);
      var hyps :- Traverse(renamed, HypOf);
      var ty := ArgOr(goal.fields, "ty", JNull);
      assert DecodedHyps(hs, hyps) by {
        forall i | 0 <= i < |hyps| ensures HypFrom(items[i], hyps[i]) {
          assert RenameDef(items[i]) == Ok(renamed[i]);
        }
      }
      Ok(Some(Goal(hyps, ty)))
  }

  /**
   * The loop of `Goal.parse`: rewrites every hypothesis entry in place,
   * stopping at the first entry that raises.
   */
  method RenameDefsInPlace(hyps: array<Json>) returns (o: Outcome<PyError>)
    modifies hyps
    ensures o == FailureOf(Traverse(old(hyps[..]), RenameDef))
    ensures o.Pass? ==> hyps[..] == Traverse(old(hyps[..]), RenameDef).value
    ensures o.Fail? ==>
      exists i :: 0 <= i < hyps.Length && RenameDef(old(hyps[i])).Err? &&
        (forall k :: 0 <= k < i ==> RenameDef(old(hyps[k])).Ok? && hyps[k] == RenameDef(old(hyps[k])).value) &&
        (forall k :: i <= k < hyps.Length ==> hyps[k] == old(hyps[k]))
  {
    var i := 0;
    while i < hyps.Length
      invariant 0 <= i <= hyps.Length
      invariant forall k :: 0 <= k < i ==> RenameDef(old(hyps[k])).Ok? && hyps[k] == RenameDef(old(hyps[k])).value
      invariant forall k :: i <= k < hyps.Length ==> hyps[k] == old(hyps[k])
    {
      var has := Contains("def", hyps[i]);
      if has.Err? {
        return Fail(has.error);
      }
      if has.value {
        match hyps[i]
        case JObject(m) =>
          hyps[i] := JObject(m["definition" := m["def"]] - {"def"});
        case _ =>
          return Fail(TypeError);
      }
      i := i + 1;
    }
    ghost var was := old(hyps[..]);
    assert forall k :: 0 <= k < |was| ==> RenameDef(was[k]).Ok? && hyps[..][k] == RenameDef(was[k]).value;
    return Pass;
  }

  /** `Goal.parse`. */
  method ParseGoal(goal: Json) returns (r: Res<Option<Goal>>)
    ensures r == GoalOf(goal)
  {
    var has :- Contains("hyps", goal);
    if !has {
      return Ok(None);
    }
    var hs :- GetKey(goal, "hyps");
    var items :- Iterate(hs);
    var a := new Json[|items|](i requires 0 <= i < |items| => items[i]);
    assert a[..] == items;
    var renaming := RenameDefsInPlace(a);
    if renaming.Fail? {
      return Err(renaming.error);
    }
    var hyps :- Traverse(a[..], HypOf);
    var ty := if "ty" in goal.fields then goal.fields["ty"] else JNull;
    return Ok(Some(Goal(hyps, ty)));
  }

  /**
   * `Goal.parse` succeeds on a dictionary with hypotheses exactly when they
   * form a list and every entry is accepted by `Hyp(**hyp)` once renamed.
   */
  lemma {:induction false} GoalAccepted(m: map<string, Json>)
    requires "hyps" in m
    ensures GoalOf(JObject(m)).Ok? <==>
      m["hyps"].JList? && forall i :: 0 <= i < |m["hyps"].items| ==> HypAccepted(m["hyps"].items[i])
  {
  }

  // ---------------------------------------------------------------------------
  // GoalConfig.parse

  /** `parse_goals`: `Goal.parse` on every entry of a list. */
  function GoalsOf(goals: Json): (r: Res<GoalList>)
    ensures r.Ok? ==> DecodedGoals(goals, r.value)
  {
    var items :- Iterate(goals);
    Traverse(items, GoalOf)
  }

  /** `gs` are decoded one per entry of the list `j`, each by `Goal.parse`. */
  predicate DecodedGoals(j: Json, gs: GoalList) {
    j.JList? && |gs| == |j.items| && forall i :: 0 <= i < |gs| ==> GoalOf(j.items[i]) == Ok(gs[i])
  }

  /** `(parse_goals(t[0]), parse_goals(t[1]))` for one stack entry. */
  function StackEntryOf(t: Json): (r: Res<(GoalList, GoalList)>)
    ensures r.Ok? ==> t.JList? && |t.items| >= 2
    ensures r.Ok? ==> DecodedGoals(t.items[0], r.value.0) && DecodedGoals(t.items[1], r.value.1)
  {
    var t0 :- Index(t, 0);
    var g0 :- GoalsOf(t0);
    var t1 :- Index(t, 1);
    var g1 :- GoalsOf(t1);
    Ok((g0, g1))
  }

  /** The stack `st` is decoded entry by entry from the list `j`. */
  predicate DecodedStack(j: Json, st: seq<(GoalList, GoalList)>) {
    && j.JList? && |st| == |j.items|
    && forall i :: 0 <= i < |st| ==>
         j.items[i].JList? && |j.items[i].items| >= 2 &&
         DecodedGoals(j.items[i].items[0], st[i].0) && DecodedGoals(j.items[i].items[1], st[i].1)
  }

  /** What `GoalConfig.parse` returns or raises for `config`. */
  function GoalConfigOf(config: Json): (r: Res<GoalConfig>)
    ensures config.JObject? && "goals" !in config.fields ==> r == Err(KeyError(JStr("goals")))
    ensures r.Ok? ==> config.JObject? && {"goals", "stack", "shelf", "given_up"} <= config.fields.Keys
    ensures r.Ok? ==>
      && DecodedGoals(config.fields["goals"], r.value.goals)
      && DecodedStack(config.fields["stack"], r.value.stack)
      && DecodedGoals(config.fields["shelf"], r.value.shelf)
      && DecodedGoals(config.fields["given_up"], r.value.givenUp)
      && r.value.bullet == ArgOr(config.fields, "bullet", JNull)
  {
    var g :- GetKey(config, "goals");
    var goals :- GoalsOf(g);
    var s :- GetKey(config, "stack");
    var entries :- Iterate(s);
    var stack :- Traverse(entries, StackEntryOf);
    var bullet := ArgOr(config.fields, "bullet", JNull);
    var sh :- GetKey(config, "shelf");
    var shelf :- GoalsOf(sh);
    var gu :- GetKey(config, "given_up");
    var givenUp :- GoalsOf(gu);
    Ok(GoalConfig(goals, stack, shelf, givenUp, bullet))
  }

  // ---------------------------------------------------------------------------
  // The wire form the server sends, and the round trips through the decoders

  function EncodeHyp(h: Hyp): Json {
    JObject(map["names" := h.names, "ty" := h.ty, "def" := h.definition])
  }

  function EncodeGoal(g: Goal): Json {
    JObject(map["hyps" := JList(Map(g.hyps, EncodeHyp)), "ty" := g.ty])
  }

  /** An entry without `hyps` stands for a `None` goal. */
  function EncodeGoalEntry(g: Option<Goal>): Json {
    match g
    case None => JObject(map[])
    case Some(goal) => EncodeGoal(goal)
  }

  function EncodeGoals(gs: GoalList): Json {
    JList(Map(gs, EncodeGoalEntry))
  }

  function EncodeStackEntry(e: (GoalList, GoalList)): Json {
    JList([EncodeGoals(e.0), EncodeGoals(e.1)])
  }

  function EncodeGoalConfig(c: GoalConfig): Json {
    JObject(map[
      "goals" := EncodeGoals(c.goals),
      "stack" := JList(Map(c.stack, EncodeStackEntry)),
      "shelf" := EncodeGoals(c.shelf),
      "given_up" := EncodeGoals(c.givenUp),
      "bullet" := c.bullet])
  }

  lemma HypRoundTrip(h: Hyp)
    ensures RenameDef(EncodeHyp(h)).Ok?
    ensures HypOf(RenameDef(EncodeHyp(h)).value) == Ok(h)
  {
  }

  /** Decoding the wire form of a goal gives the goal back. */
  lemma {:induction false} GoalRoundTrip(g: Goal)
    ensures GoalOf(EncodeGoal(g)) == Ok(Some(g))
  {
    var items := Map(g.hyps, EncodeHyp);
    forall i | 0 <= i < |items| ensures RenameDef(items[i]).Ok? && HypOf(RenameDef(items[i]).value) == Ok(g.hyps[i]) {
      HypRoundTrip(g.hyps[i]);
    }
    var renamed := Traverse(items, RenameDef);
    assert renamed.Ok?;
    var hyps := Traverse(renamed.value, HypOf);
    assert hyps.Ok? && |hyps.value| == |g.hyps|;
    assert forall i :: 0 <= i < |g.hyps| ==> hyps.value[i] == g.hyps[i];
    assert hyps.value == g.hyps;
  }

  lemma {:induction false} GoalsRoundTrip(gs: GoalList)
    ensures GoalsOf(EncodeGoals(gs)) == Ok(gs)
  {
    forall g | g in gs ensures GoalOf(EncodeGoalEntry(g)) == Ok(g) {
      if g.Some? {
        GoalRoundTrip(g.value);
      }
    }
    TraverseInverse(gs, EncodeGoalEntry, GoalOf);
  }

  /** `GoalConfig.parse` on a dictionary whose five parts each decode. */
  lemma GoalConfigOfParts(m: map<string, Json>, c: GoalConfig, stack: seq<Json>)
    requires {"goals", "stack", "shelf", "given_up"} <= m.Keys
    requires GoalsOf(m["goals"]) == Ok(c.goals)
    requires m["stack"] == JList(stack) && Traverse(stack, StackEntryOf) == Ok(c.stack)
    requires GoalsOf(m["shelf"]) == Ok(c.shelf)
    requires GoalsOf(m["given_up"]) == Ok(c.givenUp)
    requires ArgOr(m, "bullet", JNull) == c.bullet
    ensures GoalConfigOf(JObject(m)) == Ok(c)
  {
  }

  /** Decoding the wire form of a goal configuration gives it back. */
  lemma {:induction false} GoalConfigRoundTrip(c: GoalConfig)
    ensures GoalConfigOf(EncodeGoalConfig(c)) == Ok(c)
  {
    var m := EncodeGoalConfig(c).fields;
    GoalsRoundTrip(c.goals);
    GoalsRoundTrip(c.shelf);
    GoalsRoundTrip(c.givenUp);
    StackRoundTrip(c.stack);
    GoalConfigOfParts(m, c, Map(c.stack, EncodeStackEntry));
  }

  /** Decoding the wire form of a goal stack gives it back. */
  lemma {:induction false} StackRoundTrip(stack: seq<(GoalList, GoalList)>)
    ensures Traverse(Map(stack, EncodeStackEntry), StackEntryOf) == Ok(stack)
  {
    forall e | e in stack ensures StackEntryOf(EncodeStackEntry(e)) == Ok(e) {
      StackEntryRoundTrip(e);
    }
    TraverseInverse(stack, EncodeStackEntry, StackEntryOf);
  }

  lemma StackEntryRoundTrip(e: (GoalList, GoalList))
    ensures StackEntryOf(EncodeStackEntry(e)) == Ok(e)
  {
    GoalsRoundTrip(e.0);
    GoalsRoundTrip(e.1);
  }
}
