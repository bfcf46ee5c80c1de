/** Cutting the brief's changes into steps: a validated LLM plan or the deterministic one, then the enhance step
    (src/services/connectors/openrouter_planner.py, src/services/planner.py, src/graph/nodes.py). */
module Planner {
  import opened Schemas
  import opened Money
  import opened Text
  import opened BudgetOps
  import opened Budget

  datatype Change = Change(target: string, instruction: string)
  datatype Analysis = Analysis(changes: seq<Change>, preserve: seq<string>)

  function Targets(a: Analysis): set<string> {
    set c | c in a.changes :: c.target
  }

  // ----- The deterministic plan -----

  predicate SceneWord(word: string) {
    word in {"background", "backdrop", "setting", "scene", "environment", "lighting", "light", "grade", "color",
             "colour", "tone"}
  }

  predicate AccessoryWord(word: string) {
    word in {"accessory", "accessories", "glasses", "sunglasses", "earring", "earrings", "earbud", "headset", "hat",
             "cap", "mic", "microphone", "jewelry", "jewellery", "necklace", "headphones"}
  }

  predicate Separates(c: char) {
    IsSpace(c) || c == '_'
  }

  function WordLength(s: string): (n: nat)
    ensures n <= |s|
  {
    if s != "" && !Separates(s[0]) then 1 + WordLength(s[1..]) else 0
  }

  function Words(s: string): seq<string>
    decreases |s|
  {
    if s == "" then []
    else if Separates(s[0]) then Words(s[1..])
    else [s[..WordLength(s)]] + Words(s[WordLength(s)..])
  }

  /** Identity sensitivity: scene first, then body and clothing, accessories and the face last. */
  function Rank(c: Change): (r: nat)
    ensures r <= 2
  {
    var words := Words(Lower(c.target));
    if exists w :: w in words && SceneWord(w) then 0
    else if exists w :: w in words && AccessoryWord(w) then 2
    else 1
  }

  /** Inserts behind everything of the same or a lower rank. */
  function Insert(c: Change, sorted: seq<Change>): seq<Change> {
    if sorted == [] then [c]
    else
      var last := sorted[|sorted| - 1];
      if Rank(last) <= Rank(c) then sorted + [c] else Insert(c, sorted[..|sorted| - 1]) + [last]
  }

  /** The stable sort by rank. */
  function ByRank(changes: seq<Change>): seq<Change> {
    if changes == [] then []
    else Insert(changes[|changes| - 1], ByRank(changes[..|changes| - 1]))
  }

  predicate RankOrdered(changes: seq<Change>) {
    forall i, j | 0 <= i < j < |changes| :: Rank(changes[i]) <= Rank(changes[j])
  }

  function OfRank(changes: seq<Change>, rank: nat): seq<Change> {
    if changes == [] then []
    else
      var last := changes[|changes| - 1];
      OfRank(changes[..|changes| - 1], rank) + (if Rank(last) == rank then [last] else [])
  }

  lemma {:induction false} InsertOrders(c: Change, sorted: seq<Change>)
    requires RankOrdered(sorted)
    ensures RankOrdered(Insert(c, sorted))
    ensures forall x | x in Insert(c, sorted) :: x == c || x in sorted
  {
    hide Rank;
    if sorted != [] {
      var last, front := sorted[|sorted| - 1], sorted[..|sorted| - 1];
      InsertOrders(c, front);
      assert forall i | 0 <= i < |front| :: Rank(front[i]) <= Rank(last);
      assert forall x | x in Insert(c, front) && Rank(c) < Rank(last) :: Rank(x) <= Rank(last);
    }
  }

  lemma {:induction false} InsertPermutes(c: Change, sorted: seq<Change>)
    ensures multiset(Insert(c, sorted)) == multiset(sorted) + multiset{c}
  {
    hide Rank;
    if sorted != [] {
      InsertPermutes(c, sorted[..|sorted| - 1]);
      assert sorted == sorted[..|sorted| - 1] + [sorted[|sorted| - 1]];
    }
  }

  lemma OfRankAppend(changes: seq<Change>, c: Change, rank: nat)
    ensures OfRank(changes + [c], rank) == OfRank(changes, rank) + (if Rank(c) == rank then [c] else [])
  {
    assert (changes + [c])[..|changes|] == changes;
  }

  lemma {:induction false} InsertIsStable(c: Change, sorted: seq<Change>, rank: nat)
    ensures OfRank(Insert(c, sorted), rank) == OfRank(sorted + [c], rank)
  {
    hide Rank;
    OfRankAppend(sorted, c, rank);
    if sorted != [] {
      var last, front := sorted[|sorted| - 1], sorted[..|sorted| - 1];
      if Rank(last) > Rank(c) {
        InsertIsStable(c, front, rank);
        OfRankAppend(front, c, rank);
        OfRankAppend(Insert(c, front), last, rank);
      }
    }
  }

  /** The fallback's order: a permutation, sorted by rank, and stable: within a rank the brief's order survives. */
  lemma {:induction false} ByRankIsStableSort(changes: seq<Change>, rank: nat)
    ensures RankOrdered(ByRank(changes))
    ensures multiset(ByRank(changes)) == multiset(changes)
    ensures OfRank(ByRank(changes), rank) == OfRank(changes, rank)
  {
    hide Rank, Insert;
    if changes != [] {
      var front, last := changes[..|changes| - 1], changes[|changes| - 1];
      ByRankIsStableSort(front, rank);
      InsertOrders(last, ByRank(front));
      InsertPermutes(last, ByRank(front));
      InsertIsStable(last, ByRank(front), rank);
      OfRankAppend(ByRank(front), last, rank);
      assert changes == front + [last];
    }
  }

  function Grouped(changes: seq<Change>): seq<Change> {
    OfRank(changes, 0) + OfRank(changes, 1) + OfRank(changes, 2)
  }

  /** A rank-ordered list is its three rank groups in turn, so the stable sort is the only such order. */
  lemma {:induction false} RankOrderedGroups(changes: seq<Change>)
    requires RankOrdered(changes)
    ensures changes == Grouped(changes)
  {
    hide Rank, Grouped;
    if changes == [] {
      GroupedEmpty();
    } else {
      var front, last := changes[..|changes| - 1], changes[|changes| - 1];
      RankOrderedGroups(front);
      GroupedAppend(front, last);
      assert changes == front + [last];
    }
  }

  lemma GroupedEmpty()
    ensures Grouped([]) == []
  {
  }

  lemma GroupedAppend(front: seq<Change>, last: Change)
    requires forall i | 0 <= i < |front| :: Rank(front[i]) <= Rank(last)
    ensures Grouped(front + [last]) == Grouped(front) + [last]
  {
    hide Rank, OfRank;
    var rank := Rank(last);
    NoneAbove(front, rank);
    OfRankAppend(front, last, 0);
    OfRankAppend(front, last, 1);
    OfRankAppend(front, last, 2);
    Regroup(OfRank(front, 0), OfRank(front, 1), OfRank(front, 2), last);
  }

  lemma Regroup<T>(a: seq<T>, b: seq<T>, c: seq<T>, x: T)
    ensures a + b + c + [x] == a + b + (c + [x])
    ensures c == [] ==> a + b + c + [x] == a + (b + [x]) + c
    ensures b == [] && c == [] ==> a + b + c + [x] == (a + [x]) + b + c
  {
  }

  lemma {:induction false} NoneAbove(changes: seq<Change>, bound: nat)
    requires forall i | 0 <= i < |changes| :: Rank(changes[i]) <= bound
    ensures forall rank: nat | bound < rank :: OfRank(changes, rank) == []
  {
    hide Rank;
    if changes != [] {
      NoneAbove(changes[..|changes| - 1], bound);
    }
  }

  function StepFor(c: Change, n: nat): EditStep {
    EditStep(n, c.target, c.instruction, [c.target], "", false, Pending, None)
  }

  /** One change, one step, scene first and face last. */
  function DeterministicSteps(a: Analysis): (steps: seq<EditStep>)
    ensures |steps| == |ByRank(a.changes)|
  {
    var ordered := ByRank(a.changes);
    seq(|ordered|, i requires 0 <= i < |ordered| => StepFor(ordered[i], i + 1))
  }

  // ----- Validating the LLM's plan -----

  datatype Json =
    | Null
    | Bool(value: bool)
    | Number(number: real)
    | Str(text: string)
    | Array(items: seq<Json>)
    | Object(fields: map<string, Json>)

  function Field(j: Json, name: string): Json {
    if j.Object? && name in j.fields then j.fields[name] else Null
  }

  predicate Phrase(j: Json) {
    j.Str? && !Blank(j.text)
  }

  predicate Strings(j: Json) {
    j.Array? && forall t | t in j.items :: t.Str?
  }

  predicate WellFormed(item: Json) {
    item.Object? && Phrase(Field(item, "title")) && Phrase(Field(item, "instruction"))
        && Strings(Field(item, "targets"))
  }

  /** The non-blank targets, stripped. */
  function Clean(items: seq<Json>): seq<string>
    requires forall t | t in items :: t.Str?
  {
    if items == [] then []
    else
      var last := items[|items| - 1];
      Clean(items[..|items| - 1]) + (if Blank(last.text) then [] else [Strip(last.text)])
  }

  /** The step an accepted item becomes; the applied phrase is advisory. */
  function StepOf(item: Json, n: nat): EditStep
    requires WellFormed(item)
  {
    var applied := Field(item, "applied");
    EditStep(n, Strip(Field(item, "title").text), Strip(Field(item, "instruction").text),
             Clean(Field(item, "targets").items), if applied.Str? then Strip(applied.text) else "",
             false, Pending, None)
  }

  function Elements(xs: seq<string>): set<string> {
    set x | x in xs
  }

  function Covered(steps: seq<EditStep>): set<string> {
    if steps == [] then {} else Covered(steps[..|steps| - 1]) + Elements(steps[|steps| - 1].targets)
  }

  predicate DisjointTargets(steps: seq<EditStep>) {
    forall i, j | 0 <= i < j < |steps| :: Elements(steps[i].targets) !! Elements(steps[j].targets)
  }

  predicate OnlyWanted(steps: seq<EditStep>, wanted: set<string>) {
    forall i | 0 <= i < |steps| :: Elements(steps[i].targets) <= wanted
  }

  /** What an acceptable plan is: every target in at most one step, every wanted target in some, and none that was
      not wanted unless extra ones may be discovered. */
  predicate Sound(steps: seq<EditStep>, wanted: set<string>, allowExtra: bool) {
    && steps != []
    && DisjointTargets(steps)
    && (!allowExtra ==> OnlyWanted(steps, wanted))
    && wanted <= Covered(steps)
  }

  function StepsOf(items: seq<Json>): (steps: seq<EditStep>)
    requires forall item | item in items :: WellFormed(item)
    ensures |steps| == |items|
  {
    seq(|items|, i requires 0 <= i < |items| => StepOf(items[i], i + 1))
  }

  /** The reply is a list of well-formed steps that make a sound plan. */
  predicate Acceptable(content: Option<Json>, wanted: set<string>, allowExtra: bool) {
    && content.Some? && Field(content.value, "steps").Array?
    && (forall item | item in Field(content.value, "steps").items :: WellFormed(item))
    && Sound(StepsOf(Field(content.value, "steps").items), wanted, allowExtra)
  }

  lemma {:induction false} CoveredMembers(steps: seq<EditStep>, t: string)
    ensures t in Covered(steps) <==> exists i :: 0 <= i < |steps| && t in steps[i].targets
  {
    if steps != [] {
      var front := steps[..|steps| - 1];
      CoveredMembers(front, t);
      assert t in Elements(steps[|steps| - 1].targets) <==> t in steps[|steps| - 1].targets;
      if t in Covered(front) {
        var i :| 0 <= i < |front| && t in front[i].targets;
        assert t in steps[i].targets;
      }
    }
  }

  /** Accepts exactly the sound plans, and returns the plan the reply describes. `content` is the decoded message,
      `None` when the reply carries none. */
  method ParseSteps(content: Option<Json>, wanted: set<string>,
      allowExtra: bool) returns (result: Option<seq<EditStep>>)
    ensures result.Some? <==> Acceptable(content, wanted, allowExtra)
    ensures result.Some? ==> result.value == StepsOf(Field(content.value, "steps").items)
  {
    if content.None? || !Field(content.value, "steps").Array? || Field(content.value, "steps").items == [] {
      return None;
    }
    var raw := Field(content.value, "steps").items;
    var covered: set<string> := {};
    var steps: seq<EditStep> := [];
    assert Covered([]) == {};
    hide StepOf, WellFormed, Covered, StepsOf, DisjointTargets, OnlyWanted;
    for i := 0 to |raw|
      invariant forall item | item in raw[..i] :: WellFormed(item)
      invariant steps == StepsOf(raw[..i]) && covered == Covered(steps)
      invariant DisjointTargets(steps) && (!allowExtra ==> OnlyWanted(steps, wanted))
    {
      if !WellFormed(raw[i]) {
        return None;
      }
      assert raw[..i + 1] == raw[..i] + [raw[i]];
      var step := StepOf(raw[i], i + 1);
      StepsGrow(raw, i);
      StepJoins(steps, step, wanted);
      if !allowExtra && !(Elements(step.targets) <= wanted) {
        Rejected(raw, i, wanted, allowExtra);
        return None;
      }
      if covered * Elements(step.targets) != {} {
        Rejected(raw, i, wanted, allowExtra);
        return None;
      }
      covered := covered + Elements(step.targets);
      steps := steps + [step];
    }
    assert raw[..|raw|] == raw;
    if !(wanted <= covered) {
      return None;
    }
    result := Some(steps);
  }

  lemma StepsGrow(raw: seq<Json>, i: nat)
    requires i < |raw| && forall item | item in raw[..i + 1] :: WellFormed(item)
    ensures forall item | item in raw[..i] :: WellFormed(item)
    ensures WellFormed(raw[i]) && StepsOf(raw[..i + 1]) == StepsOf(raw[..i]) + [StepOf(raw[i], i + 1)]
  {
    hide StepOf, WellFormed;
    assert raw[..i + 1] == raw[..i] + [raw[i]];
  }

  /** A step joins a plan with disjoint targets exactly when it shares none with what is covered. */
  lemma StepJoins(steps: seq<EditStep>, step: EditStep, wanted: set<string>)
    requires DisjointTargets(steps)
    ensures Covered(steps + [step]) == Covered(steps) + Elements(step.targets)
    ensures DisjointTargets(steps + [step]) <==> Covered(steps) * Elements(step.targets) == {}
    ensures OnlyWanted(steps + [step], wanted) <==> OnlyWanted(steps, wanted) && Elements(step.targets) <= wanted
  {
    CoveredGrows(steps, step);
    hide Covered;
    var longer := steps + [step];
    if Covered(steps) * Elements(step.targets) == {} {
      DisjointFromAll(steps, Elements(step.targets));
      assert forall i | 0 <= i < |steps| :: longer[i] == steps[i];
    } else {
      Overlaps(steps, Elements(step.targets));
      assert longer[|steps|] == step && forall i | 0 <= i < |steps| :: longer[i] == steps[i];
    }
    assert forall i | 0 <= i < |longer| :: longer[i] == if i < |steps| then steps[i] else step;
    assert OnlyWanted(longer, wanted) ==> Elements(longer[|steps|].targets) <= wanted;
    assert OnlyWanted(longer, wanted) ==> forall i | 0 <= i < |steps| :: Elements(longer[i].targets) <= wanted;
  }

  lemma CoveredGrows(steps: seq<EditStep>, step: EditStep)
    ensures Covered(steps + [step]) == Covered(steps) + Elements(step.targets)
  {
    assert (steps + [step])[..|steps|] == steps;
  }

  lemma DisjointFromAll(steps: seq<EditStep>, clean: set<string>)
    requires Covered(steps) * clean == {}
    ensures forall k | 0 <= k < |steps| :: Elements(steps[k].targets) !! clean
  {
    hide Covered;
    forall k | 0 <= k < |steps| ensures Elements(steps[k].targets) !! clean {
      forall t | t in steps[k].targets ensures t !in clean {
        CoveredMembers(steps, t);
        assert t in clean ==> t in Covered(steps) * clean;
      }
    }
  }

  lemma Overlaps(steps: seq<EditStep>, clean: set<string>)
    requires Covered(steps) * clean != {}
    ensures exists k :: 0 <= k < |steps| && !(Elements(steps[k].targets) !! clean)
  {
    var t :| t in Covered(steps) * clean;
    CoveredMembers(steps, t);
    var k :| 0 <= k < |steps| && t in steps[k].targets;
    assert t in Elements(steps[k].targets) && t in clean;
  }

  /** A prefix that already breaks a rule makes the whole reply unacceptable. */
  lemma Rejected(raw: seq<Json>, i: nat, wanted: set<string>, allowExtra: bool)
    requires i < |raw| && forall item | item in raw[..i + 1] :: WellFormed(item)
    requires var steps := StepsOf(raw[..i + 1]);
      !DisjointTargets(steps) || (!allowExtra && !OnlyWanted(steps, wanted))
    ensures (forall item | item in raw :: WellFormed(item)) ==> !Sound(StepsOf(raw), wanted, allowExtra)
  {
    hide StepOf, WellFormed, Covered;
    if forall item | item in raw :: WellFormed(item) {
      var steps, prefix := StepsOf(raw), StepsOf(raw[..i + 1]);
      assert forall k | 0 <= k < |prefix| :: prefix[k] == steps[k];
    }
  }

  // ----- What an accepted plan means -----

  /** Each wanted target sits in exactly one step of an accepted plan. */
  lemma ExactlyOneStep(steps: seq<EditStep>, wanted: set<string>, allowExtra: bool, t: string) returns (home: nat)
    requires Sound(steps, wanted, allowExtra) && t in wanted
    ensures home < |steps| && forall i | 0 <= i < |steps| :: t in steps[i].targets <==> i == home
  {
    CoveredMembers(steps, t);
    home :| 0 <= home < |steps| && t in steps[home].targets;
    forall i | 0 <= i < |steps| ensures t in steps[i].targets <==> i == home {
      if i < home {
        assert Elements(steps[i].targets) !! Elements(steps[home].targets);
      } else if home < i {
        assert Elements(steps[home].targets) !! Elements(steps[i].targets);
      }
      assert t in Elements(steps[i].targets) <==> t in steps[i].targets;
    }
  }

  lemma {:induction false} CleanIsStripped(items: seq<Json>)
    requires forall t | t in items :: t.Str?
    ensures forall s | s in Clean(items) :: s != "" && Strip(s) == s
  {
    if items != [] {
      CleanIsStripped(items[..|items| - 1]);
      StripIdempotent(items[|items| - 1].text);
    }
  }

  lemma {:induction false} TrimRightKeepsLeft(s: string)
    requires s == "" || !IsSpace(s[0])
    ensures TrimRight(s) == "" || (TrimRight(s)[0] == s[0] && !IsSpace(TrimRight(s)[|TrimRight(s)| - 1]))
  {
    hide IsSpace;
    if s != "" && IsSpace(s[|s| - 1]) {
      TrimRightKeepsLeft(s[..|s| - 1]);
    }
  }

  lemma {:induction false} TrimLeftTrims(s: string)
    ensures TrimLeft(s) == "" || !IsSpace(TrimLeft(s)[0])
  {
    hide IsSpace;
    if s != "" && IsSpace(s[0]) {
      TrimLeftTrims(s[1..]);
    }
  }

  lemma StripIdempotent(s: string)
    ensures Strip(Strip(s)) == Strip(s)
  {
    hide IsSpace;
    TrimLeftTrims(s);
    TrimRightKeepsLeft(TrimLeft(s));
  }

  /** Explicit targets are compared as the brief spells them, the reply's after stripping: a brief target that is
      blank or padded can never be covered, so every reply is rejected and the fallback plans it. */
  lemma PaddedTargetAlwaysFallsBack(content: Option<Json>, wanted: set<string>, allowExtra: bool, t: string)
    requires t in wanted && (Blank(t) || Strip(t) != t)
    ensures !Acceptable(content, wanted, allowExtra)
  {
    if Acceptable(content, wanted, allowExtra) {
      var raw := Field(content.value, "steps").items;
      var home := ExactlyOneStep(StepsOf(raw), wanted, allowExtra, t);
      assert raw[home] in raw;
      assert StepsOf(raw)[home] == StepOf(raw[home], home + 1);
      assert t in Clean(Field(raw[home], "targets").items);
      CleanIsStripped(Field(raw[home], "targets").items);
    }
  }

  // ----- A reply as the model is asked to write it -----

  function Strs(texts: seq<string>): (items: seq<Json>)
    ensures forall t | t in items :: t.Str?
  {
    if texts == [] then [] else Strs(texts[..|texts| - 1]) + [Str(texts[|texts| - 1])]
  }

  /** A step written as JSON, with the applied phrase left out when there is none. */
  function Written(step: EditStep): Json {
    var fields := map["title" := Str(step.title), "instruction" := Str(step.instruction),
                      "targets" := Array(Strs(step.targets))];
    Object(if step.applied == "" then fields else fields["applied" := Str(step.applied)])
  }

  function Reply(steps: seq<EditStep>): Json {
    Object(map["steps" := Array(seq(|steps|, i requires 0 <= i < |steps| => Written(steps[i])))])
  }

  predicate Tidy(text: string) {
    text != "" && Strip(text) == text
  }

  /** A step a reply can say: tidy texts, pending, in its place. */
  predicate Sayable(step: EditStep, n: nat) {
    && Tidy(step.title) && Tidy(step.instruction) && (forall t | t in step.targets :: Tidy(t))
    && (step.applied != "" ==> Tidy(step.applied))
    && step.n == n && !step.isEnhance && step.status == Pending && step.resultRef.None?
  }

  lemma {:induction false} CleanOfStrs(texts: seq<string>)
    requires forall t | t in texts :: Tidy(t)
    ensures Clean(Strs(texts)) == texts
  {
    hide Strip;
    if texts != [] {
      var front, last := texts[..|texts| - 1], texts[|texts| - 1];
      CleanOfStrs(front);
      var items := Strs(texts);
      assert items[..|items| - 1] == Strs(front) && items[|items| - 1] == Str(last);
      assert Tidy(last);
    }
  }

  lemma WrittenReadsBack(step: EditStep, n: nat)
    requires Sayable(step, n)
    ensures WellFormed(Written(step)) && StepOf(Written(step), n) == step
  {
    hide Strip, Clean, Strs;
    CleanOfStrs(step.targets);
    WrittenFields(step);
    hide Field, Written;
  }

  lemma WrittenFields(step: EditStep)
    ensures var item, applied := Written(step), Field(Written(step), "applied");
      && item.Object? && Field(item, "title") == Str(step.title) && Field(item, "instruction") == Str(step.instruction)
      && Field(item, "targets") == Array(Strs(step.targets))
      && applied == (if step.applied == "" then Null else Str(step.applied))
  {
    hide Strs;
  }

  /** Every sound plan can be said and is understood: its JSON is accepted and read back as exactly that plan. */
  lemma ReplyRoundTrip(steps: seq<EditStep>, wanted: set<string>, allowExtra: bool)
    requires Sound(steps, wanted, allowExtra) && forall i | 0 <= i < |steps| :: Sayable(steps[i], i + 1)
    ensures Acceptable(Some(Reply(steps)), wanted, allowExtra)
    ensures StepsOf(Field(Reply(steps), "steps").items) == steps
  {
    hide WellFormed, StepOf, Written, Sound, Sayable;
    var items := Field(Reply(steps), "steps").items;
    forall i | 0 <= i < |steps| ensures WellFormed(items[i]) && StepOf(items[i], i + 1) == steps[i] {
      WrittenReadsBack(steps[i], i + 1);
    }
    forall item | item in items ensures WellFormed(item) {
      var i :| 0 <= i < |items| && items[i] == item;
    }
    assert StepsOf(items) == steps;
  }

  /** What an accepted reply says is what the plan does, text by text: titles and instructions without the white space
      around them, the targets that are not blank, and the applied phrase when it is a text. */
  lemma AcceptedPlanSays(content: Json, wanted: set<string>, allowExtra: bool, i: nat, t: string)
    requires Acceptable(Some(content), wanted, allowExtra) && i < |Field(content, "steps").items|
    ensures var item, step := Field(content, "steps").items[i], StepsOf(Field(content, "steps").items)[i];
      && item.Object? && "title" in item.fields && "instruction" in item.fields && "targets" in item.fields
      && item.fields["title"].Str? && item.fields["instruction"].Str? && item.fields["targets"].Array?
      && step.n == i + 1 && step.title == Strip(item.fields["title"].text) && step.title != ""
      && step.instruction == Strip(item.fields["instruction"].text) && step.instruction != ""
      && (t in step.targets <==>
            t != "" && exists k | 0 <= k < |item.fields["targets"].items| ::
              item.fields["targets"].items[k].Str? && t == Strip(item.fields["targets"].items[k].text))
      && step.applied == (if "applied" in item.fields && item.fields["applied"].Str?
                          then Strip(item.fields["applied"].text) else "")
  {
    var item := Field(content, "steps").items[i];
    assert item in Field(content, "steps").items;
    hide Strip, Clean, Sound;
    CleanMembers(Field(item, "targets").items, t);
  }

  lemma {:induction false} CleanMembers(items: seq<Json>, t: string)
    requires forall item | item in items :: item.Str?
    ensures t in Clean(items) <==> t != "" && exists k | 0 <= k < |items| :: t == Strip(items[k].text)
  {
    hide Strip;
    if items != [] {
      var front := items[..|items| - 1];
      CleanMembers(front, t);
      assert forall k | 0 <= k < |front| :: front[k] == items[k];
    }
  }

  // ----- The planner -----

  /** One planner call: it raised, or answered with a (possibly undecodable) message and a bill. */
  datatype PlannerReply = Raised | Answered(content: Option<Json>, billed: Option<Usd>)
  datatype PlanResult = PlanResult(steps: seq<EditStep>, cost: Usd)

  /** A single change with nothing to reconcile is planned without a call. */
  predicate NeedsCall(a: Analysis, hasInventory: bool) {
    |a.changes| >= 2 || (hasInventory && a.preserve != [])
  }

  predicate Usable(a: Analysis, hasInventory: bool, reply: PlannerReply) {
    reply.Answered? && Acceptable(reply.content, Targets(a), hasInventory)
  }

  /** The steps planned when the budget admits the call (`admitted`) and the model answers `reply`. */
  function PlannedSteps(a: Analysis, hasInventory: bool, admitted: bool, reply: PlannerReply): seq<EditStep> {
    if NeedsCall(a, hasInventory) && admitted && Usable(a, hasInventory, reply)
    then StepsOf(Field(reply.content.value, "steps").items)
    else DeterministicSteps(a)
  }

  /** Plans under the session's meter. Whatever the model does, the counter grows by exactly the recorded cost, and
      a refused or unusable call costs nothing. */
  method Plan<S, F, V>(meter: Meter<S, F, V>, a: Analysis, hasInventory: bool, reply: PlannerReply)
    returns (result: PlanResult)
    requires SlotFill in meter.flatEstimates
    requires meter.store.Used(meter.key) >= 0
    modifies meter.store`budget
    ensures var flat := meter.flatEstimates[SlotFill];
      var asks := |a.changes| >= 2 || (hasInventory && a.preserve != []);
      var admitted := Admits(old(meter.store.Used(meter.key)), ToMicro(flat), meter.limitMicro);
      var taken := asks && admitted && reply.Answered? && Acceptable(reply.content, Targets(a), hasInventory);
      && result.steps == PlannedSteps(a, hasInventory, admitted, reply)
      && result.steps == (if taken then StepsOf(Field(reply.content.value, "steps").items) else DeterministicSteps(a))
      && result.cost == (if !taken then 0.0 else if reply.billed.Some? then reply.billed.value else flat)
    ensures meter.store.Used(meter.key) == old(meter.store.Used(meter.key)) + ToMicro(result.cost)
    ensures forall k | k != meter.key :: meter.store.Used(k) == old(meter.store.Used(k))
  {
    hide Acceptable, StepsOf, DeterministicSteps, Targets;
    ToMicroNonNegative(0.0);
    ToMicroNonNegative(meter.flatEstimates[SlotFill]);
    if !NeedsCall(a, hasInventory) {
      return PlanResult(DeterministicSteps(a), 0.0);
    }
    var reservation := meter.Reserve(SlotFill, None);
    if reservation == null {
      return PlanResult(DeterministicSteps(a), 0.0);
    }
    if reply.Answered? {
      var steps := ParseSteps(reply.content, Targets(a), hasInventory);
      if steps.Some? {
        var cost := reservation.Settle(reply.billed);
        ToMicroNonNegative(cost.value);
        return PlanResult(steps.value, cost.value);
      }
    }
    var _ := reservation.Cancel();
    result := PlanResult(DeterministicSteps(a), 0.0);
  }

  lemma {:induction false} ByRankMembers(changes: seq<Change>, c: Change)
    ensures c in ByRank(changes) <==> c in changes
  {
    ByRankIsStableSort(changes, 0);
    assert c in multiset(changes) <==> c in multiset(ByRank(changes));
  }

  /** For an arbitrary reply the planner covers every explicit change, and without an inventory it targets nothing
      else. */
  lemma PlanCoversEveryChange(a: Analysis, hasInventory: bool, admitted: bool, reply: PlannerReply)
    ensures Targets(a) <= Covered(PlannedSteps(a, hasInventory, admitted, reply))
    ensures !hasInventory ==> Covered(PlannedSteps(a, hasInventory, admitted, reply)) <= Targets(a)
  {
    hide Rank, ByRank;
    var steps := PlannedSteps(a, hasInventory, admitted, reply);
    forall t ensures t in Targets(a) ==> t in Covered(steps)
             ensures !hasInventory && t in Covered(steps) ==> t in Targets(a)
    {
      CoveredMembers(steps, t);
      if NeedsCall(a, hasInventory) && admitted && Usable(a, hasInventory, reply) {
        if t in Covered(steps) {
          var i :| 0 <= i < |steps| && t in steps[i].targets;
          assert t in Elements(steps[i].targets);
        }
      } else {
        FallbackTargets(a, t);
      }
    }
  }

  lemma FallbackTargets(a: Analysis, t: string)
    ensures t in Covered(DeterministicSteps(a)) <==> t in Targets(a)
  {
    hide Rank, ByRank;
    var steps, ordered := DeterministicSteps(a), ByRank(a.changes);
    CoveredMembers(steps, t);
    if t in Targets(a) {
      var c :| c in a.changes && c.target == t;
      ByRankMembers(a.changes, c);
      var i :| 0 <= i < |ordered| && ordered[i] == c;
      assert t in steps[i].targets;
    }
    if t in Covered(steps) {
      var i :| 0 <= i < |steps| && t in steps[i].targets;
      ByRankMembers(a.changes, ordered[i]);
      assert ordered[i].target == t;
    }
  }

  // ----- The plan the user approves -----

  function MainSteps(planned: seq<EditStep>, a: Analysis, presetId: string): seq<EditStep> {
    var steps := if planned != [] then planned else DeterministicSteps(a);
    if steps != [] then steps else [EditStep(1, presetId, "", [], "", false, Pending, None)]
  }

  /** The main steps, then one quality-enhancement step. */
  function FinalPlan(planned: seq<EditStep>, a: Analysis, presetId: string): seq<EditStep> {
    var steps := MainSteps(planned, a, presetId);
    steps + [EditStep(|steps| + 1, "enhance", "", [], "", true, Pending, None)]
  }

  /** Whatever the model answered, the approved plan is the planned steps and one enhance step behind them, which
      changes nothing; numbered from one, all pending, with at least one main step, and covering every explicit change.
      */
  lemma FinalPlanShape(a: Analysis, hasInventory: bool, admitted: bool, reply: PlannerReply, presetId: string)
    ensures var plan := FinalPlan(PlannedSteps(a, hasInventory, admitted, reply), a, presetId);
      && |plan| >= 2
      && (forall i | 0 <= i < |plan| :: plan[i].n == i + 1 && plan[i].status == Pending && plan[i].resultRef.None?)
      && (forall i | 0 <= i < |plan| :: plan[i].isEnhance <==> i == |plan| - 1)
      && Targets(a) <= Covered(plan)
      && plan[|plan| - 1].targets == [] && plan[|plan| - 1].instruction == ""
      && (PlannedSteps(a, hasInventory, admitted, reply) != [] ==>
            plan[..|plan| - 1] == PlannedSteps(a, hasInventory, admitted, reply))
  {
    var planned := PlannedSteps(a, hasInventory, admitted, reply);
    var plan := FinalPlan(planned, a, presetId);
    PlannedAreMain(a, hasInventory, admitted, reply);
    PlanCoversEveryChange(a, hasInventory, admitted, reply);
    assert Covered([]) == {};
    hide PlannedSteps, Covered, Targets, DeterministicSteps;
    CoveredGrows(MainSteps(planned, a, presetId), plan[|plan| - 1]);
  }

  predicate Main(steps: seq<EditStep>) {
    forall i | 0 <= i < |steps| ::
      steps[i].n == i + 1 && steps[i].status == Pending && steps[i].resultRef.None? && !steps[i].isEnhance
  }

  lemma PlannedAreMain(a: Analysis, hasInventory: bool, admitted: bool, reply: PlannerReply)
    ensures Main(PlannedSteps(a, hasInventory, admitted, reply)) && Main(DeterministicSteps(a))
    ensures PlannedSteps(a, hasInventory, admitted, reply) == [] ==> DeterministicSteps(a) == []
  {
    hide Rank, ByRank;
  }
}
