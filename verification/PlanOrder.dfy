/** The order of the fallback plan, told from the words of the brief's targets: the scene first, then the body,
    accessories and the face last (src/services/planner.py). */
module PlanOrder {
  import opened Schemas
  import opened Text
  import opened Planner

  /** The text from `i` to `j` is a word: as long as it can be without white space and underscores. */
  predicate WordAt(s: string, i: nat, j: nat) {
    && i < j <= |s| && (forall k | i <= k < j :: !Separates(s[k]))
    && (i > 0 ==> Separates(s[i - 1])) && (j < |s| ==> Separates(s[j]))
  }

  ghost predicate HasWord(s: string, from: nat, word: string) {
    exists i, j | from <= i < j <= |s| :: WordAt(s, i, j) && word == s[i..j]
  }

  lemma WordShift(s: string, n: nat, i: nat, j: nat)
    requires 0 < n <= i < j <= |s| && (Separates(s[n - 1]) || Separates(s[n]))
    ensures WordAt(s, i, j) <==> WordAt(s[n..], i - n, j - n)
  {
    var t := s[n..];
    assert forall k | n <= k < |s| :: s[k] == t[k - n];
    hide IsSpace, Separates;
    if WordAt(t, i - n, j - n) {
      assert forall k | i <= k < j :: s[k] == t[k - n];
      assert t[i - n] == s[i];
    }
  }

  lemma WordsBehind(s: string, n: nat, word: string)
    requires 0 < n <= |s| && (n < |s| ==> Separates(s[n - 1]) || Separates(s[n]))
    ensures HasWord(s, n, word) <==> HasWord(s[n..], 0, word)
  {
    hide WordAt;
    if HasWord(s, n, word) {
      var i, j :| n <= i < j <= |s| && WordAt(s, i, j) && word == s[i..j];
      WordShift(s, n, i, j);
      assert s[n..][i - n..j - n] == s[i..j];
    }
    if HasWord(s[n..], 0, word) {
      var i, j :| 0 <= i < j <= |s[n..]| && WordAt(s[n..], i, j) && word == s[n..][i..j];
      WordShift(s, n, i + n, j + n);
      assert s[n..][i..j] == s[i + n..j + n];
    }
  }

  lemma {:induction false} WordLengthIsLongest(s: string)
    ensures var n := WordLength(s);
      (forall k | 0 <= k < n :: !Separates(s[k])) && (n < |s| ==> Separates(s[n]))
  {
    hide IsSpace, Separates;
    if s != "" && !Separates(s[0]) {
      WordLengthIsLongest(s[1..]);
    }
  }

  /** The split finds exactly the words. */
  lemma {:induction false} WordsAreRuns(s: string, word: string)
    ensures word in Words(s) <==> HasWord(s, 0, word)
    decreases |s|
  {
    hide IsSpace, Separates;
    if s == "" {
    } else if Separates(s[0]) {
      WordsAreRuns(s[1..], word);
      WordsBehind(s, 1, word);
      assert forall j :: !WordAt(s, 0, j);
    } else {
      var n := WordLength(s);
      WordLengthIsLongest(s);
      WordsAreRuns(s[n..], word);
      WordsBehind(s, n, word);
      forall i: nat, j: nat | i < n
        ensures WordAt(s, i, j) <==> i == 0 && j == n
      {
        FirstWord(s, i, j);
      }
      hide WordAt, WordLength;
      assert s[0..n] == s[..n];
    }
  }

  lemma FirstWord(s: string, i: nat, j: nat)
    requires s != "" && !Separates(s[0]) && i < WordLength(s)
    ensures WordAt(s, i, j) <==> i == 0 && j == WordLength(s)
  {
    hide IsSpace, Separates;
    WordLengthIsLongest(s);
  }

  /** A text without white space or underscores is one word. */
  lemma OneWord(s: string, word: string)
    requires s != "" && forall k | 0 <= k < |s| :: !Separates(s[k])
    ensures HasWord(s, 0, word) <==> word == s
  {
    hide IsSpace, Separates;
    assert WordAt(s, 0, |s|) && s[0..|s|] == s;
    assert forall i: nat, j: nat | WordAt(s, i, j) :: i == 0 && j == |s|;
  }

  /** The words of two texts joined by a blank or an underscore are those of each. */
  lemma JoinedWords(a: string, separator: char, b: string, word: string)
    requires separator == ' ' || separator == '_'
    ensures HasWord(a + [separator] + b, 0, word) <==> HasWord(a, 0, word) || HasWord(b, 0, word)
  {
    var s, n := a + [separator] + b, |a| + 1;
    assert Separates(s[|a|]);
    hide IsSpace, Separates;
    assert s[n..] == b;
    WordsBehind(s, n, word);
    forall i: nat, j: nat | i < n
      ensures WordAt(s, i, j) <==> j <= |a| && WordAt(a, i, j)
    {
      assert forall k | 0 <= k < |a| :: s[k] == a[k];
    }
    hide WordAt;
    assert forall i: nat, j: nat | i < j <= |a| :: s[i..j] == a[i..j];
  }

  /** How close to the identity a change is, by the words of its target: the scene, the body, or the accessories and the
      face. A scene word decides first. */
  datatype Region = Scene | Body | Accessory

  ghost predicate NamesScene(target: string) {
    exists word | SceneWord(word) :: HasWord(Lower(target), 0, word)
  }

  ghost predicate NamesAccessory(target: string) {
    exists word | AccessoryWord(word) :: HasWord(Lower(target), 0, word)
  }

  ghost function RegionOf(c: Change): Region {
    if NamesScene(c.target) then Scene else if NamesAccessory(c.target) then Accessory else Body
  }

  /** The changes of one region, in the brief's order. */
  ghost function Those(changes: seq<Change>, region: Region): seq<Change> {
    if changes == [] then []
    else
      var last := changes[|changes| - 1];
      Those(changes[..|changes| - 1], region) + (if RegionOf(last) == region then [last] else [])
  }

  lemma RankIsRegion(c: Change)
    ensures Rank(c) == (match RegionOf(c) case Scene => 0 case Body => 1 case Accessory => 2)
  {
    var target := Lower(c.target);
    forall word ensures word in Words(target) <==> HasWord(target, 0, word) {
      WordsAreRuns(target, word);
    }
    hide Words, HasWord, SceneWord, AccessoryWord, Lower;
  }

  lemma {:induction false} RanksAreRegions(changes: seq<Change>)
    ensures OfRank(changes, 0) == Those(changes, Scene)
    ensures OfRank(changes, 1) == Those(changes, Body)
    ensures OfRank(changes, 2) == Those(changes, Accessory)
  {
    hide Rank, RegionOf;
    if changes != [] {
      RanksAreRegions(changes[..|changes| - 1]);
      RankIsRegion(changes[|changes| - 1]);
    }
  }

  /** The change a step carries out. */
  function ChangesOf(steps: seq<EditStep>): (changes: seq<Change>)
    ensures |changes| == |steps|
  {
    seq(|steps|, i requires 0 <= i < |steps| => Change(steps[i].title, steps[i].instruction))
  }

  /** The fallback plan in full: one step per change, first every change whose target has a scene word, then the rest
      without an accessory word, then the accessories, each group in the brief's order; numbered from one, each step on
      its own target alone. */
  lemma FallbackOrder(a: Analysis)
    ensures var steps := DeterministicSteps(a);
      && ChangesOf(steps) == Those(a.changes, Scene) + Those(a.changes, Body) + Those(a.changes, Accessory)
      && forall i | 0 <= i < |steps| ::
           steps[i].n == i + 1 && steps[i].targets == [steps[i].title] && steps[i].status == Pending
  {
    hide Rank, ByRank, RegionOf, OfRank, Those;
    var ordered := ByRank(a.changes);
    ByRankIsStableSort(a.changes, 0);
    ByRankIsStableSort(a.changes, 1);
    ByRankIsStableSort(a.changes, 2);
    RankOrderedGroups(ordered);
    RanksAreRegions(a.changes);
    assert ChangesOf(DeterministicSteps(a)) == ordered;
  }

  lemma {:induction false} ThoseAreOf(changes: seq<Change>, region: Region)
    ensures forall c | c in Those(changes, region) :: RegionOf(c) == region
  {
    hide RegionOf;
    if changes != [] {
      ThoseAreOf(changes[..|changes| - 1], region);
    }
  }

  /** So a step on the scene precedes every other step, and a step on an accessory follows every other step. */
  lemma SceneFirstAccessoriesLast(a: Analysis, p: nat, q: nat)
    requires p < q < |DeterministicSteps(a)|
    ensures var steps := DeterministicSteps(a);
      && (NamesScene(steps[q].title) ==> NamesScene(steps[p].title))
      && (NamesAccessory(steps[p].title) && !NamesScene(steps[p].title) ==>
            NamesAccessory(steps[q].title) && !NamesScene(steps[q].title))
  {
    hide DeterministicSteps, Those, NamesScene, NamesAccessory;
    FallbackOrder(a);
    var read := ChangesOf(DeterministicSteps(a));
    var scene, body, accessory := Those(a.changes, Scene), Those(a.changes, Body), Those(a.changes, Accessory);
    ThoseAreOf(a.changes, Scene);
    ThoseAreOf(a.changes, Body);
    ThoseAreOf(a.changes, Accessory);
    forall i | 0 <= i < |read|
      ensures RegionOf(read[i]) == if i < |scene| then Scene else if i < |scene| + |body| then Body else Accessory
    {
      assert read[i] == if i < |scene| then scene[i]
                        else if i < |scene| + |body| then body[i - |scene|]
                        else accessory[i - |scene| - |body|];
    }
    assert RegionOf(read[p]) == RegionOf(Change(DeterministicSteps(a)[p].title, DeterministicSteps(a)[p].instruction));
    assert RegionOf(read[q]) == RegionOf(Change(DeterministicSteps(a)[q].title, DeterministicSteps(a)[q].instruction));
  }

  lemma SmallLetterWord(s: string, word: string)
    requires s != "" && forall k | 0 <= k < |s| :: 'a' <= s[k] <= 'z'
    ensures HasWord(Lower(s), 0, word) <==> word == s
  {
    forall k | 0 <= k < |s| ensures Lower(s)[k] == s[k] {
      LowerPerCharacter(s, k);
    }
    assert Lower(s) == s;
    OneWord(s, word);
  }

  lemma TwoChanges(first: Change, second: Change)
    requires RegionOf(first) == Accessory && RegionOf(second) == Scene
    ensures ChangesOf(DeterministicSteps(Analysis([first, second], []))) == [second, first]
  {
    hide DeterministicSteps, RegionOf, ChangesOf;
    var changes := [first, second];
    FallbackOrder(Analysis(changes, []));
    assert changes[..1] == [first] && [first][..0] == [];
    assert Those([first], Scene) == [] && Those([first], Body) == [] && Those([first], Accessory) == [first];
  }

  /** A target of one word in small letters is ranked by that word. */
  lemma OneWordTarget(target: string, instruction: string)
    requires target != "" && forall k | 0 <= k < |target| :: 'a' <= target[k] <= 'z'
    ensures RegionOf(Change(target, instruction))
         == if SceneWord(target) then Scene else if AccessoryWord(target) then Accessory else Body
  {
    forall word ensures HasWord(Lower(target), 0, word) <==> word == target {
      SmallLetterWord(target, word);
    }
    hide Lower, HasWord, SceneWord, AccessoryWord;
  }

  lemma GlassesAreNoScene()
    ensures SceneWord("background") && AccessoryWord("glasses") && !SceneWord("glasses")
  {
  }

  /** A brief that asks for the glasses first is still planned background first. */
  lemma GlassesAfterBackground(remove: string, wall: string)
    ensures var steps := DeterministicSteps(Analysis([Change("glasses", remove), Change("background", wall)], []));
      |steps| == 2 && steps[0].title == "background" && steps[0].instruction == wall
      && steps[1].title == "glasses" && steps[1].instruction == remove
  {
    hide DeterministicSteps, RegionOf;
    var glasses, background := Change("glasses", remove), Change("background", wall);
    OneWordTarget("glasses", remove);
    OneWordTarget("background", wall);
    GlassesAreNoScene();
    hide SceneWord, AccessoryWord;
    TwoChanges(glasses, background);
    var read := ChangesOf(DeterministicSteps(Analysis([glasses, background], [])));
    assert |read| == 2 && read[0] == background && read[1] == glasses;
  }
}
