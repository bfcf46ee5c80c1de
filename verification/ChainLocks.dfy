/** What a step locks, told from the plan alone: nothing an earlier step edited, everything else of the photo, the
    user's wishes and what was applied (src/services/generation_loop.py, src/services/prompt_builder.py). */
module ChainLocks {
  import opened Schemas
  import opened Text
  import opened LockItems
  import opened ChainSpec
  import opened ChainResume
  import opened ChainDelivery
  import ChainRuns

  /** Step `j` counts when step `i` begins: it is that step, or an earlier one not skipped. */
  predicate Counts(plan: seq<EditStep>, i: nat, j: int) {
    0 <= j <= i < |plan| && (j == i || plan[j].status != Skipped)
  }

  function TargetsSoFar(plan: seq<EditStep>, i: nat): set<string>
    requires i < |plan|
  {
    set j, t | 0 <= j <= i && Counts(plan, i, j) && t in plan[j].targets :: t
  }

  function InstructionWords(plan: seq<EditStep>, i: nat): set<string>
    requires i < |plan|
  {
    set j, w | 0 <= j <= i && Counts(plan, i, j) && w in ContentTokens(plan[j].instruction) :: w
  }

  function TargetWords(targets: set<string>): set<string> {
    set t, w | t in targets && w in ContentTokens(t) :: w
  }

  /** The content words of every target and instruction so far. */
  function WordsSoFar(plan: seq<EditStep>, i: nat): set<string>
    requires i < |plan|
  {
    InstructionWords(plan, i) + TargetWords(TargetsSoFar(plan, i))
  }

  /** The phrase that locks a step's outcome: the planner's own, else a generic one. */
  function LockingPhrase(step: EditStep): string {
    if step.applied == "" then "the result of the earlier edit: " + step.instruction else step.applied
  }

  /** An item is listed when step `i` begins. An edit step lists a photographed region unless a target so far names it,
      a photographed accessory unless a target or an instruction so far shares a content word with it, and each wish of
      the user; every step lists the person and what the steps before it applied. */
  ghost predicate ListedAt(cfg: Config, inventory: Option<Inventory>, plan: seq<EditStep>, i: nat, item: LockItem)
    requires i < |plan|
  {
    match item
    case PersonLock => true
    case FieldLock(f, v) =>
      && !plan[i].isEnhance && inventory.Some? && v == Strip(inventory.value.Value(f)) && v != ""
      && forall t | t in TargetsSoFar(plan, i) :: !Names(t, f)
    case AccessoryLock(a) =>
      && !plan[i].isEnhance && inventory.Some? && a in inventory.value.accessories
      && ContentTokens(a) !! WordsSoFar(plan, i)
    case PreserveLock(p) =>
      !plan[i].isEnhance && p != "" && exists k | 0 <= k < |cfg.preserve| :: p == Strip(cfg.preserve[k])
    case AppliedLock(a) =>
      a != "" && exists j | Counts(plan, i, j) && j < i :: a == Strip(LockingPhrase(plan[j]))
  }

  // ----- The ledger, told from the plan -----

  predicate Earlier(plan: seq<EditStep>, i: nat, j: int) {
    0 <= j < i <= |plan| && plan[j].status != Skipped
  }

  lemma {:induction false} LedgerTargets(plan: seq<EditStep>, i: nat, t: string)
    requires i <= |plan|
    ensures t in LedgerBefore(plan, i).targets <==> exists j | Earlier(plan, i, j) :: t in plan[j].targets
  {
    if i > 0 {
      LedgerTargets(plan, i - 1, t);
      assert forall j :: Earlier(plan, i, j) <==> Earlier(plan, i - 1, j) || (j == i - 1 && plan[j].status != Skipped);
    }
  }

  lemma ContentOfAppended(parts: seq<string>, part: string)
    ensures ContentTokens(Join(parts + [part])) == ContentTokens(Join(parts)) + ContentTokens(part)
  {
    TokensOfAppendedPart(parts, part);
    hide Tokens, Lower, Join, Stopword;
  }

  lemma ContentOfNothing()
    ensures ContentTokens(Join([])) == {}
  {
    assert Lower("") == "" && Tokens("") == {};
  }

  /** The content words of joined texts are those of each. */
  lemma {:induction false} ContentOfJoin(parts: seq<string>, token: string)
    ensures token in ContentTokens(Join(parts)) <==> exists k | 0 <= k < |parts| :: token in ContentTokens(parts[k])
  {
    hide Join, ContentTokens;
    if parts == [] {
      ContentOfNothing();
    } else {
      var front, last := parts[..|parts| - 1], parts[|parts| - 1];
      ContentOfJoin(front, token);
      ContentOfAppended(front, last);
      assert parts == front + [last];
      assert forall k | 0 <= k < |front| :: front[k] == parts[k];
    }
  }

  lemma {:induction false} LedgerText(plan: seq<EditStep>, i: nat, token: string)
    requires i <= |plan|
    ensures token in ContentTokens(Join(LedgerBefore(plan, i).text))
       <==> exists j | Earlier(plan, i, j) :: token in ContentTokens(plan[j].instruction)
  {
    hide Join, ContentTokens, AppliedPhrase;
    if i == 0 {
      ContentOfNothing();
    } else {
      LedgerText(plan, i - 1, token);
      ContentOfAppended(LedgerBefore(plan, i - 1).text, plan[i - 1].instruction);
      assert forall j :: Earlier(plan, i, j) <==> Earlier(plan, i - 1, j) || (j == i - 1 && plan[j].status != Skipped);
    }
  }

  ghost predicate AppliedIn(applied: seq<string>, a: string) {
    exists k | 0 <= k < |applied| :: a == Strip(applied[k])
  }

  lemma AppliedAppend(applied: seq<string>, phrase: string, a: string)
    ensures AppliedIn(applied + [phrase], a) <==> AppliedIn(applied, a) || a == Strip(phrase)
  {
    hide Strip;
    var all := applied + [phrase];
    assert all[|applied|] == phrase && forall k | 0 <= k < |applied| :: all[k] == applied[k];
  }

  lemma {:induction false} LedgerApplied(plan: seq<EditStep>, i: nat, a: string)
    requires i <= |plan|
    ensures AppliedIn(LedgerBefore(plan, i).applied, a)
       <==> exists j | Earlier(plan, i, j) :: a == Strip(LockingPhrase(plan[j]))
  {
    hide Strip, AppliedIn;
    if i == 0 {
      NothingApplied(a);
    } else {
      LedgerApplied(plan, i - 1, a);
      assert AppliedPhrase(plan[i - 1]) == LockingPhrase(plan[i - 1]);
      hide AppliedPhrase, LockingPhrase;
      AppliedAppend(LedgerBefore(plan, i - 1).applied, AppliedPhrase(plan[i - 1]), a);
      assert forall j :: Earlier(plan, i, j) <==> Earlier(plan, i - 1, j) || (j == i - 1 && plan[j].status != Skipped);
    }
  }

  lemma NothingApplied(a: string)
    ensures !AppliedIn([], a)
  {
  }

  // ----- Exactly what a step locks -----

  lemma CountsOrEarlier(plan: seq<EditStep>, i: nat)
    requires i < |plan|
    ensures forall j :: Counts(plan, i, j) <==> Earlier(plan, i, j) || j == i
  {
  }

  lemma TargetsCollected(plan: seq<EditStep>, i: nat, t: string)
    requires i < |plan|
    ensures t in LedgerBefore(plan, i).targets + plan[i].targets <==> t in TargetsSoFar(plan, i)
  {
    hide LedgerBefore;
    CountsOrEarlier(plan, i);
    LedgerTargets(plan, i, t);
  }

  /** A region is unlocked exactly when a target so far names it. */
  lemma RegionEdited(plan: seq<EditStep>, i: nat, f: Field)
    requires i < |plan|
    ensures Edited(f, LedgerBefore(plan, i).targets + plan[i].targets)
       <==> exists t | t in TargetsSoFar(plan, i) :: Names(t, f)
  {
    hide Names, LedgerBefore, TargetsSoFar;
    var targets := LedgerBefore(plan, i).targets + plan[i].targets;
    forall t ensures t in targets <==> t in TargetsSoFar(plan, i) {
      TargetsCollected(plan, i, t);
    }
    if t :| t in TargetsSoFar(plan, i) && Names(t, f) {
      var k :| 0 <= k < |targets| && targets[k] == t;
    }
  }

  lemma InstructionsCollected(plan: seq<EditStep>, i: nat, token: string)
    requires i < |plan|
    ensures token in ContentTokens(Join(LedgerBefore(plan, i).text + [plan[i].instruction]))
       <==> token in InstructionWords(plan, i)
  {
    hide ContentTokens, LedgerBefore, Join;
    CountsOrEarlier(plan, i);
    LedgerText(plan, i, token);
    ContentOfAppended(LedgerBefore(plan, i).text, plan[i].instruction);
  }

  lemma TargetWordsCollected(plan: seq<EditStep>, i: nat, token: string)
    requires i < |plan|
    ensures token in ContentTokens(Join(LedgerBefore(plan, i).targets + plan[i].targets))
       <==> token in TargetWords(TargetsSoFar(plan, i))
  {
    hide ContentTokens, LedgerBefore, Join, TargetsSoFar;
    var targets := LedgerBefore(plan, i).targets + plan[i].targets;
    ContentOfJoin(targets, token);
    forall t ensures t in targets <==> t in TargetsSoFar(plan, i) {
      TargetsCollected(plan, i, t);
    }
    if t :| t in TargetsSoFar(plan, i) && token in ContentTokens(t) {
      var k :| 0 <= k < |targets| && targets[k] == t;
    }
  }

  /** The words that unlock an accessory are exactly those of the targets and instructions so far. */
  lemma UnlockingWords(plan: seq<EditStep>, i: nat)
    requires i < |plan|
    ensures var l := LedgerBefore(plan, i);
      UnlockTokens(l.targets + plan[i].targets, Join(l.text + [plan[i].instruction])) == WordsSoFar(plan, i)
  {
    hide ContentTokens, LedgerBefore, Join, InstructionWords, TargetWords, TargetsSoFar;
    var l := LedgerBefore(plan, i);
    var unlock := UnlockTokens(l.targets + plan[i].targets, Join(l.text + [plan[i].instruction]));
    forall token ensures token in unlock <==> token in WordsSoFar(plan, i) {
      InstructionsCollected(plan, i, token);
      TargetWordsCollected(plan, i, token);
    }
  }

  /** Exactly what a step locks: the items its plan lists there and the guards accept. */
  lemma StepLocksExactly(cfg: Config, inventory: Option<Inventory>, plan: seq<EditStep>, i: nat, item: LockItem)
    requires i < |plan|
    ensures item in LocksFor(cfg, inventory, LedgerBefore(plan, i), plan[i])
       <==> ListedAt(cfg, inventory, plan, i, item) && !cfg.poisoned(item)
  {
    hide Enumerate, LedgerBefore, Strip, Join, ContentTokens, Names, UnlockTokens, LockingPhrase, Edited, WordsSoFar;
    var l, step := LedgerBefore(plan, i), plan[i];
    EnumerationMembers(cfg.poisoned, None, [], l.applied, [], "", item);
    EnumerationMembers(cfg.poisoned, inventory, cfg.preserve, l.applied, l.targets + step.targets,
                       Join(l.text + [step.instruction]), item);
    match item
    case PersonLock =>
    case FieldLock(f, _) =>
      RegionEdited(plan, i, f);
    case AccessoryLock(a) =>
      UnlockingWords(plan, i);
      NothingShared(ContentTokens(a), WordsSoFar(plan, i));
    case PreserveLock(_) =>
    case AppliedLock(a) =>
      LedgerApplied(plan, i, a);
      CountsOrEarlier(plan, i);
  }

  lemma NothingShared(a: set<string>, b: set<string>)
    ensures a * b == {} <==> a !! b
  {
    assert forall x | x in a && x in b :: x in a * b;
  }

  /** And in a run, after any number of crashes: the locks of every step it begins. */
  lemma RunLocksExactly(cfg: Config, x: Charter, d: Durable, life: seq<ChainRuns.Incarnation>, w: World, k: nat,
                        item: LockItem)
    requires ChainRuns.Enters(cfg, x, d) && w.reference.Some?
    requires k < |Worked(cfg, w, ChainRuns.Survivor(cfg, x, d, life)).starts|
    ensures var plan, start := BasePlan(cfg, x), Worked(cfg, w, ChainRuns.Survivor(cfg, x, d, life)).starts[k];
      start.index < |plan|
      && (item in start.locks <==> ListedAt(cfg, x.inventory, plan, start.index, item) && !cfg.poisoned(item))
  {
    hide Worked, LocksFor, ListedAt, LedgerBefore;
    ChainRuns.ResumedStepsLockAlike(cfg, x, d, life, w);
    var start := Worked(cfg, w, ChainRuns.Survivor(cfg, x, d, life)).starts[k];
    StepLocksExactly(cfg, x.inventory, BasePlan(cfg, x), start.index, item);
  }

  // ----- What that means along a chain -----

  /** An inventory region targeted by a step or by any earlier step not skipped is never locked at its photographed
      value when that step begins. */
  lemma EditedRegionsNeverRelocked(
    cfg: Config, inventory: Option<Inventory>, plan: seq<EditStep>, i: nat, j: nat, target: string, f: Field,
    value: string)
    requires Counts(plan, i, j) && target in plan[j].targets && Names(target, f)
    ensures FieldLock(f, value) !in LocksFor(cfg, inventory, LedgerBefore(plan, i), plan[i])
  {
    hide LocksFor, Names;
    StepLocksExactly(cfg, inventory, plan, i, FieldLock(f, value));
    assert target in TargetsSoFar(plan, i);
  }

  /** What an earlier step not skipped applied is locked when a later step begins: the planner's phrase, or a generic
      one naming the instruction when it has none. */
  lemma AppliedStaysLocked(cfg: Config, inventory: Option<Inventory>, plan: seq<EditStep>, i: nat, j: nat)
    requires Counts(plan, i, j) && j < i
    ensures var generic := "the result of the earlier edit: " + plan[j].instruction;
      var text := Strip(if plan[j].applied == "" then generic else plan[j].applied);
      text != "" && !cfg.poisoned(AppliedLock(text)) ==>
        AppliedLock(text) in LocksFor(cfg, inventory, LedgerBefore(plan, i), plan[i])
  {
    hide LocksFor, Strip;
    StepLocksExactly(cfg, inventory, plan, i, AppliedLock(Strip(LockingPhrase(plan[j]))));
  }

  /** An accessory that the instruction of this or an earlier step names is not locked when a step begins. */
  lemma NamedAccessoryStaysUnlocked(
    cfg: Config, inventory: Option<Inventory>, plan: seq<EditStep>, i: nat, j: nat, accessory: string)
    requires Counts(plan, i, j) && ContentTokens(accessory) * ContentTokens(plan[j].instruction) != {}
    ensures AccessoryLock(accessory) !in LocksFor(cfg, inventory, LedgerBefore(plan, i), plan[i])
  {
    hide LocksFor, ContentTokens, TargetWords;
    StepLocksExactly(cfg, inventory, plan, i, AccessoryLock(accessory));
    var w :| w in ContentTokens(accessory) && w in ContentTokens(plan[j].instruction);
    assert w in InstructionWords(plan, i);
  }

  /** Pose, hands and facial hair stay locked whatever a plan targets. */
  lemma NeverUnlocked(cfg: Config, inventory: Inventory, plan: seq<EditStep>, i: nat, f: Field)
    requires i < |plan| && !plan[i].isEnhance && f in {Pose, Hands, FacialHair}
    requires Strip(inventory.Value(f)) != "" && !cfg.poisoned(FieldLock(f, Strip(inventory.Value(f))))
    ensures FieldLock(f, Strip(inventory.Value(f))) in LocksFor(cfg, Some(inventory), LedgerBefore(plan, i), plan[i])
  {
    hide LocksFor, Strip, TargetsSoFar;
    StepLocksExactly(cfg, Some(inventory), plan, i, FieldLock(f, Strip(inventory.Value(f))));
  }

  /** The ledger of a later step continues the one an earlier step leaves. */
  lemma {:induction false} LedgerContinues(plan: seq<EditStep>, i: nat, j: nat)
    returns (targets: seq<string>, text: seq<string>)
    requires i < j <= |plan| && plan[i].status != Skipped
    ensures LedgerBefore(plan, j).targets == (LedgerBefore(plan, i).targets + plan[i].targets) + targets
    ensures LedgerBefore(plan, j).text == (LedgerBefore(plan, i).text + [plan[i].instruction]) + text
  {
    hide AppliedPhrase;
    if j == i + 1 {
      targets, text := [], [];
    } else {
      targets, text := LedgerContinues(plan, i, j - 1);
      if plan[j - 1].status != Skipped {
        targets, text := targets + plan[j - 1].targets, text + [plan[j - 1].instruction];
      }
    }
  }

  lemma TextGrows(parts: seq<string>, more: seq<string>)
    ensures ContentTokens(Join(parts)) <= ContentTokens(Join(parts + more))
  {
    TokensGrow(parts, more);
    hide Tokens, Lower, Join, Stopword;
  }

  /** Along a chain the photo's locks only shrink: a later step's are those of an earlier edit step with some left
      out. */
  lemma PhotoLocksShrink(cfg: Config, inventory: Option<Inventory>, plan: seq<EditStep>, i: nat, j: nat)
    requires i < j < |plan| && plan[i].status != Skipped && !plan[i].isEnhance
    ensures Subsequence(PhotoPart(LocksFor(cfg, inventory, LedgerBefore(plan, j), plan[j])),
                        PhotoPart(LocksFor(cfg, inventory, LedgerBefore(plan, i), plan[i])))
  {
    hide Enumerate, Subsequence, LedgerBefore, Join, ContentTokens, PhotoPart;
    var l, l', step, step' := LedgerBefore(plan, i), LedgerBefore(plan, j), plan[i], plan[j];
    if step'.isEnhance {
      NoPhotoLocks(cfg, l'.applied);
      NothingIsSubsequence(PhotoPart(LocksFor(cfg, inventory, l, step)));
    } else {
      var targets, text := LedgerContinues(plan, i, j);
      var ts, xs := l.targets + step.targets, l.text + [step.instruction];
      assert l'.targets + step'.targets == ts + (targets + step'.targets);
      assert l'.text + [step'.instruction] == xs + (text + [step'.instruction]);
      TextGrows(xs, text + [step'.instruction]);
      EditingMoreUnlocksPhoto(cfg.poisoned, inventory, cfg.preserve, l.applied, l'.applied, ts, targets + step'.targets,
                              Join(xs), Join(xs + (text + [step'.instruction])));
    }
  }

  lemma NoPhotoLocks(cfg: Config, applied: seq<string>)
    ensures PhotoPart(Enumerate(cfg.poisoned, None, [], applied, [], "")) == []
  {
    PhotoPartOfEnumeration(cfg.poisoned, None, [], applied, [], "");
    assert Collect(InventoryItems(None, [], ""), Guard(cfg.poisoned)) == [];
  }

  lemma NothingIsSubsequence<T>(xs: seq<T>)
    ensures Subsequence([], xs)
  {
  }
}
