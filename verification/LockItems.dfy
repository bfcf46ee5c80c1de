/** The lock enumeration of one edit step (src/services/prompt_builder.py). */
module LockItems {
  import opened Schemas
  import opened Text

  datatype Field = Pose | Framing | Hands | Clothing | Hair | FacialHair | Lighting | Background

  /** What is visible in the reference photo, in words. */
  datatype Inventory = Inventory(
    pose: string,
    framing: string,
    hands: string,
    clothing: string,
    hair: string,
    facialHair: string,
    lighting: string,
    background: string,
    accessories: seq<string>)
  {
    function Value(f: Field): string {
      match f
      case Pose => pose
      case Framing => framing
      case Hands => hands
      case Clothing => clothing
      case Hair => hair
      case FacialHair => facialHair
      case Lighting => lighting
      case Background => background
    }

    /** The fields in render order, each with what was extracted for it. */
    function Entries(): seq<(Field, string)> {
      [(Pose, pose), (Framing, framing), (Hands, hands), (Clothing, clothing), (Hair, hair),
       (FacialHair, facialHair), (Lighting, lighting), (Background, background)]
    }
  }

  /** One entry of the enumeration. The injection guards' verdict on the text an entry renders to is
      the parameter `poisoned` of the functions below. */
  datatype LockItem =
    | PersonLock
    | FieldLock(field: Field, value: string)
    | AccessoryLock(text: string)
    | PreserveLock(text: string)
    | AppliedLock(text: string)

  /** Words too generic to identify an accessory: placement words and shared colours. */
  predicate Stopword(word: string) {
    word in {
      "the", "a", "an", "in", "on", "with", "and", "or", "of", "to", "at", "his", "her", "their",
      "left", "right", "hand", "ear", "ears", "wrist", "neck", "head", "finger", "new", "existing",
      "white", "black", "beige", "blue", "red", "green", "grey", "gray", "brown", "pink", "yellow",
      "orange", "purple", "golden", "gold", "silver", "dark", "light", "navy"
    }
  }

  /** Target words that name an editable region; pose, hands and facial hair never unlock. */
  function Synonyms(f: Field): set<string> {
    match f
    case Background => {"background", "backdrop", "setting", "scene", "wall"}
    case Lighting => {"lighting", "light", "grade", "tone", "color", "colour"}
    case Clothing => {"clothing", "clothes", "shirt", "t-shirt", "tshirt", "outfit", "attire",
                      "garment", "top", "jacket", "dress", "suit"}
    case Hair => {"hair", "hairstyle", "haircut"}
    case Framing => {"framing", "crop", "zoom"}
    case Pose => {}
    case Hands => {}
    case FacialHair => {}
  }

  /** A step target names region `f`. */
  predicate Names(target: string, f: Field) {
    !Blank(target) && Lower(Strip(target)) in Synonyms(f)
  }

  /** The name of a region in the inventory. */
  function RegionName(f: Field): string {
    match f
    case Pose => "pose"
    case Framing => "framing"
    case Hands => "hands"
    case Clothing => "clothing"
    case Hair => "hair"
    case FacialHair => "facial_hair"
    case Lighting => "lighting"
    case Background => "background"
  }

  /** An editable region's own name, in any case and padding, names it and no other region; the names of pose, hands and
      facial hair name none. */
  lemma OwnNameUnlocks(target: string, f: Field, g: Field)
    requires Lower(Strip(target)) == RegionName(f)
    ensures Names(target, g) <==> g == f && f !in {Pose, Hands, FacialHair}
  {
    hide Strip, Lower;
    assert Blank(target) ==> Lower(Strip(target)) == "" by {
      LowerOfNothing();
    }
  }

  lemma LowerOfNothing()
    ensures Lower("") == ""
  {
  }

  predicate Edited(f: Field, targets: seq<string>) {
    exists i | 0 <= i < |targets| :: Names(targets[i], f)
  }

  function ContentTokens(text: string): set<string> {
    set t | t in Tokens(Lower(text)) && !Stopword(t)
  }

  /** A content word is a match of the text in small letters that is not too generic to identify anything. */
  lemma ContentTokensAre(text: string, token: string)
    ensures token in ContentTokens(text) <==> Matches(Lower(text), 0, token) && !Stopword(token)
  {
    TokensAreMatches(Lower(text), token);
    hide Tokens, Lower, Stopword, Matches;
  }

  /** Words of placement and shared colours identify no accessory, its own noun does. */
  lemma PlacesAndColoursIdentifyNothing()
    ensures Stopword("left") && Stopword("right") && Stopword("hand") && Stopword("white") && Stopword("light")
    ensures !Stopword("earbud") && !Stopword("ring") && !Stopword("glasses")
  {
  }

  function UnlockTokens(targets: seq<string>, text: string): set<string> {
    ContentTokens(text) + ContentTokens(Join(targets))
  }

  /** Map-and-filter in order. */
  function Collect<A, B>(xs: seq<A>, f: A -> Option<B>): seq<B> {
    if xs == [] then []
    else
      var last := f(xs[|xs| - 1]);
      Collect(xs[..|xs| - 1], f) + (if last.Some? then [last.value] else [])
  }

  function FieldItem(targets: seq<string>): ((Field, string)) -> Option<LockItem> {
    (e: (Field, string)) =>
      if Edited(e.0, targets) || Strip(e.1) == [] then None else Some(FieldLock(e.0, Strip(e.1)))
  }

  function AccessoryItem(unlock: set<string>): string -> Option<LockItem> {
    (a: string) => if ContentTokens(a) * unlock != {} then None else Some(AccessoryLock(a))
  }

  datatype EntryKind = Preserving | Applying

  function Entry(kind: EntryKind, text: string): LockItem {
    if kind.Preserving? then PreserveLock(text) else AppliedLock(text)
  }

  function NonBlank(kind: EntryKind): string -> Option<LockItem> {
    (text: string) => if Strip(text) == [] then None else Some(Entry(kind, Strip(text)))
  }

  function Guard(poisoned: LockItem -> bool): LockItem -> Option<LockItem> {
    (item: LockItem) => if poisoned(item) then None else Some(item)
  }

  function InventoryItems(inventory: Option<Inventory>, targets: seq<string>, text: string): seq<LockItem> {
    if inventory.None? then []
    else
      Collect(inventory.value.Entries(), FieldItem(targets))
      + Collect(inventory.value.accessories, AccessoryItem(UnlockTokens(targets, text)))
  }

  function UserItems(preserve: seq<string>, applied: seq<string>): seq<LockItem> {
    Collect(preserve, NonBlank(Preserving)) + Collect(applied, NonBlank(Applying))
  }

  function Candidates(rest: seq<LockItem>, preserve: seq<string>, applied: seq<string>): seq<LockItem> {
    [PersonLock] + rest + UserItems(preserve, applied)
  }

  /** The enumeration: person, unedited inventory, preserved wishes, applied changes; poisoned text dropped. */
  function Enumerate(
    poisoned: LockItem -> bool, inventory: Option<Inventory>, preserve: seq<string>,
    applied: seq<string>, targets: seq<string>, text: string): seq<LockItem>
  {
    Collect(Candidates(InventoryItems(inventory, targets, text), preserve, applied), Guard(poisoned))
  }

  /** Appends the fields no edit names. */
  method AppendFields(items: seq<LockItem>, entries: seq<(Field, string)>, targets: seq<string>)
    returns (more: seq<LockItem>)
    ensures more == items + Collect(entries, FieldItem(targets))
  {
    more := items;
    ghost var item := FieldItem(targets);
    for i := 0 to |entries|
      invariant more == items + Collect(entries[..i], item)
    {
      CollectStep(items, entries, i, item);
      var f, value := entries[i].0, Strip(entries[i].1);
      if !Edited(f, targets) && value != [] {
        more := more + [FieldLock(f, value)];
      }
    }
    assert entries[..|entries|] == entries;
  }

  /** Appends the accessories no edit names. */
  method AppendAccessories(items: seq<LockItem>, accessories: seq<string>, unlock: set<string>)
    returns (more: seq<LockItem>)
    ensures more == items + Collect(accessories, AccessoryItem(unlock))
  {
    more := items;
    ghost var item := AccessoryItem(unlock);
    for i := 0 to |accessories|
      invariant more == items + Collect(accessories[..i], item)
    {
      CollectStep(items, accessories, i, item);
      if ContentTokens(accessories[i]) * unlock == {} {
        more := more + [AccessoryLock(accessories[i])];
      }
    }
    assert accessories[..|accessories|] == accessories;
  }

  /** Appends every entry that is not blank, stripped and wrapped. */
  method AppendNonBlank(items: seq<LockItem>, entries: seq<string>, kind: EntryKind)
    returns (more: seq<LockItem>)
    ensures more == items + Collect(entries, NonBlank(kind))
  {
    more := items;
    ghost var item := NonBlank(kind);
    for i := 0 to |entries|
      invariant more == items + Collect(entries[..i], item)
    {
      CollectStep(items, entries, i, item);
      var entry := Strip(entries[i]);
      if entry != [] {
        more := more + [Entry(kind, entry)];
      }
    }
    assert entries[..|entries|] == entries;
  }

  method AppendInventory(items: seq<LockItem>, inventory: Option<Inventory>, targets: seq<string>, text: string)
    returns (more: seq<LockItem>)
    ensures more == items + InventoryItems(inventory, targets, text)
  {
    hide Collect, FieldItem, AccessoryItem, UnlockTokens;
    more := items;
    if inventory.Some? {
      more := AppendFields(more, inventory.value.Entries(), targets);
      more := AppendAccessories(more, inventory.value.accessories, UnlockTokens(targets, text));
    }
  }

  method AppendUserItems(items: seq<LockItem>, preserve: seq<string>, applied: seq<string>)
    returns (more: seq<LockItem>)
    ensures more == items + UserItems(preserve, applied)
  {
    hide Collect, NonBlank;
    more := AppendNonBlank(items, preserve, Preserving);
    more := AppendNonBlank(more, applied, Applying);
  }

  /** Keeps the items the guards accept. */
  method DropPoisoned(items: seq<LockItem>, poisoned: LockItem -> bool) returns (kept: seq<LockItem>)
    ensures kept == Collect(items, Guard(poisoned))
  {
    kept := [];
    ghost var guard := Guard(poisoned);
    for i := 0 to |items|
      invariant kept == Collect(items[..i], guard)
    {
      CollectStep([], items, i, guard);
      GuardVerdict(poisoned, items[i]);
      if !poisoned(items[i]) {
        assert [] + Collect(items[..i + 1], guard) == Collect(items[..i + 1], guard);
        assert [] + Collect(items[..i], guard) == Collect(items[..i], guard);
        kept := kept + [items[i]];
      }
    }
    assert items[..|items|] == items;
  }

  /** Builds the enumeration by appending, then drops the items the guards reject. */
  method EditLockItems(
    poisoned: LockItem -> bool, inventory: Option<Inventory>, preserve: seq<string>,
    applied: seq<string>, targets: seq<string>, text: string) returns (locks: seq<LockItem>)
    ensures locks == Enumerate(poisoned, inventory, preserve, applied, targets, text)
  {
    var items := AppendInventory([PersonLock], inventory, targets, text);
    items := AppendUserItems(items, preserve, applied);
    locks := DropPoisoned(items, poisoned);
  }

  lemma CollectStep<A, B>(head: seq<B>, xs: seq<A>, i: nat, f: A -> Option<B>)
    requires i < |xs|
    ensures f(xs[i]).None? ==> Collect(xs[..i + 1], f) == Collect(xs[..i], f)
    ensures f(xs[i]).Some? ==>
      head + Collect(xs[..i + 1], f) == (head + Collect(xs[..i], f)) + [f(xs[i]).value]
  {
    assert xs[..i + 1][..i] == xs[..i];
    assert xs[..i + 1][|xs[..i + 1]| - 1] == xs[i];
  }

  // ----- Collect -----

  lemma {:induction false} CollectConcat<A, B>(xs: seq<A>, ys: seq<A>, f: A -> Option<B>)
    ensures Collect(xs + ys, f) == Collect(xs, f) + Collect(ys, f)
  {
    if ys == [] {
      assert xs + ys == xs;
    } else {
      var init := ys[..|ys| - 1];
      assert (xs + ys)[..|xs + ys| - 1] == xs + init;
      CollectConcat(xs, init, f);
    }
  }

  lemma {:induction false} CollectMember<A, B>(xs: seq<A>, f: A -> Option<B>, y: B)
    ensures y in Collect(xs, f) <==> exists i | 0 <= i < |xs| :: f(xs[i]) == Some(y)
  {
    if xs != [] {
      var init := xs[..|xs| - 1];
      CollectMember(init, f, y);
      if i :| 0 <= i < |xs| && f(xs[i]) == Some(y) {
        assert i < |init| ==> init[i] == xs[i];
      }
      if i :| 0 <= i < |init| && f(init[i]) == Some(y) {
        assert xs[i] == init[i];
      }
    }
  }

  /** `a` is `b` with some elements left out. */
  predicate Subsequence<T(==)>(a: seq<T>, b: seq<T>)
    decreases |b|
  {
    if a == [] then true
    else if b == [] then false
    else
      (a[|a| - 1] == b[|b| - 1] && Subsequence(a[..|a| - 1], b[..|b| - 1]))
      || Subsequence(a, b[..|b| - 1])
  }

  lemma {:induction false} CollectMonotone<A, B>(xs: seq<A>, f: A -> Option<B>, g: A -> Option<B>)
    requires forall i | 0 <= i < |xs| :: f(xs[i]).Some? ==> g(xs[i]) == f(xs[i])
    ensures Subsequence(Collect(xs, f), Collect(xs, g))
  {
    if xs != [] {
      var init := xs[..|xs| - 1];
      CollectMonotone(init, f, g);
      var a, b := Collect(xs, f), Collect(xs, g);
      if f(xs[|xs| - 1]).Some? {
        assert a[..|a| - 1] == Collect(init, f) && b[..|b| - 1] == Collect(init, g);
      } else if g(xs[|xs| - 1]).Some? {
        assert a == Collect(init, f) && b[..|b| - 1] == Collect(init, g);
      } else {
        assert a == Collect(init, f) && b == Collect(init, g);
      }
    }
  }

  lemma {:induction false} SubsequenceReflexive<T>(a: seq<T>)
    ensures Subsequence(a, a)
  {
    if a != [] {
      SubsequenceReflexive(a[..|a| - 1]);
    }
  }

  lemma {:induction false} SubsequenceConcat<T>(a: seq<T>, b: seq<T>, c: seq<T>, d: seq<T>)
    requires Subsequence(a, b) && Subsequence(c, d)
    ensures Subsequence(a + c, b + d)
    decreases |d|
  {
    if d == [] {
      assert a + c == a && b + d == b;
    } else {
      var d' := d[..|d| - 1];
      assert (b + d)[..|b + d| - 1] == b + d';
      if c == [] {
        SubsequenceConcat(a, b, c, d');
      } else {
        var c' := c[..|c| - 1];
        assert (a + c)[..|a + c| - 1] == a + c';
        if c[|c| - 1] == d[|d| - 1] && Subsequence(c', d') {
          SubsequenceConcat(a, b, c', d');
        } else {
          SubsequenceConcat(a, b, c, d');
        }
      }
    }
  }

  lemma {:induction false} SubsequenceCollect<A, B>(a: seq<A>, b: seq<A>, f: A -> Option<B>)
    requires Subsequence(a, b)
    ensures Subsequence(Collect(a, f), Collect(b, f))
    decreases |b|
  {
    if a != [] {
      var b' := b[..|b| - 1];
      var last := f(b[|b| - 1]);
      var tail := if last.Some? then [last.value] else [];
      if a[|a| - 1] == b[|b| - 1] && Subsequence(a[..|a| - 1], b') {
        SubsequenceCollect(a[..|a| - 1], b', f);
        SubsequenceReflexive(tail);
        SubsequenceConcat(Collect(a[..|a| - 1], f), Collect(b', f), tail, tail);
      } else {
        SubsequenceCollect(a, b', f);
        SubsequenceConcat(Collect(a, f), Collect(b', f), [], tail);
        assert Collect(a, f) + [] == Collect(a, f);
      }
    }
  }

  // ----- The enumeration -----

  ghost predicate Listed(
    item: LockItem, inventory: Option<Inventory>, preserve: seq<string>, applied: seq<string>,
    targets: seq<string>, text: string)
  {
    match item
    case PersonLock => true
    case FieldLock(f, v) =>
      && inventory.Some? && !Edited(f, targets)
      && v == Strip(inventory.value.Value(f)) && v != []
    case AccessoryLock(a) =>
      && inventory.Some? && a in inventory.value.accessories
      && ContentTokens(a) * UnlockTokens(targets, text) == {}
    case PreserveLock(p) => exists i | 0 <= i < |preserve| :: p == Strip(preserve[i]) && p != []
    case AppliedLock(a) => exists i | 0 <= i < |applied| :: a == Strip(applied[i]) && a != []
  }

  /** Exactly which items are listed: a region or accessory is locked at its photographed value
      unless it is being or has been edited, and only text the guards accept survives. */
  lemma EnumerationMembers(
    poisoned: LockItem -> bool, inventory: Option<Inventory>, preserve: seq<string>,
    applied: seq<string>, targets: seq<string>, text: string, item: LockItem)
    ensures item in Enumerate(poisoned, inventory, preserve, applied, targets, text)
       <==> Listed(item, inventory, preserve, applied, targets, text) && !poisoned(item)
  {
    var items := Candidates(InventoryItems(inventory, targets, text), preserve, applied);
    GuardMembers(poisoned, items, item);
    UserMembers(preserve, applied, item);
    if inventory.Some? {
      FieldMembers(inventory.value, targets, item);
      AccessoryMembers(inventory.value, UnlockTokens(targets, text), item);
    }
  }

  lemma GuardVerdict(poisoned: LockItem -> bool, item: LockItem)
    ensures Guard(poisoned)(item) == if poisoned(item) then None else Some(item)
  {
  }

  lemma GuardMembers(poisoned: LockItem -> bool, items: seq<LockItem>, item: LockItem)
    ensures item in Collect(items, Guard(poisoned)) <==> item in items && !poisoned(item)
  {
    CollectMember(items, Guard(poisoned), item);
    if item in items && !poisoned(item) {
      var i :| 0 <= i < |items| && items[i] == item;
      assert Guard(poisoned)(items[i]) == Some(item);
    }
  }

  lemma UserMembers(preserve: seq<string>, applied: seq<string>, item: LockItem)
    ensures item in UserItems(preserve, applied) <==>
      match item
      case PreserveLock(p) => exists i | 0 <= i < |preserve| :: p == Strip(preserve[i]) && p != []
      case AppliedLock(a) => exists i | 0 <= i < |applied| :: a == Strip(applied[i]) && a != []
      case _ => false
  {
    CollectMember(preserve, NonBlank(Preserving), item);
    CollectMember(applied, NonBlank(Applying), item);
    match item
    case PreserveLock(p) =>
      if i :| 0 <= i < |preserve| && p == Strip(preserve[i]) && p != [] {
        assert NonBlank(Preserving)(preserve[i]) == Some(item);
      }
    case AppliedLock(a) =>
      if i :| 0 <= i < |applied| && a == Strip(applied[i]) && a != [] {
        assert NonBlank(Applying)(applied[i]) == Some(item);
      }
    case _ =>
  }

  lemma FieldMembers(inv: Inventory, targets: seq<string>, item: LockItem)
    ensures item in Collect(inv.Entries(), FieldItem(targets))
       <==> item.FieldLock? && !Edited(item.field, targets)
            && item.value == Strip(inv.Value(item.field)) && item.value != []
  {
    CollectMember(inv.Entries(), FieldItem(targets), item);
    if item.FieldLock? {
      var i := match item.field
        case Pose => 0 case Framing => 1 case Hands => 2 case Clothing => 3
        case Hair => 4 case FacialHair => 5 case Lighting => 6 case Background => 7;
      assert inv.Entries()[i] == (item.field, inv.Value(item.field));
    }
  }

  lemma AccessoryMembers(inv: Inventory, unlock: set<string>, item: LockItem)
    ensures item in Collect(inv.accessories, AccessoryItem(unlock))
       <==> item.AccessoryLock? && item.text in inv.accessories && ContentTokens(item.text) * unlock == {}
  {
    CollectMember(inv.accessories, AccessoryItem(unlock), item);
    if item.AccessoryLock? && item.text in inv.accessories && ContentTokens(item.text) * unlock == {} {
      var i :| 0 <= i < |inv.accessories| && inv.accessories[i] == item.text;
      assert AccessoryItem(unlock)(inv.accessories[i]) == Some(item);
    }
  }

  /** The person lock opens every enumeration the guards let it into. */
  lemma PersonFirst(
    poisoned: LockItem -> bool, inventory: Option<Inventory>, preserve: seq<string>,
    applied: seq<string>, targets: seq<string>, text: string)
    requires !poisoned(PersonLock)
    ensures var locks := Enumerate(poisoned, inventory, preserve, applied, targets, text);
      locks != [] && locks[0] == PersonLock
  {
    FirstCandidateKept(poisoned, InventoryItems(inventory, targets, text) , preserve, applied);
  }

  lemma FirstCandidateKept(
    poisoned: LockItem -> bool, rest: seq<LockItem>, preserve: seq<string>, applied: seq<string>)
    requires !poisoned(PersonLock)
    ensures var locks := Collect(Candidates(rest, preserve, applied), Guard(poisoned));
      locks != [] && locks[0] == PersonLock
  {
    var person: seq<LockItem> := [PersonLock];
    var tail := rest + UserItems(preserve, applied);
    assert Candidates(rest, preserve, applied) == person + tail;
    CollectConcat(person, tail, Guard(poisoned));
    CollectMember(person, Guard(poisoned), PersonLock);
    assert Guard(poisoned)(person[0]) == Some(PersonLock);
  }

  // ----- The order of the enumeration -----

  /** The most identity-critical first: the person, the photographed regions in render order, its accessories, the
      user's wishes, what was applied. */
  function Place(item: LockItem): nat {
    match item
    case PersonLock => 0
    case FieldLock(f, _) => 1 + FieldPlace(f)
    case AccessoryLock(_) => 9
    case PreserveLock(_) => 10
    case AppliedLock(_) => 11
  }

  function FieldPlace(f: Field): (n: nat)
    ensures n < 8
  {
    match f
    case Pose => 0
    case Framing => 1
    case Hands => 2
    case Clothing => 3
    case Hair => 4
    case FacialHair => 5
    case Lighting => 6
    case Background => 7
  }

  predicate InOrder(items: seq<LockItem>) {
    forall i, j | 0 <= i < j < |items| :: Place(items[i]) <= Place(items[j])
  }

  predicate Within(items: seq<LockItem>, low: nat, high: nat) {
    forall i | 0 <= i < |items| :: low <= Place(items[i]) <= high
  }

  lemma OrderedConcat(a: seq<LockItem>, b: seq<LockItem>, low: nat, middle: nat, high: nat)
    requires InOrder(a) && InOrder(b) && Within(a, low, middle) && Within(b, middle, high) && low <= middle <= high
    ensures InOrder(a + b) && Within(a + b, low, high)
  {
    hide Place;
  }

  /** Filtering with places that grow along the input gives an ordered output within the last place. */
  lemma {:induction false} CollectInOrder<A>(xs: seq<A>, f: A -> Option<LockItem>, low: nat, place: A -> nat)
    requires forall i | 0 <= i < |xs| :: low <= place(xs[i])
    requires forall i, j | 0 <= i < j < |xs| :: place(xs[i]) <= place(xs[j])
    requires forall i | 0 <= i < |xs| && f(xs[i]).Some? :: Place(f(xs[i]).value) == place(xs[i])
    ensures InOrder(Collect(xs, f)) && Within(Collect(xs, f), low, if xs == [] then low else place(xs[|xs| - 1]))
  {
    hide Place;
    if xs != [] {
      var init, last := xs[..|xs| - 1], xs[|xs| - 1];
      CollectInOrder(init, f, low, place);
      if init != [] {
        assert place(init[|init| - 1]) <= place(last);
      }
    }
  }

  lemma FieldsInOrder(inv: Inventory, targets: seq<string>)
    ensures var fields := Collect(inv.Entries(), FieldItem(targets)); InOrder(fields) && Within(fields, 1, 8)
  {
    hide Edited, Strip, Collect, InOrder, Within;
    CollectInOrder(inv.Entries(), FieldItem(targets), 1, (e: (Field, string)) => 1 + FieldPlace(e.0));
  }

  lemma SamePlace<A>(xs: seq<A>, f: A -> Option<LockItem>, at: nat)
    requires forall i | 0 <= i < |xs| && f(xs[i]).Some? :: Place(f(xs[i]).value) == at
    ensures InOrder(Collect(xs, f)) && Within(Collect(xs, f), at, at)
  {
    hide Place, InOrder, Within;
    CollectInOrder(xs, f, at, (x: A) => at);
  }

  lemma InventoryInOrder(inventory: Option<Inventory>, targets: seq<string>, text: string)
    ensures var items := InventoryItems(inventory, targets, text); InOrder(items) && Within(items, 1, 9)
  {
    hide Collect, InOrder, Within, UnlockTokens, ContentTokens;
    if inventory.Some? {
      var inv, unlock := inventory.value, UnlockTokens(targets, text);
      FieldsInOrder(inv, targets);
      SamePlace(inv.accessories, AccessoryItem(unlock), 9);
      var fields, accessories := Collect(inv.Entries(), FieldItem(targets)), Collect(inv.accessories,
          AccessoryItem(unlock));
      Widened(fields, 1, 8, 1, 9);
      OrderedConcat(fields, accessories, 1, 9, 9);
    } else {
      NoneInOrder();
    }
  }

  lemma NoneInOrder()
    ensures InOrder([]) && Within([], 1, 9)
  {
  }

  lemma Widened(items: seq<LockItem>, low: nat, high: nat, lower: nat, higher: nat)
    requires Within(items, low, high) && lower <= low && high <= higher
    ensures Within(items, lower, higher)
  {
  }

  lemma UserInOrder(preserve: seq<string>, applied: seq<string>)
    ensures var items := UserItems(preserve, applied); InOrder(items) && Within(items, 10, 11)
  {
    hide Collect, InOrder, Within, Strip;
    SamePlace(preserve, NonBlank(Preserving), 10);
    SamePlace(applied, NonBlank(Applying), 11);
    Widened(Collect(preserve, NonBlank(Preserving)), 10, 10, 10, 11);
    OrderedConcat(Collect(preserve, NonBlank(Preserving)), Collect(applied, NonBlank(Applying)), 10, 11, 11);
  }

  lemma {:induction false} GuardKeepsOrder(items: seq<LockItem>, poisoned: LockItem -> bool)
    requires InOrder(items)
    ensures InOrder(Collect(items, Guard(poisoned)))
  {
    hide Place;
    if items != [] {
      var init := items[..|items| - 1];
      GuardKeepsOrder(init, poisoned);
      GuardedAreItems(init, poisoned);
      assert forall item | item in init :: Place(item) <= Place(items[|items| - 1]);
    }
  }

  /** Every enumeration lists the most identity-critical items first. */
  lemma MostCriticalFirst(
    poisoned: LockItem -> bool, inventory: Option<Inventory>, preserve: seq<string>,
    applied: seq<string>, targets: seq<string>, text: string)
    ensures InOrder(Enumerate(poisoned, inventory, preserve, applied, targets, text))
  {
    hide InOrder, Within, InventoryItems, UserItems, Collect;
    var person, rest, user := [PersonLock], InventoryItems(inventory, targets, text), UserItems(preserve, applied);
    InventoryInOrder(inventory, targets, text);
    UserInOrder(preserve, applied);
    PersonPlace();
    OrderedConcat(person, rest, 0, 1, 9);
    Widened(person + rest, 0, 9, 0, 10);
    OrderedConcat(person + rest, user, 0, 10, 11);
    GuardKeepsOrder(Candidates(rest, preserve, applied), poisoned);
  }

  lemma PersonPlace()
    ensures InOrder([PersonLock]) && Within([PersonLock], 0, 1)
  {
  }

  /** Editing more regions or more text only removes inventory items; applying more only adds items. */
  lemma EditingMoreUnlocksOnly(
    poisoned: LockItem -> bool, inventory: Option<Inventory>, preserve: seq<string>,
    applied: seq<string>, targets: seq<string>, moreTargets: seq<string>, text: string, moreText: string)
    requires ContentTokens(text) <= ContentTokens(moreText)
    ensures Subsequence(
      Enumerate(poisoned, inventory, preserve, applied, targets + moreTargets, moreText),
      Enumerate(poisoned, inventory, preserve, applied, targets, text))
  {
    FewerInventoryItems(inventory, targets, moreTargets, text, moreText);
    hide InventoryItems, Subsequence;
    FewerCandidates(poisoned, InventoryItems(inventory, targets + moreTargets, moreText),
                    InventoryItems(inventory, targets, text), preserve, applied);
  }

  lemma FewerInventoryItems(
    inventory: Option<Inventory>, targets: seq<string>, moreTargets: seq<string>, text: string, moreText: string)
    requires ContentTokens(text) <= ContentTokens(moreText)
    ensures Subsequence(InventoryItems(inventory, targets + moreTargets, moreText), InventoryItems(inventory,
        targets, text))
  {
    var all := targets + moreTargets;
    if inventory.Some? {
      var inv := inventory.value;
      TokensGrow(targets, moreTargets);
      forall f | Edited(f, targets)
        ensures Edited(f, all)
      {
        var i :| 0 <= i < |targets| && Names(targets[i], f);
        assert all[i] == targets[i];
      }
      CollectMonotone(inv.Entries(), FieldItem(all), FieldItem(targets));
      var u, v := UnlockTokens(targets, text), UnlockTokens(all, moreText);
      assert u <= v;
      forall i | 0 <= i < |inv.accessories| && AccessoryItem(v)(inv.accessories[i]).Some?
        ensures AccessoryItem(u)(inv.accessories[i]) == AccessoryItem(v)(inv.accessories[i])
      {
        assert ContentTokens(inv.accessories[i]) * u <= ContentTokens(inv.accessories[i]) * v;
      }
      CollectMonotone(inv.accessories, AccessoryItem(v), AccessoryItem(u));
      SubsequenceConcat(
        Collect(inv.Entries(), FieldItem(all)), Collect(inv.Entries(), FieldItem(targets)),
        Collect(inv.accessories, AccessoryItem(v)), Collect(inv.accessories, AccessoryItem(u)));
    }
  }

  lemma FewerCandidates(
    poisoned: LockItem -> bool, less: seq<LockItem>, more: seq<LockItem>, preserve: seq<string>, applied: seq<string>)
    requires Subsequence(less, more)
    ensures Subsequence(Collect(Candidates(less, preserve, applied), Guard(poisoned)),
                        Collect(Candidates(more, preserve, applied), Guard(poisoned)))
  {
    var person, user := [PersonLock], UserItems(preserve, applied);
    SubsequenceReflexive(person);
    SubsequenceReflexive(user);
    SubsequenceConcat(person, person, less, more);
    SubsequenceConcat(person + less, person + more, user, user);
    SubsequenceCollect(person + less + user, person + more + user, Guard(poisoned));
  }

  lemma ApplyingMoreLocksOnly(
    poisoned: LockItem -> bool, inventory: Option<Inventory>, preserve: seq<string>,
    applied: seq<string>, moreApplied: seq<string>, targets: seq<string>, text: string)
    ensures var before := Enumerate(poisoned, inventory, preserve, applied, targets, text);
      var after := Enumerate(poisoned, inventory, preserve, applied + moreApplied, targets, text);
      before <= after
  {
    MoreCandidates(poisoned, InventoryItems(inventory, targets, text), preserve, applied, moreApplied);
  }

  lemma MoreCandidates(
    poisoned: LockItem -> bool, rest: seq<LockItem>, preserve: seq<string>, applied: seq<string>,
    moreApplied: seq<string>)
    ensures Collect(Candidates(rest, preserve, applied), Guard(poisoned))
         <= Collect(Candidates(rest, preserve, applied + moreApplied), Guard(poisoned))
  {
    CollectConcat(applied, moreApplied, NonBlank(Applying));
    var added := Collect(moreApplied, NonBlank(Applying));
    assert Candidates(rest, preserve, applied + moreApplied) == Candidates(rest, preserve, applied) + added;
    CollectConcat(Candidates(rest, preserve, applied), added, Guard(poisoned));
  }

  // ----- The part that comes from the photo -----

  predicate FromPhoto(item: LockItem) {
    item.FieldLock? || item.AccessoryLock?
  }

  function OnlyPhoto(): LockItem -> Option<LockItem> {
    (item: LockItem) => if FromPhoto(item) then Some(item) else None
  }

  /** The items an enumeration takes from the inventory. */
  function PhotoPart(locks: seq<LockItem>): seq<LockItem> {
    Collect(locks, OnlyPhoto())
  }

  lemma {:induction false} NothingCollected<A, B>(xs: seq<A>, f: A -> Option<B>)
    requires forall i | 0 <= i < |xs| :: f(xs[i]).None?
    ensures Collect(xs, f) == []
  {
    if xs != [] {
      NothingCollected(xs[..|xs| - 1], f);
    }
  }

  lemma {:induction false} UserItemsNotFromPhoto(xs: seq<string>, kind: EntryKind)
    ensures forall i | 0 <= i < |Collect(xs, NonBlank(kind))| :: !FromPhoto(Collect(xs, NonBlank(kind))[i])
  {
    if xs != [] {
      UserItemsNotFromPhoto(xs[..|xs| - 1], kind);
    }
  }

  lemma {:induction false} GuardedAreItems(items: seq<LockItem>, poisoned: LockItem -> bool)
    ensures forall item | item in Collect(items, Guard(poisoned)) :: item in items
  {
    if items != [] {
      GuardedAreItems(items[..|items| - 1], poisoned);
    }
  }

  lemma GuardedNotFromPhoto(items: seq<LockItem>, poisoned: LockItem -> bool)
    requires forall i | 0 <= i < |items| :: !FromPhoto(items[i])
    ensures PhotoPart(Collect(items, Guard(poisoned))) == []
  {
    GuardedAreItems(items, poisoned);
    var kept := Collect(items, Guard(poisoned));
    assert forall i | 0 <= i < |kept| :: kept[i] in items;
    NothingCollected(kept, OnlyPhoto());
  }

  /** Preserved and applied entries do not matter to it. */
  lemma PhotoPartOfEnumeration(
    poisoned: LockItem -> bool, inventory: Option<Inventory>, preserve: seq<string>,
    applied: seq<string>, targets: seq<string>, text: string)
    ensures PhotoPart(Enumerate(poisoned, inventory, preserve, applied, targets, text))
         == PhotoPart(Collect(InventoryItems(inventory, targets, text), Guard(poisoned)))
  {
    hide InventoryItems, Collect, PhotoPart;
    var person, rest, user := [PersonLock], InventoryItems(inventory, targets, text), UserItems(preserve, applied);
    UserNotFromPhoto(preserve, applied);
    GuardedNotFromPhoto(person, poisoned);
    GuardedNotFromPhoto(user, poisoned);
    hide UserItems;
    PhotoPartConcat(person, rest, poisoned);
    PhotoPartConcat(person + rest, user, poisoned);
  }

  lemma UserNotFromPhoto(preserve: seq<string>, applied: seq<string>)
    ensures var user := UserItems(preserve, applied); forall i | 0 <= i < |user| :: !FromPhoto(user[i])
  {
    hide Collect, NonBlank, FromPhoto;
    UserItemsNotFromPhoto(preserve, Preserving);
    UserItemsNotFromPhoto(applied, Applying);
  }

  lemma PhotoPartConcat(a: seq<LockItem>, b: seq<LockItem>, poisoned: LockItem -> bool)
    ensures PhotoPart(Collect(a + b, Guard(poisoned)))
         == PhotoPart(Collect(a, Guard(poisoned))) + PhotoPart(Collect(b, Guard(poisoned)))
  {
    hide Collect;
    CollectConcat(a, b, Guard(poisoned));
    CollectConcat(Collect(a, Guard(poisoned)), Collect(b, Guard(poisoned)), OnlyPhoto());
  }

  /** More targets and more edited text only remove photo items, whatever else is preserved or applied. */
  lemma EditingMoreUnlocksPhoto(
    poisoned: LockItem -> bool, inventory: Option<Inventory>, preserve: seq<string>, applied: seq<string>,
    laterApplied: seq<string>, targets: seq<string>, moreTargets: seq<string>, text: string, moreText: string)
    requires ContentTokens(text) <= ContentTokens(moreText)
    ensures Subsequence(
      PhotoPart(Enumerate(poisoned, inventory, preserve, laterApplied, targets + moreTargets, moreText)),
      PhotoPart(Enumerate(poisoned, inventory, preserve, applied, targets, text)))
  {
    hide Enumerate, Subsequence, InventoryItems;
    PhotoPartOfEnumeration(poisoned, inventory, preserve, laterApplied, targets + moreTargets, moreText);
    PhotoPartOfEnumeration(poisoned, inventory, preserve, applied, targets, text);
    FewerInventoryItems(inventory, targets, moreTargets, text, moreText);
    var less, more := InventoryItems(inventory, targets + moreTargets, moreText), InventoryItems(inventory, targets,
        text);
    SubsequenceCollect(less, more, Guard(poisoned));
    SubsequenceCollect(Collect(less, Guard(poisoned)), Collect(more, Guard(poisoned)), OnlyPhoto());
  }
}
