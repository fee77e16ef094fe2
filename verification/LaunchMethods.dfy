/** Normalising the configured ways to launch a provider: every method gets an id of its own. */
module LaunchMethods {
  import opened Strings

  // An entry of the configured list; an absent field is an empty string.
  datatype Item =
    | Command(text: string)
    | Table(bin: string, command: string, id: string, name: string, caption: string)
    | Other

  datatype LaunchMethod = LaunchMethod(id: string, caption: string, bin: string)

  function Or(a: string, b: string): string {
    if a != "" then a else b
  }

  function NumberedId(index: nat): string {
    "method_" + Digits(index + 1)
  }

  function BinOf(item: Item): string {
    match item
    case Command(text) => Strip(text)
    case Table(bin, command, _, _, _) => Strip(Or(bin, command))
    case Other => ""
  }

  // The id an entry asks for, before it is made unique.
  function BaseId(item: Item, index: nat): string {
    match item
    case Table(_, _, id, name, _) => Or(Strip(Or(Or(id, name), NumberedId(index))), NumberedId(index))
    case _ => NumberedId(index)
  }

  function LabelOf(item: Item, index: nat): string {
    match item
    case Command(text) => Strip(text)
    case Table(_, _, id, name, caption) =>
      Strip(Or(Or(caption, name), Or(Strip(Or(Or(id, name), NumberedId(index))), BinOf(item))))
    case Other => ""
  }

  function WithSuffix(base: string, k: nat): string {
    base + "_" + Digits(k)
  }

  lemma SuffixesDiffer(base: string, j: nat, k: nat)
    requires WithSuffix(base, j) == WithSuffix(base, k)
    ensures j == k
  {
    assert WithSuffix(base, j)[|base| + 1..] == Digits(j) && WithSuffix(base, k)[|base| + 1..] == Digits(k);
    DigitsInjective(j, k);
  }

  // id is the first of base, base_2, base_3 ... that is not taken.
  ghost predicate FirstFree(base: string, taken: set<string>, id: string) {
    && id !in taken
    && (id == base
        || (base in taken && exists k: nat :: k >= 2 && id == WithSuffix(base, k) && TakenBelow(base, taken, k)))
  }

  predicate TakenBelow(base: string, taken: set<string>, k: nat) {
    forall j: nat | 2 <= j < k :: WithSuffix(base, j) in taken
  }

  lemma {:induction false} TakenIsLarge(base: string, taken: set<string>, k: nat)
    requires k >= 2 && TakenBelow(base, taken, k)
    ensures k <= |taken| + 2
  {
    if k > 2 {
      var last := WithSuffix(base, k - 1);
      forall j: nat | 2 <= j < k - 1 ensures WithSuffix(base, j) in taken - {last} {
        if WithSuffix(base, j) == last {
          SuffixesDiffer(base, j, k - 1);
        }
      }
      TakenIsLarge(base, taken - {last}, k - 1);
    }
  }

  lemma FirstFreeIsUnique(base: string, taken: set<string>, a: string, b: string)
    requires FirstFree(base, taken, a) && FirstFree(base, taken, b)
    ensures a == b
  {
  }

  method UniqueId(base: string, seen: set<string>) returns (id: string)
    ensures FirstFree(base, seen, id)
  {
    id := base;
    var suffix: nat := 2;
    while id in seen
      invariant suffix >= 2 && TakenBelow(base, seen, suffix - 1)
      invariant if suffix == 2 then id == base else base in seen && id == WithSuffix(base, suffix - 1)
      decreases |seen| + 3 - suffix
    {
      TakenIsLarge(base, seen, if suffix == 2 then 2 else suffix);
      id := WithSuffix(base, suffix);
      suffix := suffix + 1;
    }
  }

  function Ids(methods: seq<LaunchMethod>): set<string> {
    if methods == [] then {} else Ids(methods[..|methods| - 1]) + {methods[|methods| - 1].id}
  }

  lemma {:induction false} IdsHoldEachId(methods: seq<LaunchMethod>, id: string)
    ensures id in Ids(methods) <==> exists i :: 0 <= i < |methods| && methods[i].id == id
  {
    if methods != [] {
      var n := |methods| - 1;
      IdsHoldEachId(methods[..n], id);
      assert forall i :: 0 <= i < n ==> methods[..n][i] == methods[i];
    }
  }

  // What an entry asks for; `bin` is empty when it makes no method.
  datatype Wish = Wish(base: string, caption: string, bin: string)

  function WishOf(item: Item, index: nat): Wish {
    Wish(BaseId(item, index), LabelOf(item, index), BinOf(item))
  }

  function Wishes(items: seq<Item>): seq<Wish> {
    seq(|items|, i requires 0 <= i < |items| => WishOf(items[i], i))
  }

  // m is the method a wish makes when the ids in taken are in use.
  ghost predicate Made(w: Wish, taken: set<string>, m: LaunchMethod) {
    FirstFree(w.base, taken, m.id) && m.bin == w.bin && m.caption == Or(w.caption, m.id)
  }

  // methods is what the first n wishes make: one method for each with a command, in order,
  // under the first free form of its id.
  ghost predicate NormalTo(wishes: seq<Wish>, n: nat, methods: seq<LaunchMethod>)
    requires n <= |wishes|
  {
    if n == 0 then methods == []
    else if wishes[n - 1].bin == "" then NormalTo(wishes, n - 1, methods)
    else
      && methods != [] && NormalTo(wishes, n - 1, methods[..|methods| - 1])
      && Made(wishes[n - 1], Ids(methods[..|methods| - 1]), methods[|methods| - 1])
  }

  ghost predicate Normalized(items: seq<Item>, methods: seq<LaunchMethod>) {
    NormalTo(Wishes(items), |items|, methods)
  }

  lemma OneMore(wishes: seq<Wish>, n: nat, rest: seq<LaunchMethod>, m: LaunchMethod)
    requires n < |wishes| && NormalTo(wishes, n, rest)
    requires wishes[n].bin != "" && Made(wishes[n], Ids(rest), m)
    ensures NormalTo(wishes, n + 1, rest + [m])
    ensures Ids(rest + [m]) == Ids(rest) + {m.id}
  {
    assert (rest + [m])[..|rest|] == rest;
  }

  // _normalize_launch_methods
  method NormalizeLaunchMethods(items: seq<Item>) returns (methods: seq<LaunchMethod>)
    ensures Normalized(items, methods)
  {
    methods := [];
    var seen: set<string> := {};
    for index := 0 to |items|
      invariant NormalTo(Wishes(items), index, methods) && seen == Ids(methods)
    {
      var w := WishOf(items[index], index);
      assert w == Wishes(items)[index];
      if w.bin != "" {
        var id := UniqueId(w.base, seen);
        var m := LaunchMethod(id, Or(w.caption, id), w.bin);
        OneMore(Wishes(items), index, methods, m);
        seen := seen + {id};
        methods := methods + [m];
      }
    }
  }

  // The n-th entry has a command: it made the last method.
  lemma SplitLast(wishes: seq<Wish>, n: nat, methods: seq<LaunchMethod>)
    returns (rest: seq<LaunchMethod>, m: LaunchMethod)
    requires 0 < n <= |wishes| && wishes[n - 1].bin != "" && NormalTo(wishes, n, methods)
    ensures methods == rest + [m] && NormalTo(wishes, n - 1, rest)
    ensures Made(wishes[n - 1], Ids(rest), m)
  {
    rest, m := methods[..|methods| - 1], methods[|methods| - 1];
  }

  predicate DistinctIds(methods: seq<LaunchMethod>) {
    forall i, j :: 0 <= i < j < |methods| ==> methods[i].id != methods[j].id
  }

  predicate AllComplete(methods: seq<LaunchMethod>) {
    forall i :: 0 <= i < |methods| ==> Complete(methods[i])
  }

  lemma DistinctSplit(rest: seq<LaunchMethod>, m: LaunchMethod)
    ensures DistinctIds(rest + [m]) <==> DistinctIds(rest) && m.id !in Ids(rest)
    ensures AllComplete(rest + [m]) <==> AllComplete(rest) && Complete(m)
  {
    var all := rest + [m];
    assert all[|rest|] == m && forall i :: 0 <= i < |rest| ==> all[i] == rest[i];
    IdsHoldEachId(rest, m.id);
    if i :| 0 <= i < |rest| && rest[i].id == m.id {
      assert all[i].id == all[|rest|].id;
    }
  }

  predicate Complete(m: LaunchMethod) {
    m.id != "" && m.caption != "" && m.bin != "" && Stripped(m.id) && Stripped(m.caption) && Stripped(m.bin)
  }

  lemma NumberedIsStripped(index: nat)
    ensures Stripped(NumberedId(index))
  {
    DigitsAreDigits(index + 1);
    var s, d := NumberedId(index), Digits(index + 1);
    assert s[|s| - 1] == d[|d| - 1];
  }

  predicate Usable(w: Wish) {
    w.base != "" && Stripped(w.base) && Stripped(w.caption) && Stripped(w.bin)
  }

  lemma WishesAreUsable(item: Item, index: nat)
    ensures Usable(WishOf(item, index))
  {
    NumberedIsStripped(index);
    match item
    case Command(text) => StripIsStripped(text);
    case Table(bin, command, id, name, caption) =>
      StripIsStripped(Or(bin, command));
      StripIsStripped(Or(Or(id, name), NumberedId(index)));
      StripIsStripped(Or(Or(caption, name), Or(Strip(Or(Or(id, name), NumberedId(index))), BinOf(item))));
    case Other =>
  }

  lemma FreeIsStripped(base: string, taken: set<string>, id: string)
    requires base != "" && Stripped(base) && FirstFree(base, taken, id)
    ensures id != "" && Stripped(id)
  {
    if id != base {
      var k: nat :| k >= 2 && id == WithSuffix(base, k) && TakenBelow(base, taken, k);
      DigitsAreDigits(k);
      assert id[|id| - 1] == Digits(k)[|Digits(k)| - 1] && id[0] == base[0];
    }
  }

  lemma MadeIsComplete(w: Wish, taken: set<string>, m: LaunchMethod)
    requires Usable(w) && w.bin != "" && Made(w, taken, m)
    ensures Complete(m) && m.id !in taken
  {
    FreeIsStripped(w.base, taken, m.id);
  }

  lemma {:induction false} DistinctSoFar(wishes: seq<Wish>, n: nat, methods: seq<LaunchMethod>)
    requires n <= |wishes| && NormalTo(wishes, n, methods) && forall i :: 0 <= i < |wishes| ==> Usable(wishes[i])
    ensures DistinctIds(methods) && AllComplete(methods)
  {
    if n > 0 {
      if wishes[n - 1].bin == "" {
        DistinctSoFar(wishes, n - 1, methods);
      } else {
        var rest, m := SplitLast(wishes, n, methods);
        DistinctSoFar(wishes, n - 1, rest);
        MadeIsComplete(wishes[n - 1], Ids(rest), m);
        DistinctSplit(rest, m);
      }
    }
  }

  // Every configured list gives methods with ids of their own and no empty field.
  lemma IdsAreDistinct(items: seq<Item>, methods: seq<LaunchMethod>)
    requires Normalized(items, methods)
    ensures DistinctIds(methods) && AllComplete(methods)
  {
    forall i | 0 <= i < |items| ensures Usable(Wishes(items)[i]) {
      WishesAreUsable(items[i], i);
    }
    DistinctSoFar(Wishes(items), |items|, methods);
  }

  lemma {:induction false} UniqueSoFar(wishes: seq<Wish>, n: nat, a: seq<LaunchMethod>, b: seq<LaunchMethod>)
    requires n <= |wishes| && NormalTo(wishes, n, a) && NormalTo(wishes, n, b)
    ensures a == b
  {
    if n > 0 {
      if wishes[n - 1].bin == "" {
        UniqueSoFar(wishes, n - 1, a, b);
      } else {
        var p, x := SplitLast(wishes, n, a);
        var q, y := SplitLast(wishes, n, b);
        UniqueSoFar(wishes, n - 1, p, q);
        FirstFreeIsUnique(wishes[n - 1].base, Ids(p), x.id, y.id);
      }
    }
  }

  // A list has one normal form.
  lemma NormalFormIsUnique(items: seq<Item>, a: seq<LaunchMethod>, b: seq<LaunchMethod>)
    requires Normalized(items, a) && Normalized(items, b)
    ensures a == b
  {
    UniqueSoFar(Wishes(items), |items|, a, b);
  }

  // The command an entry gives: its text, or its `bin`, or else its `command`.
  function CommandOf(item: Item): string {
    match item
    case Command(text) => text
    case Table(bin, command, _, _, _) => if bin == "" then command else bin
    case Other => ""
  }

  // How many of the first n wishes make a method.
  function MethodsBefore(wishes: seq<Wish>, n: nat): nat
    requires n <= |wishes|
  {
    if n == 0 then 0 else MethodsBefore(wishes, n - 1) + if wishes[n - 1].bin != "" then 1 else 0
  }

  lemma {:induction false} CountSoFar(wishes: seq<Wish>, n: nat, methods: seq<LaunchMethod>)
    requires n <= |wishes| && NormalTo(wishes, n, methods)
    ensures |methods| == MethodsBefore(wishes, n)
  {
    if n > 0 {
      CountSoFar(wishes, n - 1, if wishes[n - 1].bin == "" then methods else methods[..|methods| - 1]);
    }
  }

  // The i-th wish made the method at its place.
  ghost predicate MadeAt(wishes: seq<Wish>, methods: seq<LaunchMethod>, i: nat)
    requires i < |wishes|
  {
    var j := MethodsBefore(wishes, i);
    j < |methods| && Made(wishes[i], Ids(methods[..j]), methods[j])
  }

  lemma {:induction false} MethodsSoFar(wishes: seq<Wish>, n: nat, methods: seq<LaunchMethod>, i: nat)
    requires i < n <= |wishes| && NormalTo(wishes, n, methods) && wishes[i].bin != ""
    ensures MadeAt(wishes, methods, i)
  {
    if wishes[n - 1].bin == "" {
      MethodsSoFar(wishes, n - 1, methods, i);
    } else {
      var rest := methods[..|methods| - 1];
      if i < n - 1 {
        MethodsSoFar(wishes, n - 1, rest, i);
        assert methods[..MethodsBefore(wishes, i)] == rest[..MethodsBefore(wishes, i)];
      } else {
        CountSoFar(wishes, n - 1, rest);
      }
    }
  }

  // An entry with a command makes a method.
  lemma EntryIsMade(items: seq<Item>, methods: seq<LaunchMethod>, i: nat)
    requires Normalized(items, methods) && i < |items| && Strip(CommandOf(items[i])) != ""
    ensures MadeAt(Wishes(items), methods, i) && Wishes(items)[i] == WishOf(items[i], i)
    ensures WishOf(items[i], i).bin == Strip(CommandOf(items[i]))
  {
    MethodsSoFar(Wishes(items), |items|, methods, i);
  }

  // Each entry with a command makes the method at its place among those that have one, with
  // that command; and one that names no id is numbered by its place in the list, from one.
  lemma EntryMakesMethod(items: seq<Item>, methods: seq<LaunchMethod>, i: nat) returns (j: nat, d: string)
    requires Normalized(items, methods) && i < |items| && Strip(CommandOf(items[i])) != ""
    ensures j == MethodsBefore(Wishes(items), i) < |methods| == MethodsBefore(Wishes(items), |items|)
    ensures methods[j].bin == Strip(CommandOf(items[i]))
    ensures Value(d) == i + 1
    ensures items[i].Command? && "method_" + d !in Ids(methods[..j]) ==> methods[j].id == "method_" + d
  {
    EntryIsMade(items, methods, i);
    CountSoFar(Wishes(items), |items|, methods);
    DigitsDenote(i + 1);
    j, d := MethodsBefore(Wishes(items), i), Digits(i + 1);
  }

  // An entry that names an id no earlier method has keeps it, without blanks.
  lemma NamedIdIsKept(items: seq<Item>, methods: seq<LaunchMethod>, i: nat)
    requires Normalized(items, methods) && i < |items| && Strip(CommandOf(items[i])) != "" && items[i].Table?
    requires items[i].id != "" && Stripped(items[i].id)
    ensures var j := MethodsBefore(Wishes(items), i);
      j < |methods| && (items[i].id !in Ids(methods[..j]) ==> methods[j].id == items[i].id)
  {
    EntryIsMade(items, methods, i);
    StrippedIsFixed(items[i].id);
  }

  // So is its caption; one that gives none is shown under its name, or else under its id.
  lemma CaptionIsKept(items: seq<Item>, methods: seq<LaunchMethod>, i: nat)
    requires Normalized(items, methods) && i < |items| && Strip(CommandOf(items[i])) != "" && items[i].Table?
    requires Stripped(items[i].caption) && Stripped(items[i].name) && Stripped(items[i].id)
    ensures var j := MethodsBefore(Wishes(items), i); var item := items[i];
      && j < |methods|
      && (item.caption != "" ==> methods[j].caption == item.caption)
      && (item.caption == "" && item.name != "" ==> methods[j].caption == item.name)
      && (item.caption == "" && item.name == "" && item.id != "" ==> methods[j].caption == item.id)
  {
    EntryIsMade(items, methods, i);
    StrippedIsFixed(items[i].caption);
    StrippedIsFixed(items[i].name);
    StrippedIsFixed(items[i].id);
  }

  // A method as an entry of the list, and as a wish.
  function AsItem(m: LaunchMethod): Item {
    Table(m.bin, "", m.id, "", m.caption)
  }

  function AsWish(m: LaunchMethod): Wish {
    Wish(m.id, m.caption, m.bin)
  }

  lemma CompleteIsItsOwnWish(m: LaunchMethod, index: nat)
    requires Complete(m)
    ensures WishOf(AsItem(m), index) == AsWish(m)
  {
    StrippedIsFixed(m.id);
    StrippedIsFixed(m.bin);
    StrippedIsFixed(m.caption);
  }

  function AsItems(methods: seq<LaunchMethod>): seq<Item> {
    seq(|methods|, i requires 0 <= i < |methods| => AsItem(methods[i]))
  }

  lemma NextIsNew(methods: seq<LaunchMethod>, n: nat)
    requires n < |methods| && DistinctIds(methods)
    ensures methods[n].id !in Ids(methods[..n])
  {
    IdsHoldEachId(methods[..n], methods[n].id);
  }

  lemma MadeAgain(wishes: seq<Wish>, n: nat, rest: seq<LaunchMethod>, m: LaunchMethod)
    requires n < |wishes| && NormalTo(wishes, n, rest)
    requires wishes[n] == AsWish(m) && Complete(m) && m.id !in Ids(rest)
    ensures NormalTo(wishes, n + 1, rest + [m])
  {
    OneMore(wishes, n, rest, m);
  }

  predicate WishedFor(wishes: seq<Wish>, methods: seq<LaunchMethod>) {
    |methods| <= |wishes| && forall i :: 0 <= i < |methods| ==> wishes[i] == AsWish(methods[i])
  }

  lemma {:induction false} NormalStaysNormal(wishes: seq<Wish>, methods: seq<LaunchMethod>)
    requires WishedFor(wishes, methods) && DistinctIds(methods) && AllComplete(methods)
    ensures NormalTo(wishes, |methods|, methods)
  {
    if methods != [] {
      var n := |methods| - 1;
      var rest, m := methods[..n], methods[n];
      NextIsNew(methods, n);
      NormalStaysNormal(wishes, rest);
      MadeAgain(wishes, n, rest, m);
      assert methods == rest + [m];
    }
  }

  // Reading back a normalised list gives the same list.
  lemma NormalizingIsIdempotent(items: seq<Item>, once: seq<LaunchMethod>, twice: seq<LaunchMethod>)
    requires Normalized(items, once) && Normalized(AsItems(once), twice)
    ensures twice == once
  {
    IdsAreDistinct(items, once);
    var wishes := Wishes(AsItems(once));
    forall i | 0 <= i < |once| ensures wishes[i] == AsWish(once[i]) {
      CompleteIsItsOwnWish(once[i], i);
    }
    NormalStaysNormal(wishes, once);
    NormalFormIsUnique(AsItems(once), once, twice);
  }
}
