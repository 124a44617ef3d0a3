/** The derived views of the main slice (redux/main/selectors.ts): the
    categories flattened for lists and pickers, ordered by how often they are
    used, the budget cards of a month and the latest stored exchange rate.
    Each selector is a function of the slice. */
module Selectors {
  import opened Js
  import opened Entities
  import opened Sorting
  import opened CategoryTable

  // ---------------------------------------------------------------------------
  // selectCategories

  /** A subcategory as the flattened list shows it: tagged with its group's
      name, its colour prefixed with `#` (an empty colour becomes `##FFFFFF`). */
  function Rendered(s: Subcategory, groupName: string): (r: Subcategory)
    ensures r.id == s.id && r.name == s.name && r.groupId == s.groupId && r.groupName == Some(groupName)
    ensures |r.color| >= 2 && r.color[0] == '#'
  {
    s.(groupName := Some(groupName), color := "#" + (if s.color != "" then s.color else "#FFFFFF"))
  }

  function RenderGroup(e: Entry): (r: seq<Subcategory>)
    ensures |r| == |e.group.subcategories|
  {
    var subs := e.group.subcategories;
    seq(|subs|, k requires 0 <= k < |subs| => Rendered(subs[k], e.group.name))
  }

  /** The groups' subcategories one group after the other. */
  function Flatten(es: Table): seq<Subcategory>
    decreases |es|
  {
    if es == [] then [] else RenderGroup(es[0]) + Flatten(es[1..])
  }

  /** `selectCategories`: every group's subcategories in enumeration order. */
  function SelectCategories(t: Table): seq<Subcategory> {
    Flatten(Entries(t))
  }

  /** The number of subcategories in all groups. */
  function SubCount(es: Table): nat
    decreases |es|
  {
    if es == [] then 0 else |es[0].group.subcategories| + SubCount(es[1..])
  }

  lemma {:induction false} FlattenLength(es: Table)
    ensures |Flatten(es)| == SubCount(es)
    decreases |es|
  {
    if es != [] {
      FlattenLength(es[1..]);
    }
  }

  lemma {:induction false} SubCountAppend(a: Table, b: Table)
    ensures SubCount(a + b) == SubCount(a) + SubCount(b)
    decreases |a|
  {
    if a != [] {
      SubCountAppend(a[1..], b);
      var ab := a + b;
      assert ab[0] == a[0] && ab[1..] == a[1..] + b;
      assert SubCount(ab) == |ab[0].group.subcategories| + SubCount(ab[1..]);
    } else {
      assert a + b == b;
    }
  }

  lemma SubCountRemove(b: Table, j: int)
    requires 0 <= j < |b|
    ensures SubCount(b) == |b[j].group.subcategories| + SubCount(b[..j] + b[j + 1..])
  {
    assert b == b[..j] + ([b[j]] + b[j + 1..]);
    SubCountAppend(b[..j], [b[j]] + b[j + 1..]);
    SubCountAppend(b[..j], b[j + 1..]);
    assert ([b[j]] + b[j + 1..])[1..] == b[j + 1..];
  }

  /** The count does not depend on the order of the groups. */
  lemma {:induction false} SubCountPermutation(a: Table, b: Table)
    requires multiset(a) == multiset(b)
    ensures SubCount(a) == SubCount(b)
    decreases |a|
  {
    if a == [] {
      assert |b| == |multiset(b)| == 0;
    } else {
      var x := a[0];
      assert x in multiset(b);
      var j :| 0 <= j < |b| && b[j] == x;
      var b' := b[..j] + b[j + 1..];
      assert b == b[..j] + [x] + b[j + 1..];
      assert a == [x] + a[1..];
      assert multiset(a) == multiset{x} + multiset(a[1..]);
      assert multiset(b) == multiset(b[..j]) + multiset{x} + multiset(b[j + 1..]);
      assert multiset(b') == multiset(b[..j]) + multiset(b[j + 1..]);
      assert multiset(a[1..]) == multiset(a) - multiset{x};
      assert multiset(b') == multiset(b) - multiset{x};
      SubCountPermutation(a[1..], b');
      SubCountRemove(b, j);
    }
  }

  /** The flattened list has one item per subcategory of the table. */
  lemma SelectCategoriesLength(t: Table)
    ensures |SelectCategories(t)| == SubCount(t)
  {
    FlattenLength(Entries(t));
    EntriesPermutation(t);
    SubCountPermutation(Entries(t), t);
  }

  lemma {:induction false} FlattenMembers(es: Table, r: Subcategory)
    ensures r in Flatten(es) <==>
      exists e, k :: e in es && 0 <= k < |e.group.subcategories| && r == Rendered(e.group.subcategories[k], e.group.name)
    decreases |es|
  {
    if es != [] {
      FlattenMembers(es[1..], r);
      var head := RenderGroup(es[0]);
      assert Flatten(es) == head + Flatten(es[1..]);
      if r in head {
        var k :| 0 <= k < |head| && head[k] == r;
        assert es[0] in es && r == Rendered(es[0].group.subcategories[k], es[0].group.name);
      }
      if exists e, k :: e in es && 0 <= k < |e.group.subcategories| && r == Rendered(e.group.subcategories[k], e.group.name) {
        var e, k :| e in es && 0 <= k < |e.group.subcategories| && r == Rendered(e.group.subcategories[k], e.group.name);
        if e == es[0] {
          assert head[k] == r;
        } else {
          assert e in es[1..];
        }
      }
    }
  }

  /** An item is in the flattened list exactly when it is a subcategory of
      some group, rendered with that group's name. */
  lemma SelectCategoriesMembers(t: Table, r: Subcategory)
    ensures r in SelectCategories(t) <==>
      exists e, k :: e in t && 0 <= k < |e.group.subcategories| && r == Rendered(e.group.subcategories[k], e.group.name)
  {
    FlattenMembers(Entries(t), r);
    EntriesPermutation(t);
    forall e | e in t ensures e in Entries(t) {
      assert e in multiset(t);
    }
    forall e | e in Entries(t) ensures e in t {
      assert e in multiset(Entries(t));
    }
  }

  // ---------------------------------------------------------------------------
  // selectMainCategories

  /** `selectMainCategories`: a `[name, key]` pair per group, in enumeration order. */
  function SelectMainCategories(t: Table): seq<(string, string)> {
    var es := Entries(t);
    seq(|es|, k requires 0 <= k < |es| => (es[k].group.name, es[k].key))
  }

  /** One pair per group: the keys come in `Object.keys` order, each paired
      with the name of the group stored under it, and every key appears. */
  lemma MainCategoriesPairs(t: Table)
    requires KeysUnique(t)
    ensures var r := SelectMainCategories(t);
      |r| == |t|
      && (forall k :: 0 <= k < |r| ==> r[k].1 == KeyList(t)[k] && Get(t, r[k].1).Some? && Get(t, r[k].1).value.name == r[k].0)
      && (forall key :: key in Keys(t) <==> exists k :: 0 <= k < |r| && r[k].1 == key)
  {
    EntriesPermutation(t);
    KeyListKeys(t);
    var es := Entries(t);
    var r := SelectMainCategories(t);
    forall k | 0 <= k < |r| ensures Get(t, r[k].1).Some? && Get(t, r[k].1).value.name == r[k].0 {
      assert es[k] in multiset(t);
      var i :| 0 <= i < |t| && t[i] == es[k];
      UniqueIndex(t, es[k].key, i);
    }
    forall key | key in Keys(t) ensures exists k :: 0 <= k < |r| && r[k].1 == key {
      assert key in KeyList(t);
      var k :| 0 <= k < |KeyList(t)| && KeyList(t)[k] == key;
      assert r[k].1 == key;
    }
  }

  // ---------------------------------------------------------------------------
  // selectCategoriesByUsage

  /** A category in the usage-ordered list, with the `usageCount` it was
      given (none when there are no expenses at all). */
  datatype UsageItem = UsageItem(cat: Subcategory, usageCount: Option<nat>)

  /** `usageCount[cat.id]`: the expenses whose category id has the same property key. */
  function Usage(expenses: seq<Expense>, cat: Subcategory): nat {
    Count(expenses, (e: Expense) => IntToString(e.categoryId) == IdString(cat.id))
  }

  function CountOf(item: UsageItem): nat {
    Or(item.usageCount, 0)
  }

  /** `a.name.localeCompare(b.name)` */
  predicate NameLe(a: UsageItem, b: UsageItem) {
    StrLe(a.cat.name, b.cat.name)
  }

  /** More used first, then by name. */
  predicate UsageLe(a: UsageItem, b: UsageItem) {
    if CountOf(a) != CountOf(b) then CountOf(a) > CountOf(b) else StrLe(a.cat.name, b.cat.name)
  }

  function Plain(cats: seq<Subcategory>): (r: seq<UsageItem>)
    ensures |r| == |cats| && forall k :: 0 <= k < |cats| ==> r[k] == UsageItem(cats[k], None)
  {
    seq(|cats|, k requires 0 <= k < |cats| => UsageItem(cats[k], None))
  }

  /** `categories.map(cat => ({...cat, usageCount}))` */
  function Counted(expenses: seq<Expense>, cats: seq<Subcategory>): (r: seq<UsageItem>)
    ensures |r| == |cats| && forall k :: 0 <= k < |cats| ==> r[k] == UsageItem(cats[k], Some(Usage(expenses, cats[k])))
  {
    seq(|cats|, k requires 0 <= k < |cats| => UsageItem(cats[k], Some(Usage(expenses, cats[k]))))
  }

  function Min(a: int, b: int): int {
    if a <= b then a else b
  }

  /** `selectCategoriesByUsage`: by name when nothing was spent; otherwise
      the three most used first and the rest by name. */
  function SelectCategoriesByUsage(expenses: seq<Expense>, cats: seq<Subcategory>): seq<UsageItem> {
    if expenses == [] then SortBy(Plain(cats), NameLe)
    else
      var sorted := SortBy(Counted(expenses, cats), UsageLe);
      var m := Min(3, |sorted|);
      sorted[..m] + SortBy(sorted[m..], NameLe)
  }

  lemma NameOrder()
    ensures Total(NameLe) && Transitive(NameLe)
  {
    forall a: UsageItem, b: UsageItem ensures NameLe(a, b) || NameLe(b, a) {
      StrLeTotal(a.cat.name, b.cat.name);
    }
    forall a: UsageItem, b: UsageItem, c: UsageItem | NameLe(a, b) && NameLe(b, c) ensures NameLe(a, c) {
      StrLeTransitive(a.cat.name, b.cat.name, c.cat.name);
    }
  }

  lemma UsageOrder()
    ensures Total(UsageLe) && Transitive(UsageLe)
  {
    forall a: UsageItem, b: UsageItem ensures UsageLe(a, b) || UsageLe(b, a) {
      StrLeTotal(a.cat.name, b.cat.name);
    }
    forall a: UsageItem, b: UsageItem, c: UsageItem | UsageLe(a, b) && UsageLe(b, c) ensures UsageLe(a, c) {
      if CountOf(a) == CountOf(b) == CountOf(c) {
        StrLeTransitive(a.cat.name, b.cat.name, c.cat.name);
      }
    }
  }

  /** Without expenses the categories come out sorted by name, each once. */
  lemma ByUsageWithoutExpenses(cats: seq<Subcategory>)
    ensures var r := SelectCategoriesByUsage([], cats);
      multiset(r) == multiset(Plain(cats)) && SortedBy(r, NameLe)
  {
    NameOrder();
    SortSorted(Plain(cats), NameLe);
  }

  /** The first `m` elements of a sorted sequence, followed by the rest
      sorted again by another comparator: the same elements, and each of the
      first `m` may precede everything after it. */
  lemma SortedHeadThenResorted<T>(sorted: seq<T>, m: int, le: (T, T) -> bool, le2: (T, T) -> bool)
    requires 0 <= m <= |sorted| && SortedBy(sorted, le)
    ensures var r := sorted[..m] + SortBy(sorted[m..], le2);
      multiset(r) == multiset(sorted)
      && forall i, j :: 0 <= i < j < |r| && i < m ==> le(r[i], r[j])
  {
    var rest := sorted[m..];
    SortPermutes(rest, le2);
    var r := sorted[..m] + SortBy(rest, le2);
    assert sorted == sorted[..m] + rest;
    forall i, j | 0 <= i < j < |r| && i < m ensures le(r[i], r[j]) {
      if j >= m {
        assert r[j] in multiset(SortBy(rest, le2));
        var jj :| 0 <= jj < |rest| && rest[jj] == r[j];
        assert r[j] == sorted[m + jj];
      }
    }
  }

  /** With expenses every category comes out once with its usage count; the
      first min(3, n) are the most used (ties by name) and precede the rest
      in that order, and the rest are sorted by name. */
  lemma ByUsageWithExpenses(expenses: seq<Expense>, cats: seq<Subcategory>)
    requires expenses != []
    ensures var r := SelectCategoriesByUsage(expenses, cats);
      var m := Min(3, |cats|);
      multiset(r) == multiset(Counted(expenses, cats)) && |r| == |cats|
      && (forall i, j :: 0 <= i < j < |r| && i < m ==> UsageLe(r[i], r[j]))
      && SortedBy(r[m..], NameLe)
  {
    var items := Counted(expenses, cats);
    var sorted := SortBy(items, UsageLe);
    UsageOrder();
    NameOrder();
    SortSorted(items, UsageLe);
    var m := Min(3, |sorted|);
    SortSorted(sorted[m..], NameLe);
    SortedHeadThenResorted(sorted, m, UsageLe, NameLe);
    var r := SelectCategoriesByUsage(expenses, cats);
    assert r[m..] == SortBy(sorted[m..], NameLe);
  }

  // ---------------------------------------------------------------------------
  // selectBudgets

  /** `+x` for the values the selector converts: an empty string is 0, an
      optionally signed run of digits its value, anything else `NaN`. */
  function StringToNumber(s: string): Number {
    if s == "" then Int(0)
    else if AllDigits(s) then Int(DecimalValue(s))
    else if s[0] == '-' && |s| > 1 && AllDigits(s[1..]) then Int(0 - DecimalValue(s[1..]))
    else NaN
  }

  function IdNumber(id: Id): Number {
    match id
    case Num(n) => Int(n)
    case Str(s) => StringToNumber(s)
  }

  /** `+groupId`: `undefined` is `NaN`, `null` is 0. */
  function NullableNumber(g: Nullable<int>): Number {
    match g
    case Undefined => NaN
    case Null => Int(0)
    case Val(n) => Int(n)
  }

  function OptionNumber(o: Option<int>): Number {
    if o.Some? then Int(o.value) else NaN
  }

  /** `===` on numbers: `NaN` equals nothing. */
  predicate NumEq(a: Number, b: Number) {
    a.Int? && b.Int? && a.i == b.i
  }

  /** `s.split('-')` read as `[year, month]`. */
  function YearMonthOf(s: string): (Option<string>, Option<string>) {
    var parts := Split(s, '-');
    (Nth(parts, 0), Nth(parts, 1))
  }

  datatype BudgetCardItem = BudgetCardItem(id: string, yearMonth: string, budgetedName: string, allocatedAmount: real, amount: real)

  /** The sum of the prices. */
  function PriceSum(exps: seq<Expense>): real
    decreases |exps|
  {
    if exps == [] then 0.0 else exps[0].price + PriceSum(exps[1..])
  }

  function InCategory(cid: Option<int>): Expense -> bool {
    (e: Expense) => Some(e.categoryId) == cid
  }

  /** The spending a category budget shows: the reduce over the month's expenses. */
  function CategorySpend(exps: seq<Expense>, cid: Option<int>): real
    decreases |exps|
  {
    if exps == [] then 0.0
    else (if Some(exps[0].categoryId) == cid then exps[0].price else 0.0) + CategorySpend(exps[1..], cid)
  }

  /** A category budget spends exactly the prices of the expenses in that category. */
  lemma {:induction false} CategorySpendIsTotal(exps: seq<Expense>, cid: Option<int>)
    ensures CategorySpend(exps, cid) == PriceSum(Filter(exps, InCategory(cid)))
    decreases |exps|
  {
    if exps != [] {
      CategorySpendIsTotal(exps[1..], cid);
      var head := if InCategory(cid)(exps[0]) then [exps[0]] else [];
      var rest := Filter(exps[1..], InCategory(cid));
      assert Filter(exps, InCategory(cid)) == head + rest;
      if head != [] {
        assert (head + rest)[0] == exps[0] && (head + rest)[1..] == rest;
      } else {
        assert head + rest == rest;
      }
    }
  }

  predicate IsListed(cats: seq<Subcategory>, categoryId: int) {
    exists k :: 0 <= k < |cats| && cats[k].id == Num(categoryId)
  }

  function IsSubcategory(categoryId: int): Subcategory -> bool {
    (c: Subcategory) => c.id == Num(categoryId)
  }

  /** `categories.find(cat => cat.id === currExp.categoryId)` */
  function ListedAs(cats: seq<Subcategory>, categoryId: int): Option<Subcategory> {
    Find(cats, IsSubcategory(categoryId))
  }

  /** The spending a group budget shows: for each expense its subcategory is
      looked up, and reading the group of a subcategory that is not listed
      throws (`None`). */
  function GroupSpend(exps: seq<Expense>, cats: seq<Subcategory>, g: Nullable<int>): (r: Option<real>)
    ensures r.None? <==> exists k :: 0 <= k < |exps| && !IsListed(cats, exps[k].categoryId)
    decreases |exps|
  {
    if exps == [] then Some(0.0)
    else
      var e := exps[0];
      var cat := ListedAs(cats, e.categoryId);
      var rest := GroupSpend(exps[1..], cats, g);
      assert forall k :: 1 <= k < |exps| ==> exps[k] == exps[1..][k - 1];
      if cat.None? || rest.None? then None
      else Some((if g.Val? && cat.value.groupId == Num(g.value) then e.price else 0.0) + rest.value)
  }

  /** An expense counts towards group `g` when its listed subcategory belongs to `g`. */
  predicate SpentInGroup(cats: seq<Subcategory>, g: Nullable<int>, e: Expense) {
    g.Val? && ListedAs(cats, e.categoryId).Some? && ListedAs(cats, e.categoryId).value.groupId == Num(g.value)
  }

  function InGroup(cats: seq<Subcategory>, g: Nullable<int>): Expense -> bool {
    (e: Expense) => SpentInGroup(cats, g, e)
  }

  /** When it does not throw, a group budget spends exactly the prices of the
      expenses whose subcategory belongs to the group. */
  lemma {:induction false} GroupSpendIsTotal(exps: seq<Expense>, cats: seq<Subcategory>, g: Nullable<int>)
    ensures GroupSpend(exps, cats, g).Some? ==> GroupSpend(exps, cats, g).value == PriceSum(Filter(exps, InGroup(cats, g)))
    decreases |exps|
  {
    if exps != [] && GroupSpend(exps, cats, g).Some? {
      GroupSpendIsTotal(exps[1..], cats, g);
      var head := if InGroup(cats, g)(exps[0]) then [exps[0]] else [];
      var rest := Filter(exps[1..], InGroup(cats, g));
      assert Filter(exps, InGroup(cats, g)) == head + rest;
      if head != [] {
        assert (head + rest)[0] == exps[0] && (head + rest)[1..] == rest;
      } else {
        assert head + rest == rest;
      }
    }
  }

  /** `+cat.groupId === +groupId` */
  predicate SameGroup(c: Subcategory, g: Nullable<int>) {
    NumEq(IdNumber(c.groupId), NullableNumber(g))
  }

  function InSameGroup(g: Nullable<int>): Subcategory -> bool {
    (c: Subcategory) => SameGroup(c, g)
  }

  /** `+cat.id === +categoryId` */
  predicate SameCategory(c: Subcategory, cid: Option<int>) {
    NumEq(IdNumber(c.id), OptionNumber(cid))
  }

  function IsSameCategory(cid: Option<int>): Subcategory -> bool {
    (c: Subcategory) => SameCategory(c, cid)
  }

  /** `budgetedName` of a group budget: the group name of the first
      subcategory in that group, or "" when there is none. */
  function GroupName(cats: seq<Subcategory>, g: Nullable<int>): (r: string)
    ensures (forall k :: 0 <= k < |cats| ==> !SameGroup(cats[k], g)) ==> r == ""
    ensures forall k :: 0 <= k < |cats| && SameGroup(cats[k], g) && (forall j :: 0 <= j < k ==> !SameGroup(cats[j], g)) ==>
              r == Or(cats[k].groupName, "")
  {
    var i := FindIndex(cats, InSameGroup(g));
    var c := Find(cats, InSameGroup(g));
    assert c.Some? ==> c.value == cats[i];
    if c.Some? && Truthy(c.value.groupName) then c.value.groupName.value else ""
  }

  /** `budgetedName` of a category budget: the name of the first subcategory
      with that id, or "" when there is none. */
  function CategoryName(cats: seq<Subcategory>, cid: Option<int>): (r: string)
    ensures (forall k :: 0 <= k < |cats| ==> !SameCategory(cats[k], cid)) ==> r == ""
    ensures forall k :: 0 <= k < |cats| && SameCategory(cats[k], cid) && (forall j :: 0 <= j < k ==> !SameCategory(cats[j], cid)) ==>
              r == cats[k].name
  {
    var i := FindIndex(cats, IsSameCategory(cid));
    var c := Find(cats, IsSameCategory(cid));
    assert c.Some? ==> c.value == cats[i];
    if c.Some? && c.value.name != "" then c.value.name else ""
  }

  /** The card of one budget; `isGroup` decides which kind it is. */
  function Card(b: Budget, isGroup: Budget -> bool, cats: seq<Subcategory>, exps: seq<Expense>): Option<BudgetCardItem> {
    var spent := Spent(b, isGroup, cats, exps);
    if spent.None? then None
    else Some(BudgetCardItem(b.id, Or(b.yearMonth, ""), BudgetedName(b, isGroup, cats), b.amount, spent.value))
  }

  function Spent(b: Budget, isGroup: Budget -> bool, cats: seq<Subcategory>, exps: seq<Expense>): Option<real> {
    if isGroup(b) then GroupSpend(exps, cats, b.groupId) else Some(CategorySpend(exps, b.categoryId))
  }

  function BudgetedName(b: Budget, isGroup: Budget -> bool, cats: seq<Subcategory>): string {
    if isGroup(b) then GroupName(cats, b.groupId) else CategoryName(cats, b.categoryId)
  }

  function CardOf(isGroup: Budget -> bool, cats: seq<Subcategory>, exps: seq<Expense>): Budget -> Option<BudgetCardItem> {
    (b: Budget) => Card(b, isGroup, cats, exps)
  }

  /** `map` whose callback may throw: `None` as soon as one element throws. */
  function MapAll(bs: seq<Budget>, card: Budget -> Option<BudgetCardItem>): (r: Option<seq<BudgetCardItem>>)
    ensures r.None? <==> exists k :: 0 <= k < |bs| && card(bs[k]).None?
    ensures r.Some? ==> |r.value| == |bs| && forall k :: 0 <= k < |bs| ==> Some(r.value[k]) == card(bs[k])
    decreases |bs|
  {
    if bs == [] then Some([])
    else
      var c := card(bs[0]);
      var rest := MapAll(bs[1..], card);
      assert forall k :: 1 <= k < |bs| ==> bs[k] == bs[1..][k - 1];
      if c.None? || rest.None? then None else Some([c.value] + rest.value)
  }

  /** The cards of a list of budgets; one card that throws makes the whole selector throw. */
  function Cards(bs: seq<Budget>, isGroup: Budget -> bool, cats: seq<Subcategory>, exps: seq<Expense>): (r: Option<seq<BudgetCardItem>>)
    ensures r.None? <==> exists k :: 0 <= k < |bs| && Card(bs[k], isGroup, cats, exps).None?
    ensures r.Some? ==> |r.value| == |bs| && forall k :: 0 <= k < |bs| ==> Some(r.value[k]) == Card(bs[k], isGroup, cats, exps)
  {
    MapAll(bs, CardOf(isGroup, cats, exps))
  }

  function InMonth(ym: (Option<string>, Option<string>)): Expense -> bool {
    (e: Expense) => YearMonthOf(e.date) == ym
  }

  function BudgetInMonth(ym: (Option<string>, Option<string>)): Budget -> bool {
    (b: Budget) => YearMonthOf(Or(b.yearMonth, "")) == ym
  }

  /** `selectBudgets(yearMonth)`, with the group test as a parameter. A budget
      without `yearMonth` makes the month filter throw. */
  function SelectBudgetsWith(isGroup: Budget -> bool, yearMonth: string, budgets: seq<Budget>, cats: seq<Subcategory>, expenses: seq<Expense>)
    : Option<seq<BudgetCardItem>>
  {
    if exists k :: 0 <= k < |budgets| && budgets[k].yearMonth.None? then None
    else
      Cards(MonthBudgets(yearMonth, budgets), isGroup, cats, MonthExpenses(yearMonth, expenses))
  }

  /** The budgets of the requested month. */
  function MonthBudgets(yearMonth: string, budgets: seq<Budget>): seq<Budget> {
    Filter(budgets, BudgetInMonth(YearMonthOf(yearMonth)))
  }

  /** The expenses of the requested month. */
  function MonthExpenses(yearMonth: string, expenses: seq<Expense>): seq<Expense> {
    Filter(expenses, InMonth(YearMonthOf(yearMonth)))
  }

  /** `groupId !== null`, as written: a budget with no `groupId` at all counts as a group budget. */
  predicate IsGroupAsWritten(b: Budget) {
    !b.groupId.Null?
  }

  /** A group budget is one that names a group. */
  predicate IsGroup(b: Budget) {
    b.groupId.Val?
  }

  function SelectBudgetsAsWritten(yearMonth: string, budgets: seq<Budget>, cats: seq<Subcategory>, expenses: seq<Expense>)
    : Option<seq<BudgetCardItem>>
  {
    SelectBudgetsWith(IsGroupAsWritten, yearMonth, budgets, cats, expenses)
  }

  function SelectBudgets(yearMonth: string, budgets: seq<Budget>, cats: seq<Subcategory>, expenses: seq<Expense>)
    : Option<seq<BudgetCardItem>>
  {
    SelectBudgetsWith(IsGroup, yearMonth, budgets, cats, expenses)
  }

  /** One card per budget of the requested month, in order, showing the
      budget's id, month and amount; a category budget shows what was spent
      on its category that month. */
  lemma SelectBudgetsCards(yearMonth: string, budgets: seq<Budget>, cats: seq<Subcategory>, expenses: seq<Expense>)
    ensures var r := SelectBudgets(yearMonth, budgets, cats, expenses);
      var ym := YearMonthOf(yearMonth);
      var matched := MonthBudgets(yearMonth, budgets);
      var month := MonthExpenses(yearMonth, expenses);
      (forall b :: b in matched <==> b in budgets && YearMonthOf(Or(b.yearMonth, "")) == ym)
      && (r.Some? ==>
            |r.value| == |matched|
            && forall k :: 0 <= k < |matched| ==>
                 r.value[k].id == matched[k].id && Some(r.value[k].yearMonth) == matched[k].yearMonth
                 && r.value[k].allocatedAmount == matched[k].amount
                 && r.value[k].budgetedName ==
                      (if matched[k].groupId.Val? then GroupName(cats, matched[k].groupId)
                       else CategoryName(cats, matched[k].categoryId))
                 && (!matched[k].groupId.Val? ==>
                       r.value[k].amount == PriceSum(Filter(month, InCategory(matched[k].categoryId))))
                 && (matched[k].groupId.Val? ==>
                       r.value[k].amount == PriceSum(Filter(month, InGroup(cats, matched[k].groupId)))))
  {
    var ym := YearMonthOf(yearMonth);
    var matched := MonthBudgets(yearMonth, budgets);
    var month := MonthExpenses(yearMonth, expenses);
    FilterMembers(budgets, BudgetInMonth(ym));
    var r := SelectBudgets(yearMonth, budgets, cats, expenses);
    if r.Some? {
      assert forall k :: 0 <= k < |budgets| ==> budgets[k].yearMonth.Some?;
      forall k | 0 <= k < |matched|
        ensures Some(r.value[k].yearMonth) == matched[k].yearMonth
        ensures !matched[k].groupId.Val? ==>
          r.value[k].amount == PriceSum(Filter(month, InCategory(matched[k].categoryId)))
        ensures matched[k].groupId.Val? ==>
          r.value[k].amount == PriceSum(Filter(month, InGroup(cats, matched[k].groupId)))
      {
        assert matched[k] in budgets;
        CategorySpendIsTotal(month, matched[k].categoryId);
        GroupSpendIsTotal(month, cats, matched[k].groupId);
      }
    }
  }

  /** The selector only throws for a budget without a month, or for a group
      budget whose month has an expense in a subcategory that is not listed. */
  lemma SelectBudgetsThrows(yearMonth: string, budgets: seq<Budget>, cats: seq<Subcategory>, expenses: seq<Expense>)
    ensures var matched := MonthBudgets(yearMonth, budgets);
      var month := MonthExpenses(yearMonth, expenses);
      SelectBudgets(yearMonth, budgets, cats, expenses).None? <==>
        (exists k :: 0 <= k < |budgets| && budgets[k].yearMonth.None?)
        || ((exists k :: 0 <= k < |matched| && matched[k].groupId.Val?)
            && exists k :: 0 <= k < |month| && !IsListed(cats, month[k].categoryId))
  {
    var matched := MonthBudgets(yearMonth, budgets);
    var month := MonthExpenses(yearMonth, expenses);
    if !exists k :: 0 <= k < |budgets| && budgets[k].yearMonth.None? {
      assert SelectBudgets(yearMonth, budgets, cats, expenses) == Cards(matched, IsGroup, cats, month);
      CardsThrow(matched, cats, month);
      assert SelectBudgets(yearMonth, budgets, cats, expenses).None? <==>
        (exists k :: 0 <= k < |matched| && matched[k].groupId.Val?)
        && exists j :: 0 <= j < |month| && !IsListed(cats, month[j].categoryId);
    } else {
      assert SelectBudgetsWith(IsGroup, yearMonth, budgets, cats, expenses).None?;
    }
  }

  lemma CardsThrow(bs: seq<Budget>, cats: seq<Subcategory>, exps: seq<Expense>)
    ensures Cards(bs, IsGroup, cats, exps).None? <==>
      (exists k :: 0 <= k < |bs| && bs[k].groupId.Val?)
      && exists j :: 0 <= j < |exps| && !IsListed(cats, exps[j].categoryId)
  {
    if Cards(bs, IsGroup, cats, exps).None? {
      var k :| 0 <= k < |bs| && Card(bs[k], IsGroup, cats, exps).None?;
      CardThrows(bs[k], cats, exps);
    }
    if (exists j :: 0 <= j < |exps| && !IsListed(cats, exps[j].categoryId)) && exists k :: 0 <= k < |bs| && bs[k].groupId.Val? {
      var k :| 0 <= k < |bs| && bs[k].groupId.Val?;
      CardThrows(bs[k], cats, exps);
    }
  }

  lemma CardThrows(b: Budget, cats: seq<Subcategory>, exps: seq<Expense>)
    ensures Card(b, IsGroup, cats, exps).None? <==>
      b.groupId.Val? && exists j :: 0 <= j < |exps| && !IsListed(cats, exps[j].categoryId)
  {
    assert Card(b, IsGroup, cats, exps).None? <==> Spent(b, IsGroup, cats, exps).None?;
    if b.groupId.Val? {
      assert Spent(b, IsGroup, cats, exps) == GroupSpend(exps, cats, b.groupId);
    } else {
      assert Spent(b, IsGroup, cats, exps).Some?;
    }
  }

  /** On budgets that all carry a `groupId` (as the server's do), the
      corrected group test and the one as written agree. */
  lemma {:induction false} CardsAgree(bs: seq<Budget>, cats: seq<Subcategory>, exps: seq<Expense>)
    requires forall k :: 0 <= k < |bs| ==> !bs[k].groupId.Undefined?
    ensures Cards(bs, IsGroupAsWritten, cats, exps) == Cards(bs, IsGroup, cats, exps)
    decreases |bs|
  {
    if bs != [] {
      CardsAgree(bs[1..], cats, exps);
    }
  }

  lemma SelectBudgetsAgreeOnServerBudgets(yearMonth: string, budgets: seq<Budget>, cats: seq<Subcategory>, expenses: seq<Expense>)
    requires forall k :: 0 <= k < |budgets| ==> !budgets[k].groupId.Undefined?
    ensures SelectBudgetsAsWritten(yearMonth, budgets, cats, expenses) == SelectBudgets(yearMonth, budgets, cats, expenses)
  {
    var ym := YearMonthOf(yearMonth);
    FilterMembers(budgets, BudgetInMonth(ym));
    var matched := Filter(budgets, BudgetInMonth(ym));
    forall k | 0 <= k < |matched| ensures !matched[k].groupId.Undefined? {
      assert matched[k] in budgets;
    }
    CardsAgree(matched, cats, MonthExpenses(yearMonth, expenses));
  }

  /** The month key `"2024-03"` splits into its year and its month. */
  lemma March2024()
    ensures YearMonthOf("2024-03") == (Some("2024"), Some("03"))
  {
    SplitJoin(["2024", "03"], '-');
    assert Join(["2024", "03"], '-') == "2024-03";
  }

  function ExampleCategories(): seq<Subcategory> {
    [Subcategory(Num(5), "Food", "ff0000", Num(2), Some("Home"), "ann", Str("h1"))]
  }

  function ExampleExpenses(): seq<Expense> {
    [Expense(Num(1), None, "2024-03", 12.5, 5, "", "", "h1", "ann", None)]
  }

  function ExampleBudget(): Budget {
    Budget("f_b-1", 100.0, Some("2024-03"), Some(5), Undefined, Some("2024-03"))
  }

  /** A budget just created on the device has no `groupId`. As written it is
      shown as a group budget: no name and nothing spent, although an
      expense of 12.5 in its category falls in the month. */
  lemma ExampleCards()
    ensures Card(ExampleBudget(), IsGroupAsWritten, ExampleCategories(), ExampleExpenses()) == Some(BudgetCardItem("f_b-1", "2024-03", "", 100.0, 0.0))
    ensures Card(ExampleBudget(), IsGroup, ExampleCategories(), ExampleExpenses()) == Some(BudgetCardItem("f_b-1", "2024-03", "Food", 100.0, 12.5))
  {
    var cats := ExampleCategories();
    var exps := ExampleExpenses();
    assert ListedAs(cats, 5) == Some(cats[0]);
    assert GroupSpend(exps, cats, Undefined) == Some(0.0);
    assert CategorySpend(exps, Some(5)) == 12.5;
  }

  lemma CardsOfOne(b: Budget, isGroup: Budget -> bool, cats: seq<Subcategory>, exps: seq<Expense>)
    requires Card(b, isGroup, cats, exps).Some?
    ensures Cards([b], isGroup, cats, exps) == Some([Card(b, isGroup, cats, exps).value])
  {
    var r := Cards([b], isGroup, cats, exps);
    assert r.Some? && |r.value| == 1;
    assert r.value == [r.value[0]];
  }

  lemma NewBudgetShownAsGroup()
    ensures SelectBudgetsAsWritten("2024-03", [ExampleBudget()], ExampleCategories(), ExampleExpenses())
              == Some([BudgetCardItem("f_b-1", "2024-03", "", 100.0, 0.0)])
    ensures SelectBudgets("2024-03", [ExampleBudget()], ExampleCategories(), ExampleExpenses())
              == Some([BudgetCardItem("f_b-1", "2024-03", "Food", 100.0, 12.5)])
  {
    var b := ExampleBudget();
    March2024();
    var ym := YearMonthOf("2024-03");
    assert Filter([b], BudgetInMonth(ym)) == [b];
    assert Filter(ExampleExpenses(), InMonth(ym)) == ExampleExpenses();
    ExampleCards();
    CardsOfOne(b, IsGroupAsWritten, ExampleCategories(), ExampleExpenses());
    CardsOfOne(b, IsGroup, ExampleCategories(), ExampleExpenses());
  }

  // ---------------------------------------------------------------------------
  // selectLatestExchangeRate

  /** The reduce keeping the first rate no later one is strictly newer than. */
  function Latest(rates: seq<ExchangeRate>): ExchangeRate
    requires |rates| > 0
    decreases |rates|
  {
    if |rates| == 1 then rates[0]
    else
      var latest := Latest(rates[..|rates| - 1]);
      var current := rates[|rates| - 1];
      if StrLt(latest.date, current.date) then current else latest
  }

  /** The reduce returns a rate with the greatest date, the first one on a tie. */
  lemma {:induction false} LatestIsFirstMaximal(rates: seq<ExchangeRate>)
    requires |rates| > 0
    ensures exists i :: (0 <= i < |rates| && rates[i] == Latest(rates)
                         && forall k :: 0 <= k < i ==> StrLt(rates[k].date, rates[i].date))
    ensures forall k :: 0 <= k < |rates| ==> StrLe(rates[k].date, Latest(rates).date)
    decreases |rates|
  {
    var l := Latest(rates);
    if |rates| == 1 {
      StrLeTotal(l.date, l.date);
      assert rates[0] == l;
    } else {
      var init := rates[..|rates| - 1];
      var prev := Latest(init);
      var current := rates[|rates| - 1];
      LatestIsFirstMaximal(init);
      var i :| 0 <= i < |init| && init[i] == prev && forall k :: 0 <= k < i ==> StrLt(init[k].date, init[i].date);
      if StrLt(prev.date, current.date) {
        StrLeTotal(prev.date, current.date);
        forall k | 0 <= k < |rates| ensures StrLe(rates[k].date, l.date) {
          if k < |rates| - 1 {
            assert rates[k] == init[k];
            StrLeTransitive(rates[k].date, prev.date, current.date);
          } else {
            StrLeTotal(current.date, current.date);
          }
        }
        forall k | 0 <= k < |rates| - 1 ensures StrLt(rates[k].date, current.date) {
          assert rates[k] == init[k];
          if StrLe(current.date, rates[k].date) {
            StrLeTransitive(current.date, rates[k].date, prev.date);
          }
        }
      } else {
        forall k | 0 <= k < |rates| ensures StrLe(rates[k].date, l.date) {
          if k < |rates| - 1 {
            assert rates[k] == init[k];
          }
        }
        assert rates[i] == init[i];
        forall k | 0 <= k < i ensures StrLt(rates[k].date, rates[i].date) {
          assert rates[k] == init[k];
        }
      }
    }
  }

  function SameCode(code: string): ExchangeRate -> bool {
    (r: ExchangeRate) => LowerAscii(r.code) == LowerAscii(code)
  }

  /** `selectLatestExchangeRate(code)`; `None` is `null`. */
  function SelectLatestExchangeRate(rates: seq<ExchangeRate>, code: string): Option<ExchangeRate> {
    var matching := Filter(rates, SameCode(code));
    if |matching| == 0 then None else Some(Latest(matching))
  }

  /** No rate exactly when no stored rate has the code (ignoring case);
      otherwise a stored rate of that code with the greatest date. */
  lemma LatestExchangeRate(rates: seq<ExchangeRate>, code: string)
    ensures var r := SelectLatestExchangeRate(rates, code);
      (r.None? <==> forall x :: x in rates ==> LowerAscii(x.code) != LowerAscii(code))
      && (r.Some? ==> r.value in rates && LowerAscii(r.value.code) == LowerAscii(code)
                      && forall x :: x in rates && LowerAscii(x.code) == LowerAscii(code) ==> StrLe(x.date, r.value.date))
  {
    var matching := Filter(rates, SameCode(code));
    FilterMembers(rates, SameCode(code));
    if |matching| > 0 {
      LatestIsFirstMaximal(matching);
      forall x | x in rates && LowerAscii(x.code) == LowerAscii(code) ensures StrLe(x.date, Latest(matching).date) {
        assert x in matching;
        var k :| 0 <= k < |matching| && matching[k] == x;
      }
    } else {
      forall x | x in rates ensures LowerAscii(x.code) != LowerAscii(code) {
      }
    }
  }

  // ---------------------------------------------------------------------------
  // filterCat

  /** The category filter of the record search: an empty filter passes every record. */
  predicate FilterCat(e: Expense, names: seq<string>) {
    |names| == 0 || e.category in names
  }

  /** Adding names to a filter never rejects a record it passed, unless the
      filter was empty; a record passes the filter of its own category. */
  lemma FilterCatWidens(e: Expense, names: seq<string>, more: seq<string>)
    requires names != [] && forall n :: n in names ==> n in more
    ensures FilterCat(e, names) ==> FilterCat(e, more)
    ensures FilterCat(e, [e.category])
  {
  }
}
