/** What each reducer of the main slice (redux/main/mainSlice.ts) makes of
    the part of the state it touches, as a function of its old value. The
    `MainState` class performs the same updates in place and is proved to
    agree with these functions; what the reconcilers promise is proved here. */
module MainReducers {
  import opened Js
  import opened Entities
  import opened CategoryTable

  /** date-fns `format(date, 'yyyy-MM-dd')`, taken as given. */
  type DateFormat = string -> string

  // ---------------------------------------------------------------------------
  // Array updates shared by the reducers

  /** `i = xs.findIndex(matches); if (i !== -1) xs[i] = f(xs[i])` */
  function UpdateFirst<T>(xs: seq<T>, matches: T -> bool, f: T -> T): (r: seq<T>)
    ensures |r| == |xs|
    ensures (forall k :: 0 <= k < |xs| ==> !matches(xs[k])) ==> r == xs
    ensures forall i :: 0 <= i < |xs| && matches(xs[i]) && (forall k :: 0 <= k < i ==> !matches(xs[k])) ==>
              r == xs[i := f(xs[i])]
    ensures forall k :: 0 <= k < |xs| && !matches(xs[k]) ==> r[k] == xs[k]
  {
    var i := FindIndex(xs, matches);
    if i == -1 then xs else xs[i := f(xs[i])]
  }

  /** `i = xs.findIndex(matches); if (i !== -1) xs.splice(i, 1)` */
  function RemoveFirst<T>(xs: seq<T>, matches: T -> bool): (r: seq<T>)
    ensures (forall k :: 0 <= k < |xs| ==> !matches(xs[k])) ==> r == xs
    ensures forall i :: 0 <= i < |xs| && matches(xs[i]) && (forall k :: 0 <= k < i ==> !matches(xs[k])) ==>
              r == xs[..i] + xs[i + 1..]
  {
    var i := FindIndex(xs, matches);
    if i == -1 then xs else xs[..i] + xs[i + 1..]
  }

  predicate AtMostOneMatch<T>(xs: seq<T>, matches: T -> bool) {
    forall i, j :: 0 <= i < j < |xs| && matches(xs[i]) ==> !matches(xs[j])
  }

  /** Updating the one matching entry twice with an idempotent update is updating it once. */
  lemma UpdateFirstIdempotent<T>(xs: seq<T>, matches: T -> bool, f: T -> T)
    requires AtMostOneMatch(xs, matches)
    requires forall k :: 0 <= k < |xs| && matches(xs[k]) ==> f(f(xs[k])) == f(xs[k])
    ensures UpdateFirst(UpdateFirst(xs, matches, f), matches, f) == UpdateFirst(xs, matches, f)
  {
    var i := FindIndex(xs, matches);
    if i != -1 {
      var r := xs[i := f(xs[i])];
      assert UpdateFirst(xs, matches, f) == r;
      if matches(r[i]) {
        assert UpdateFirst(r, matches, f) == r[i := f(r[i])];
      } else {
        assert forall k :: 0 <= k < |r| ==> !matches(r[k]);
      }
    }
  }

  // ---------------------------------------------------------------------------
  // Expenses (mainSlice.ts:59-77, 132-153)

  /** An expense as stored: its date re-formatted. */
  function StoredExpense(e: Expense, fmt: DateFormat): Expense {
    e.(date := fmt(e.date))
  }

  /** `addExpense`: the new expenses are appended in order, dates formatted. */
  function AddExpenses(xs: seq<Expense>, news: seq<Expense>, fmt: DateFormat): (r: seq<Expense>)
    ensures |r| == |xs| + |news| && r[..|xs|] == xs
    ensures forall k :: 0 <= k < |news| ==> r[|xs| + k] == StoredExpense(news[k], fmt)
  {
    xs + seq(|news|, k requires 0 <= k < |news| => StoredExpense(news[k], fmt))
  }

  /** `updateExpense`: the first expense with the same id (`===`) is replaced outright. */
  function UpdateExpenseIn(xs: seq<Expense>, e: Expense, fmt: DateFormat): (r: seq<Expense>)
    ensures |r| == |xs|
    ensures forall k :: 0 <= k < |xs| && xs[k].id != e.id ==> r[k] == xs[k]
    ensures forall j :: 0 <= j < |xs| && xs[j].id == e.id && (forall k :: 0 <= k < j ==> xs[k].id != e.id) ==>
              r[j] == StoredExpense(e, fmt)
  {
    UpdateFirst(xs, (x: Expense) => x.id == e.id, (_: Expense) => StoredExpense(e, fmt))
  }

  /** `removeExpense`: every expense whose id string is `id` goes, the rest stay in order. */
  function RemoveExpenses(xs: seq<Expense>, id: string): (r: seq<Expense>)
    ensures forall k :: 0 <= k < |r| ==> IdString(r[k].id) != id
    ensures forall x :: x in xs && IdString(x.id) != id ==> x in r
  {
    FilterMembers(xs, (x: Expense) => IdString(x.id) != id);
    Filter(xs, (x: Expense) => IdString(x.id) != id)
  }

  /** `replaceExpense`: the reply is merged over the first expense whose id string is `frontendId`. */
  function ReplaceExpenses(xs: seq<Expense>, frontendId: string, resp: ExpensePatch): (r: seq<Expense>)
    ensures |r| == |xs|
    ensures forall k :: 0 <= k < |xs| && IdString(xs[k].id) != frontendId ==> r[k] == xs[k]
    ensures forall i :: (0 <= i < |xs| && IdString(xs[i].id) == frontendId
                         && forall k :: 0 <= k < i ==> IdString(xs[k].id) != frontendId) ==>
              r[i] == MergeExpense(xs[i], resp)
  {
    UpdateFirst(xs, (x: Expense) => IdString(x.id) == frontendId, (x: Expense) => MergeExpense(x, resp))
  }

  /** Applying the same server reply twice leaves the same expenses as applying it once. */
  lemma ReplaceExpensesIdempotent(xs: seq<Expense>, frontendId: string, resp: ExpensePatch)
    requires AtMostOneMatch(xs, (x: Expense) => IdString(x.id) == frontendId)
    ensures ReplaceExpenses(ReplaceExpenses(xs, frontendId, resp), frontendId, resp)
            == ReplaceExpenses(xs, frontendId, resp)
  {
    UpdateFirstIdempotent(xs, (x: Expense) => IdString(x.id) == frontendId, (x: Expense) => MergeExpense(x, resp));
  }

  // ---------------------------------------------------------------------------
  // Incomes (mainSlice.ts:78-86, 115-124, 137-141, 154-162)

  function StoredIncome(i: Income, fmt: DateFormat): Income {
    i.(date := fmt(i.date))
  }

  /** `addIncome`: the new incomes are appended in order, dates formatted. */
  function AddIncomes(xs: seq<Income>, news: seq<Income>, fmt: DateFormat): (r: seq<Income>)
    ensures |r| == |xs| + |news| && r[..|xs|] == xs
    ensures forall k :: 0 <= k < |news| ==> r[|xs| + k] == StoredIncome(news[k], fmt)
  {
    xs + seq(|news|, k requires 0 <= k < |news| => StoredIncome(news[k], fmt))
  }

  /** `updateIncome`: the first income with the same id (`===`) is replaced outright. */
  function UpdateIncomeIn(xs: seq<Income>, i: Income, fmt: DateFormat): (r: seq<Income>)
    ensures |r| == |xs|
    ensures forall k :: 0 <= k < |xs| && xs[k].id != i.id ==> r[k] == xs[k]
    ensures forall j :: 0 <= j < |xs| && xs[j].id == i.id && (forall k :: 0 <= k < j ==> xs[k].id != i.id) ==>
              r[j] == StoredIncome(i, fmt)
  {
    UpdateFirst(xs, (x: Income) => x.id == i.id, (_: Income) => StoredIncome(i, fmt))
  }

  /** `removeIncome`: every income whose id string is `id` goes, the rest stay in order. */
  function RemoveIncomes(xs: seq<Income>, id: string): (r: seq<Income>)
    ensures forall k :: 0 <= k < |r| ==> IdString(r[k].id) != id
    ensures forall x :: x in xs && IdString(x.id) != id ==> x in r
  {
    FilterMembers(xs, (x: Income) => IdString(x.id) != id);
    Filter(xs, (x: Income) => IdString(x.id) != id)
  }

  /** `replaceIncome`: the reply is merged over the first income whose id string is `frontendId`. */
  function ReplaceIncomes(xs: seq<Income>, frontendId: string, resp: IncomePatch): (r: seq<Income>)
    ensures |r| == |xs|
    ensures forall k :: 0 <= k < |xs| && IdString(xs[k].id) != frontendId ==> r[k] == xs[k]
    ensures forall i :: (0 <= i < |xs| && IdString(xs[i].id) == frontendId
                         && forall k :: 0 <= k < i ==> IdString(xs[k].id) != frontendId) ==>
              r[i] == MergeIncome(xs[i], resp)
  {
    UpdateFirst(xs, (x: Income) => IdString(x.id) == frontendId, (x: Income) => MergeIncome(x, resp))
  }

  /** Applying the same server reply twice leaves the same incomes as applying it once. */
  lemma ReplaceIncomesIdempotent(xs: seq<Income>, frontendId: string, resp: IncomePatch)
    requires AtMostOneMatch(xs, (x: Income) => IdString(x.id) == frontendId)
    ensures ReplaceIncomes(ReplaceIncomes(xs, frontendId, resp), frontendId, resp)
            == ReplaceIncomes(xs, frontendId, resp)
  {
    UpdateFirstIdempotent(xs, (x: Income) => IdString(x.id) == frontendId, (x: Income) => MergeIncome(x, resp));
  }

  // ---------------------------------------------------------------------------
  // Budgets (mainSlice.ts:87-114, 163-194)

  /** `addBudgets`: a budget with a date gets `yearMonth = format(date)`. */
  function AddBudgets(bs: seq<Budget>, news: seq<Budget>, fmt: DateFormat): (r: seq<Budget>)
    ensures |r| == |bs| + |news| && r[..|bs|] == bs
    ensures forall k :: 0 <= k < |news| ==>
              r[|bs| + k].id == news[k].id && r[|bs| + k].amount == news[k].amount
              && r[|bs| + k].yearMonth == if Truthy(news[k].date) then Some(fmt(news[k].date.value)) else news[k].yearMonth
  {
    bs + seq(|news|, k requires 0 <= k < |news| =>
      news[k].(yearMonth := if Truthy(news[k].date) then Some(fmt(news[k].date.value)) else news[k].yearMonth))
  }

  /** `updateBudget({id, ...data})`: `data` is merged into the first budget with that id. */
  function UpdateBudgetIn(bs: seq<Budget>, payload: BudgetPatch): (r: seq<Budget>)
    ensures |r| == |bs|
    ensures payload.id.None? ==> r == bs
  {
    UpdateFirst(bs, (b: Budget) => Some(b.id) == payload.id, (b: Budget) => MergeBudget(b, payload.(id := None)))
  }

  /** Only the first budget with the payload's id changes, and it takes the payload's fields. */
  lemma UpdateBudgetInEffect(bs: seq<Budget>, payload: BudgetPatch)
    ensures var r := UpdateBudgetIn(bs, payload);
      (forall k :: 0 <= k < |bs| && Some(bs[k].id) != payload.id ==> r[k] == bs[k])
      && forall i :: (0 <= i < |bs| && Some(bs[i].id) == payload.id
                      && forall k :: 0 <= k < i ==> Some(bs[k].id) != payload.id) ==>
           r[i] == MergeBudget(bs[i], payload.(id := None))
  {
  }

  /** `deleteBudget({id})`: the first budget with that id is spliced out. */
  function DeleteBudgetIn(bs: seq<Budget>, id: Option<string>): (r: seq<Budget>)
    ensures (forall k :: 0 <= k < |bs| ==> Some(bs[k].id) != id) ==> r == bs
    ensures forall i :: 0 <= i < |bs| && Some(bs[i].id) == id && (forall k :: 0 <= k < i ==> Some(bs[k].id) != id) ==>
              |r| == |bs| - 1 && r == bs[..i] + bs[i + 1..]
  {
    RemoveFirst(bs, (b: Budget) => Some(b.id) == id)
  }

  /** The month a server budget is filed under: `date.substring(0, 7)` when it has a date. */
  function ServerMonth(date: Option<string>, yearMonth: Option<string>): Option<string> {
    if Truthy(date) then Some(Prefix(date.value, 7)) else yearMonth
  }

  predicate HasPrefix(b: Budget, frontendId: string) {
    StartsWith(b.id, frontendId)
  }

  /** `replaceBudget` with a list reply: the budgets whose id starts with
      `frontendId` are dropped and the reply's budgets appended. */
  function ReplaceBudgetList(bs: seq<Budget>, frontendId: string, items: seq<Budget>): (r: seq<Budget>)
    ensures |r| == |bs| - Count(bs, (b: Budget) => HasPrefix(b, frontendId)) + |items|
    ensures forall k :: 0 <= k < |r| - |items| ==> !HasPrefix(r[k], frontendId)
    ensures forall b :: b in bs && !HasPrefix(b, frontendId) ==> b in r
    ensures forall k :: 0 <= k < |items| ==>
              r[|r| - |items| + k] == items[k].(yearMonth := ServerMonth(items[k].date, items[k].yearMonth))
  {
    var kept := Filter(bs, (b: Budget) => !HasPrefix(b, frontendId));
    FilterLength(bs, (b: Budget) => !HasPrefix(b, frontendId), (b: Budget) => HasPrefix(b, frontendId));
    FilterMembers(bs, (b: Budget) => !HasPrefix(b, frontendId));
    kept + seq(|items|, k requires 0 <= k < |items| =>
      items[k].(yearMonth := ServerMonth(items[k].date, items[k].yearMonth)))
  }

  /** `replaceBudget` with a single reply (None: the reply is `undefined`):
      merged into the budget whose id is `frontendId`, its `yearMonth` always
      overwritten. Reading `resp.date` of a missing reply throws, which is
      `None` here; with no matching budget nothing is read and nothing changes. */
  function ReplaceBudgetObject(bs: seq<Budget>, frontendId: string, resp: Option<BudgetPatch>): (r: Option<seq<Budget>>)
    ensures (forall k :: 0 <= k < |bs| ==> bs[k].id != frontendId) ==> r == Some(bs)
    ensures r.None? <==> resp.None? && exists k :: 0 <= k < |bs| && bs[k].id == frontendId
    ensures r.Some? ==> |r.value| == |bs|
  {
    var i := FindIndex(bs, (b: Budget) => b.id == frontendId);
    if i == -1 then Some(bs)
    else if resp.None? then None
    else
      var p := resp.value;
      Some(bs[i := MergeBudget(bs[i], p).(yearMonth := ServerMonth(p.date, p.yearMonth))])
  }

  /** Only the first budget whose id is `frontendId` changes: the reply is merged into it. */
  lemma ReplaceBudgetObjectEffect(bs: seq<Budget>, frontendId: string, resp: Option<BudgetPatch>)
    ensures var r := ReplaceBudgetObject(bs, frontendId, resp);
      (r.Some? ==> forall k :: 0 <= k < |bs| && bs[k].id != frontendId ==> r.value[k] == bs[k])
      && forall i :: (0 <= i < |bs| && bs[i].id == frontendId && resp.Some?
                      && forall k :: 0 <= k < i ==> bs[k].id != frontendId) ==>
           r == Some(bs[i := MergeBudget(bs[i], resp.value).(yearMonth := ServerMonth(resp.value.date, resp.value.yearMonth))])
  {
  }

  // ---------------------------------------------------------------------------
  // Category groups and subcategories (mainSlice.ts:195-328)

  /** `categories[groupId].subcategories.push(sub)` when the group exists. */
  function AddSubcategoryTo(t: Table, s: Subcategory): (r: Table)
    ensures Get(t, IdString(s.groupId)).None? ==> r == t
  {
    var key := IdString(s.groupId);
    match Get(t, key)
    case None => t
    case Some(g) => Put(t, key, g.(subcategories := g.subcategories + [s]))
  }

  /** After `addSubcategoryAction` the group holds the new subcategory last and no other group changes. */
  lemma AddSubcategoryEffect(t: Table, s: Subcategory, other: string)
    requires KeysUnique(t)
    ensures var r := AddSubcategoryTo(t, s); var key := IdString(s.groupId);
      KeysUnique(r) && Keys(r) == Keys(t)
      && (Get(t, key).Some? ==> Get(r, key) == Some(Get(t, key).value.(subcategories := Get(t, key).value.subcategories + [s])))
      && (other != key ==> Get(r, other) == Get(t, other))
  {
    var key := IdString(s.groupId);
    if Get(t, key).Some? {
      var g := Get(t, key).value;
      GetPut(t, key, g.(subcategories := g.subcategories + [s]), other);
    }
  }

  /** The server moved the subcategory: a truthy previous group other than the new one. */
  predicate MovedByServer(sub: Subcategory, previousGroupId: Option<Id>) {
    previousGroupId.Some? && IdTruthy(previousGroupId.value) && previousGroupId.value != sub.groupId
  }

  function IsNotFrontend(frontendId: string): Subcategory -> bool {
    (x: Subcategory) => x.id != Str(frontendId)
  }

  function IsFrontend(frontendId: string): Subcategory -> bool {
    (x: Subcategory) => x.id == Str(frontendId)
  }

  /** `replaceSubcategoryAction({frontendId, resp: {previousGroupId, ...sub}})`. */
  function ReplaceSubcategoryIn(t: Table, frontendId: string, sub: Subcategory, previousGroupId: Option<Id>): (r: Table)
  {
    if MovedByServer(sub, previousGroupId) then MoveSubcategory(t, frontendId, sub, IdString(previousGroupId.value))
    else ReplaceInPlace(t, frontendId, sub)
  }

  /** The temporary record leaves the previous group; the server's record is appended to the new one. */
  function MoveSubcategory(t: Table, frontendId: string, sub: Subcategory, prevKey: string): Table {
    JoinGroup(LeaveGroup(t, frontendId, prevKey), IdString(sub.groupId), sub)
  }

  function LeaveGroup(t: Table, frontendId: string, key: string): Table {
    match Get(t, key)
    case None => t
    case Some(g) => Put(t, key, g.(subcategories := Filter(g.subcategories, IsNotFrontend(frontendId))))
  }

  function JoinGroup(t: Table, key: string, sub: Subcategory): Table {
    match Get(t, key)
    case None => t
    case Some(g) => Put(t, key, g.(subcategories := g.subcategories + [sub]))
  }

  /** The server's record takes the temporary record's place in its group. */
  function ReplaceInPlace(t: Table, frontendId: string, sub: Subcategory): Table {
    var newKey := IdString(sub.groupId);
    match Get(t, newKey)
    case None => t
    case Some(g) =>
      var i := FindIndex(g.subcategories, IsFrontend(frontendId));
      if i == -1 then t else Put(t, newKey, g.(subcategories := g.subcategories[i := sub]))
  }

  lemma MoveSubcategoryEffect(t: Table, frontendId: string, sub: Subcategory, prevKey: string, other: string)
    requires KeysUnique(t)
    ensures var r := MoveSubcategory(t, frontendId, sub, prevKey);
      var newKey := IdString(sub.groupId);
      KeysUnique(r) && Keys(r) == Keys(t)
      && (prevKey != newKey && Get(t, prevKey).Some? ==>
            forall x :: x in Get(r, prevKey).value.subcategories ==> x.id != Str(frontendId))
      && (Get(t, newKey).Some? ==>
            Get(r, newKey).value.subcategories[|Get(r, newKey).value.subcategories| - 1] == sub)
      && (other != prevKey && other != newKey ==> Get(r, other) == Get(t, other))
  {
    var newKey := IdString(sub.groupId);
    LeaveGroupEffect(t, frontendId, prevKey, newKey);
    LeaveGroupEffect(t, frontendId, prevKey, other);
    JoinGroupEffect(LeaveGroup(t, frontendId, prevKey), newKey, sub, prevKey);
    JoinGroupEffect(LeaveGroup(t, frontendId, prevKey), newKey, sub, other);
  }

  lemma LeaveGroupEffect(t: Table, frontendId: string, key: string, other: string)
    requires KeysUnique(t)
    ensures var r := LeaveGroup(t, frontendId, key);
      KeysUnique(r) && Keys(r) == Keys(t)
      && (Get(t, key).Some? ==> Get(r, key).Some? && forall x :: x in Get(r, key).value.subcategories ==> x.id != Str(frontendId))
      && (other != key ==> Get(r, other) == Get(t, other))
  {
    if Get(t, key).Some? {
      var g := Get(t, key).value;
      GetPut(t, key, g.(subcategories := Filter(g.subcategories, IsNotFrontend(frontendId))), other);
      FilterMembers(g.subcategories, IsNotFrontend(frontendId));
    }
  }

  lemma JoinGroupEffect(t: Table, key: string, sub: Subcategory, other: string)
    requires KeysUnique(t)
    ensures var r := JoinGroup(t, key, sub);
      KeysUnique(r) && Keys(r) == Keys(t)
      && (Get(t, key).Some? ==> Get(r, key).Some? && Get(r, key).value.subcategories == Get(t, key).value.subcategories + [sub])
      && (other != key ==> Get(r, other) == Get(t, other))
  {
    if Get(t, key).Some? {
      var g := Get(t, key).value;
      GetPut(t, key, g.(subcategories := g.subcategories + [sub]), other);
    }
  }

  /** Without a move, the server's record is written at the index of the
      first record carrying the temporary id; with no such record, or no such
      group, nothing changes. No other group changes. */
  lemma ReplaceInPlaceEffect(t: Table, frontendId: string, sub: Subcategory, other: string)
    requires KeysUnique(t)
    ensures var r := ReplaceInPlace(t, frontendId, sub);
      var newKey := IdString(sub.groupId);
      KeysUnique(r) && Keys(r) == Keys(t)
      && (Get(t, newKey).None? ==> r == t)
      && (Get(t, newKey).Some? ==>
            var g := Get(t, newKey).value;
            var i := FindIndex(g.subcategories, IsFrontend(frontendId));
            (i == -1 ==> r == t)
            && (i != -1 ==> Get(r, newKey) == Some(g.(subcategories := g.subcategories[i := sub]))))
      && (other != newKey ==> Get(r, other) == Get(t, other))
  {
    var newKey := IdString(sub.groupId);
    if Get(t, newKey).Some? {
      var g := Get(t, newKey).value;
      var i := FindIndex(g.subcategories, IsFrontend(frontendId));
      if i != -1 {
        GetPut(t, newKey, g.(subcategories := g.subcategories[i := sub]), other);
      }
    }
  }

  /** A subcategory moved by the server leaves its previous group and is
      appended to its new group when that group exists; otherwise it is
      written where the temporary record stands in its group. No group other
      than those two changes. */
  lemma ReplaceSubcategoryEffect(t: Table, frontendId: string, sub: Subcategory, previousGroupId: Option<Id>, other: string)
    requires KeysUnique(t)
    ensures var r := ReplaceSubcategoryIn(t, frontendId, sub, previousGroupId);
      var newKey := IdString(sub.groupId);
      KeysUnique(r) && Keys(r) == Keys(t)
      && (MovedByServer(sub, previousGroupId) ==>
            (IdString(previousGroupId.value) != newKey && Get(t, IdString(previousGroupId.value)).Some? ==>
               forall x :: x in Get(r, IdString(previousGroupId.value)).value.subcategories ==> x.id != Str(frontendId))
            && (Get(t, newKey).Some? ==>
               Get(r, newKey).value.subcategories[|Get(r, newKey).value.subcategories| - 1] == sub)
            && (other != IdString(previousGroupId.value) && other != newKey ==> Get(r, other) == Get(t, other)))
      && (!MovedByServer(sub, previousGroupId) ==>
            (Get(t, newKey).None? ==> r == t)
            && (Get(t, newKey).Some? ==>
                  var g := Get(t, newKey).value;
                  var i := FindIndex(g.subcategories, IsFrontend(frontendId));
                  (i == -1 ==> r == t)
                  && (i != -1 ==> Get(r, newKey) == Some(g.(subcategories := g.subcategories[i := sub]))))
            && (other != newKey ==> Get(r, other) == Get(t, other)))
  {
    if MovedByServer(sub, previousGroupId) {
      MoveSubcategoryEffect(t, frontendId, sub, IdString(previousGroupId.value), other);
    } else {
      ReplaceInPlaceEffect(t, frontendId, sub, other);
    }
  }

  /** `addGroupCategoryAction`: the group is (re)written with no subcategories. */
  function AddGroup(t: Table, id: Id, name: string, color: string): (r: Table)
    ensures IdString(id) !in Keys(t) ==> r == t + [Entry(IdString(id), Category([], name, color))]
  {
    Put(t, IdString(id), Category([], name, color))
  }

  /** `updateGroupCategoryAction`: name and colour change, the subcategories stay. */
  function UpdateGroup(t: Table, id: Id, name: string, color: string): (r: Table)
    ensures Get(t, IdString(id)).None? ==> r == t
  {
    match Get(t, IdString(id))
    case None => t
    case Some(g) => Put(t, IdString(id), g.(name := name, color := color))
  }

  /** `deleteGroupCategoryAction` */
  function DeleteGroup(t: Table, id: Id): (r: Table)
    ensures |r| <= |t|
  {
    Delete(t, IdString(id))
  }

  /** Deleting a group removes exactly its key; every other group stays as it was. */
  lemma DeleteGroupEffect(t: Table, id: Id, other: string)
    requires KeysUnique(t)
    ensures var r := DeleteGroup(t, id);
      KeysUnique(r) && Keys(r) == Keys(t) - {IdString(id)}
      && Get(r, IdString(id)).None?
      && (other != IdString(id) ==> Get(r, other) == Get(t, other))
  {
    GetDelete(t, IdString(id), other);
  }

  lemma UpdateGroupEffect(t: Table, id: Id, name: string, color: string, other: string)
    requires KeysUnique(t)
    ensures var r := UpdateGroup(t, id, name, color);
      KeysUnique(r) && Keys(r) == Keys(t)
      && (Get(t, IdString(id)).Some? ==>
            Get(r, IdString(id)) == Some(Category(Get(t, IdString(id)).value.subcategories, name, color)))
      && (other != IdString(id) ==> Get(r, other) == Get(t, other))
  {
    if Get(t, IdString(id)).Some? {
      GetPut(t, IdString(id), Get(t, IdString(id)).value.(name := name, color := color), other);
    }
  }

  /** `replaceGroupCategoryAction` as written: the old key is deleted when
      `frontendId !== resp.id`, a strict comparison of a string with the
      reply's (numeric) id. */
  function ReplaceGroupAsWritten(t: Table, frontendId: string, id: Id, name: string, color: string): (r: Table)
    ensures Get(t, frontendId).None? ==> r == t
  {
    match Get(t, frontendId)
    case None => t
    case Some(g) =>
      var t1 := Put(t, IdString(id), Category(g.subcategories, name, color));
      if Str(frontendId) != id then Delete(t1, frontendId) else t1
  }

  /** With a group keyed "7" and a reply for group 7, the group written under
      key "7" is deleted again: the group and its subcategories are lost. */
  lemma ReplaceGroupLosesGroup()
    ensures var g := Category([], "Dom", "ff0000");
      var t := [Entry("7", g)];
      ReplaceGroupAsWritten(t, "7", Num(7), "Dom", "00ff00") == []
  {
    var g := Category([], "Dom", "ff0000");
    var t := [Entry("7", g)];
    assert IntToString(7) == "7" by {
      assert NatToString(7) == [DigitChar(7)];
    }
    UniqueIndex(t, "7", 0);
    var t1 := Put(t, "7", Category([], "Dom", "00ff00"));
    assert t1 == [Entry("7", Category([], "Dom", "00ff00"))];
    assert Delete(t1, "7") == Filter(t1, (e: Entry) => e.key != "7");
  }

  /** `replaceGroupCategoryAction` comparing the keys the table uses. */
  function ReplaceGroup(t: Table, frontendId: string, id: Id, name: string, color: string): (r: Table)
    ensures Get(t, frontendId).None? ==> r == t
  {
    match Get(t, frontendId)
    case None => t
    case Some(g) =>
      var t1 := Put(t, IdString(id), Category(g.subcategories, name, color));
      if frontendId != IdString(id) then Delete(t1, frontendId) else t1
  }

  /** The server's group takes the temporary group's subcategories under the
      server's key, the temporary key is gone, and no other group changes. */
  lemma ReplaceGroupEffect(t: Table, frontendId: string, id: Id, name: string, color: string, other: string)
    requires KeysUnique(t)
    ensures var r := ReplaceGroup(t, frontendId, id, name, color);
      KeysUnique(r)
      && (Get(t, frontendId).Some? ==>
            Get(r, IdString(id)) == Some(Category(Get(t, frontendId).value.subcategories, name, color))
            && (frontendId != IdString(id) ==> Get(r, frontendId).None?))
      && (other != frontendId && other != IdString(id) ==> Get(r, other) == Get(t, other))
  {
    if Get(t, frontendId).Some? {
      var g := Get(t, frontendId).value;
      var c := Category(g.subcategories, name, color);
      var t1 := Put(t, IdString(id), c);
      GetPut(t, IdString(id), c, other);
      if frontendId != IdString(id) {
        GetDelete(t1, frontendId, IdString(id));
        GetDelete(t1, frontendId, other);
      }
    }
  }

  // ---------------------------------------------------------------------------
  // Exchange rates (mainSlice.ts:334-368): upsert on (code, date)

  predicate UniqueBy<T>(xs: seq<T>, key: T -> (string, string)) {
    forall i, j :: 0 <= i < j < |xs| ==> key(xs[i]) != key(xs[j])
  }

  /** Replace the entry with the same key, or append. */
  function Upsert<T>(xs: seq<T>, x: T, key: T -> (string, string)): (r: seq<T>)
    ensures |xs| <= |r| <= |xs| + 1
    ensures x in r
    ensures forall y :: y in xs && key(y) != key(x) ==> y in r
    ensures forall y :: y in r ==> y == x || y in xs
  {
    var i := FindIndex(xs, (y: T) => key(y) == key(x));
    if i >= 0 then
      assert forall y :: y in xs[i := x] ==> y == x || y in xs by {
        forall y | y in xs[i := x] ensures y == x || y in xs {
          var k :| 0 <= k < |xs| && xs[i := x][k] == y;
          if k != i { assert xs[k] == y; }
        }
      }
      assert forall y :: y in xs && key(y) != key(x) ==> y in xs[i := x] by {
        forall y | y in xs && key(y) != key(x) ensures y in xs[i := x] {
          var k :| 0 <= k < |xs| && xs[k] == y;
          assert xs[i := x][k] == y;
        }
      }
      assert xs[i := x][i] == x;
      xs[i := x]
    else xs + [x]
  }

  /** An upsert never creates a second entry for the same (code, date) pair. */
  lemma UpsertKeepsKeysUnique<T>(xs: seq<T>, x: T, key: T -> (string, string))
    requires UniqueBy(xs, key)
    ensures UniqueBy(Upsert(xs, x, key), key)
  {
    var i := FindIndex(xs, (y: T) => key(y) == key(x));
    var r := Upsert(xs, x, key);
    if i >= 0 {
      assert r == xs[i := x];
      forall a, b | 0 <= a < b < |r| ensures key(r[a]) != key(r[b]) {
        if a == i {
          assert key(r[a]) == key(xs[i]);
        } else if b == i {
          assert key(r[b]) == key(xs[i]);
        }
      }
    } else {
      assert r == xs + [x];
    }
  }

  function RateKey(r: ExchangeRate): (string, string) {
    (r.code, r.date)
  }

  function BidAskKey(r: BidAskRate): (string, string) {
    (r.code, r.date)
  }

  // ---------------------------------------------------------------------------
  // Income sources per owner (`initState`, `fetchIni/fulfilled`)

  datatype OwnerSources = OwnerSources(owner: string, sources: seq<string>)

  /** One step of the `reduce`: create the owner's list if needed, append the source if new. */
  function AddSource(acc: seq<OwnerSources>, owner: string, source: string): (r: seq<OwnerSources>)
  {
    var i := FindIndex(acc, (o: OwnerSources) => o.owner == owner);
    if i == -1 then acc + [OwnerSources(owner, [source])]
    else if source in acc[i].sources then acc
    else acc[i := acc[i].(sources := acc[i].sources + [source])]
  }

  /** `income.reduce(...)` over the incomes in order. */
  function SourcesByOwner(incomes: seq<Income>): seq<OwnerSources>
  {
    if incomes == [] then []
    else
      var last := incomes[|incomes| - 1];
      AddSource(SourcesByOwner(incomes[..|incomes| - 1]), last.owner, last.source)
  }

  predicate WellFormedSources(acc: seq<OwnerSources>) {
    (forall i, j :: 0 <= i < j < |acc| ==> acc[i].owner != acc[j].owner)
    && (forall i :: 0 <= i < |acc| ==>
          forall a, b :: 0 <= a < b < |acc[i].sources| ==> acc[i].sources[a] != acc[i].sources[b])
  }

  /** Some income of `owner` has `source`. */
  predicate Occurs(incomes: seq<Income>, owner: string, source: string) {
    exists k :: 0 <= k < |incomes| && incomes[k].owner == owner && incomes[k].source == source
  }

  /** Every owner appears once, every list is free of duplicates, and a source
      is listed under an owner exactly when some income of that owner has it. */
  lemma {:induction false} SourcesByOwnerCorrect(incomes: seq<Income>)
    ensures WellFormedSources(SourcesByOwner(incomes))
    ensures forall owner, source :: Listed(SourcesByOwner(incomes), owner, source) <==> Occurs(incomes, owner, source)
  {
    if incomes != [] {
      var front := incomes[..|incomes| - 1];
      var last := incomes[|incomes| - 1];
      SourcesByOwnerCorrect(front);
      var acc := SourcesByOwner(front);
      AddSourceCorrect(acc, last.owner, last.source);
      forall owner, source
        ensures Occurs(incomes, owner, source) <==> Occurs(front, owner, source) || (owner == last.owner && source == last.source)
      {
        if Occurs(incomes, owner, source) {
          var k :| 0 <= k < |incomes| && incomes[k].owner == owner && incomes[k].source == source;
          if k < |front| {
            assert front[k] == incomes[k];
          }
        }
        if Occurs(front, owner, source) {
          var k :| 0 <= k < |front| && front[k].owner == owner && front[k].source == source;
          assert incomes[k] == front[k];
        }
      }
    }
  }

  predicate Listed(acc: seq<OwnerSources>, owner: string, source: string) {
    exists i :: 0 <= i < |acc| && acc[i].owner == owner && source in acc[i].sources
  }

  lemma AddSourceCorrect(acc: seq<OwnerSources>, owner: string, source: string)
    requires WellFormedSources(acc)
    ensures WellFormedSources(AddSource(acc, owner, source))
    ensures forall o, s :: Listed(AddSource(acc, owner, source), o, s) <==> Listed(acc, o, s) || (o == owner && s == source)
  {
    var r := AddSource(acc, owner, source);
    var i := FindIndex(acc, (o: OwnerSources) => o.owner == owner);
    if i == -1 {
      assert r == acc + [OwnerSources(owner, [source])];
      forall o, s ensures Listed(r, o, s) <==> Listed(acc, o, s) || (o == owner && s == source) {
        if Listed(acc, o, s) {
          var j :| 0 <= j < |acc| && acc[j].owner == o && s in acc[j].sources;
          assert r[j] == acc[j];
        }
        if o == owner && s == source {
          assert r[|acc|].owner == o && s in r[|acc|].sources;
        }
      }
    } else if source in acc[i].sources {
    } else {
      forall o, s ensures Listed(r, o, s) <==> Listed(acc, o, s) || (o == owner && s == source) {
        if Listed(r, o, s) {
          var j :| 0 <= j < |r| && r[j].owner == o && s in r[j].sources;
          if j != i {
            assert r[j] == acc[j];
          } else if s != source {
            assert s in acc[i].sources;
          }
        }
        if Listed(acc, o, s) {
          var j :| 0 <= j < |acc| && acc[j].owner == o && s in acc[j].sources;
          if j == i {
            assert s in r[i].sources;
          } else {
            assert r[j] == acc[j];
          }
        }
        if o == owner && s == source {
          assert source in r[i].sources;
        }
      }
    }
  }
}
