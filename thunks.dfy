/** The mutation facade (redux/main/thunks.ts). Every verb first writes the
    change to the main slice, then appends one operation for the server to
    the queue; the executor and the forced drain replay that queue.
    Identifiers the application draws at random (`makeNewIdArr`,
    `makeRandomId`), the queue's operation ids and the clock are parameters. */
module Thunks {
  import opened Js
  import opened Entities
  import opened Sorting
  import opened CategoryTable
  import opened MainReducers
  import opened SubcategoryScan
  import opened MainSlice
  import opened Sync
  import opened Dispatcher
  import opened Reconcile
  import opened Selectors

  /** An operation for the `genericSync` handler. */
  function Req(path: seq<string>, verb: HttpMethod, data: OpData, cb: Option<string>, frontendId: Option<string>): OpRequest {
    OpRequest(path, verb, "genericSync", data, cb, frontendId)
  }

  /** `auth.id || 0` */
  function AuthOwnerId(auth: Auth): Id {
    if auth.userId != "" then Str(auth.userId) else Num(0)
  }

  /** `color.split('#')[1] || 'ffffff'`: the hex digits after the `#`. */
  function HexPart(color: string): string {
    var part := Nth(Split(color, '#'), 1);
    if Truthy(part) then part.value else "ffffff"
  }

  /** The picker's `#rrggbb` becomes `rrggbb`. */
  lemma HexPartStripsHash(hex: string)
    requires hex != "" && '#' !in hex
    ensures HexPart("#" + hex) == hex
  {
    SplitJoin(["", hex], '#');
    assert Join(["", hex], '#') == "#" + hex;
  }

  /** A colour with no `#` at all is replaced by white. */
  lemma HexPartWithoutHash(color: string)
    requires '#' !in color
    ensures HexPart(color) == "ffffff"
  {
    SplitJoin([color], '#');
  }

  /** All the fields of an income, as a request body. */
  function IncomeFields(i: Income): IncomePatch {
    IncomePatch(Some(i.id), Some(i.date), Some(i.price), Some(i.source), Some(i.ownerId), Some(i.vat),
                Some(i.houseId), Some(i.description), Some(i.owner))
  }

  // ---------------------------------------------------------------------------
  // Expenses and incomes

  /** The expense `addNewExpense` stores: stamped with the user and the temporary id. */
  function LocalExpense(e: Expense, auth: Auth, frontendId: string): Expense {
    e.(ownerId := Some(AuthOwnerId(auth)), houseId := auth.house, owner := auth.name, id := Str(frontendId))
  }

  function LocalIncome(i: Income, auth: Auth, frontendId: string): Income {
    i.(ownerId := AuthOwnerId(auth), houseId := auth.house, owner := auth.name, id := Str(frontendId))
  }

  /** The record `updateIncome` stores: the owner fields blanked. */
  function BlankedIncome(i: Income): Income {
    i.(ownerId := Str(""), houseId := "", owner := "")
  }

  // ---------------------------------------------------------------------------
  // Budgets

  /** An element of `createUpdateBudget`'s argument. */
  datatype BudgetInput = BudgetInput(id: Option<string>, amount: real, date: string, categoryId: Option<int>, groupId: Option<int>)

  /** An input with the id it is saved under: `id ?? 'f_b-…'`, and new when
      `!id` (so an empty id is kept but counts as new). */
  datatype Tagged = Tagged(input: BudgetInput, id: string, isNew: bool)

  function Tag(b: BudgetInput, token: string): (t: Tagged)
    ensures t.isNew <==> !Truthy(b.id)
    ensures b.id.None? ==> t.id == BudgetTempPrefix + token && StartsWith(t.id, BudgetTempPrefix)
    ensures b.id.Some? ==> t.id == b.id.value
  {
    Tagged(b, if b.id.Some? then b.id.value else BudgetTempPrefix + token, !Truthy(b.id))
  }

  function TagAll(inputs: seq<BudgetInput>, tokens: seq<string>): (ts: seq<Tagged>)
    requires |tokens| == |inputs|
    ensures |ts| == |inputs| && forall k :: 0 <= k < |inputs| ==> ts[k] == Tag(inputs[k], tokens[k])
  {
    seq(|inputs|, k requires 0 <= k < |inputs| => Tag(inputs[k], tokens[k]))
  }

  predicate IsNewTag(t: Tagged) {
    t.isNew
  }

  predicate IsExistingTag(t: Tagged) {
    !t.isNew
  }

  /** `_.pick(budget, ['amount', 'categoryId', 'date', 'id'])` */
  function NewBudget(t: Tagged): Budget {
    Budget(t.id, t.input.amount, Some(t.input.date), t.input.categoryId, Undefined, None)
  }

  function NewBudgets(ts: seq<Tagged>): (bs: seq<Budget>)
    ensures |bs| == |ts| && forall k :: 0 <= k < |ts| ==> bs[k] == NewBudget(ts[k])
  {
    seq(|ts|, k requires 0 <= k < |ts| => NewBudget(ts[k]))
  }

  /** `{id, ..._.pick(budget, ['amount', 'categoryId', 'date'])}` */
  function BudgetUpdate(t: Tagged): BudgetPatch {
    BudgetPatch(Some(t.id), Some(t.input.amount), Some(t.input.date), t.input.categoryId, Undefined, None)
  }

  /** The existing budgets updated one after the other. */
  function UpdateAll(bs: seq<Budget>, ts: seq<Tagged>): seq<Budget>
    decreases |ts|
  {
    if ts == [] then bs
    else UpdateBudgetIn(UpdateAll(bs, ts[..|ts| - 1]), BudgetUpdate(ts[|ts| - 1]))
  }

  lemma UpdateAllStep(bs: seq<Budget>, ts: seq<Tagged>, k: nat)
    requires k < |ts|
    ensures UpdateAll(bs, ts[..k + 1]) == UpdateBudgetIn(UpdateAll(bs, ts[..k]), BudgetUpdate(ts[k]))
  {
    assert ts[..k + 1][..k] == ts[..k];
  }

  /** The budgets after `createUpdateBudget`'s local writes. */
  function SavedBudgets(bs: seq<Budget>, ts: seq<Tagged>, fmt: DateFormat): seq<Budget> {
    var news := Filter(ts, IsNewTag);
    var added := if |news| > 0 then MainReducers.AddBudgets(bs, NewBudgets(news), fmt) else bs;
    UpdateAll(added, Filter(ts, IsExistingTag))
  }

  /** The operation queued for one budget: a POST of amount, category and
      date for a new one, a PATCH of the amount alone for an existing one. */
  function BudgetRequest(t: Tagged): OpRequest {
    if t.isNew then
      Req(["main", "budget"], Post, BudgetData(BudgetPatch(None, Some(t.input.amount), Some(t.input.date), t.input.categoryId, Undefined, None)),
          Some("replaceBudget"), Some(t.id))
    else
      Req(["main", "budget", t.id], Patch, BudgetData(BudgetPatch(None, Some(t.input.amount), None, None, Undefined, None)),
          Some("replaceBudget"), Some(t.id))
  }

  /** The operations appended for a list of requests, one per request, in order. */
  function QueuedAll(ids: seq<string>, now: int, reqs: seq<OpRequest>): (ops: seq<SyncOperation>)
    requires |ids| == |reqs|
    ensures |ops| == |reqs| && forall k :: 0 <= k < |reqs| ==> ops[k] == Queued(ids[k], now, reqs[k])
  {
    seq(|reqs|, k requires 0 <= k < |reqs| => Queued(ids[k], now, reqs[k]))
  }

  function BudgetRequests(ts: seq<Tagged>): (reqs: seq<OpRequest>)
    ensures |reqs| == |ts| && forall k :: 0 <= k < |ts| ==> reqs[k] == BudgetRequest(ts[k])
  {
    seq(|ts|, k requires 0 <= k < |ts| => BudgetRequest(ts[k]))
  }

  /** One operation per input: inputs without an id are POSTed under a fresh
      `f_b-` id carrying amount, category and date; inputs with an id are
      PATCHed at their own path carrying only the amount. Both are reconciled
      by `replaceBudget` under the id they were saved with. */
  lemma BudgetRequestsShape(inputs: seq<BudgetInput>, tokens: seq<string>, k: int)
    requires |tokens| == |inputs| && 0 <= k < |inputs|
    ensures var r := BudgetRequests(TagAll(inputs, tokens))[k];
      var b := inputs[k];
      r.cb == Some("replaceBudget") && r.handler == "genericSync"
      && (b.id.None? ==> r.verb == Post && r.path == ["main", "budget"] && r.frontendId == Some(BudgetTempPrefix + tokens[k])
                         && r.data == BudgetData(BudgetPatch(None, Some(b.amount), Some(b.date), b.categoryId, Undefined, None)))
      && (Truthy(b.id) ==> r.verb == Patch && r.path == ["main", "budget", b.id.value] && r.frontendId == b.id
                           && r.data == BudgetData(BudgetPatch(None, Some(b.amount), None, None, Undefined, None)))
  {
  }

  /** The new budgets are appended in input order under their saved ids; the
      budgets that were there keep their places. */
  lemma SavedBudgetsAppendsNew(bs: seq<Budget>, ts: seq<Tagged>, fmt: DateFormat)
    requires forall k :: 0 <= k < |ts| ==> ts[k].isNew
    ensures var r := SavedBudgets(bs, ts, fmt);
      |r| == |bs| + |ts| && r[..|bs|] == bs
      && forall k :: 0 <= k < |ts| ==> r[|bs| + k].id == ts[k].id && r[|bs| + k].amount == ts[k].input.amount
  {
    FilterKeepsAll(ts, IsNewTag);
    FilterNone(ts, IsExistingTag);
  }

  /** Operations `deleteBudget` cancels: budget operations for that id. */
  function CancelsBudget(id: string): SyncOperation -> bool {
    (op: SyncOperation) => "budget" in op.request.path && op.request.frontendId == Some(id)
  }

  function KeepsBudget(id: string): SyncOperation -> bool {
    (op: SyncOperation) => !CancelsBudget(id)(op)
  }

  // ---------------------------------------------------------------------------
  // Categories

  /** The subcategory `addSubcategoryLocal` stores. */
  function LocalSubcategory(frontendId: string, name: string, color: string, groupId: int, auth: Auth): Subcategory {
    Subcategory(Str(frontendId), name, HexPart(color), Num(groupId), None, auth.name, Str(auth.house))
  }

  /** The local edit `updateSubcategoryLocal` dispatches as written: the
      payload itself, colour included. */
  function LocalEditAsWritten(id: int, name: string, color: string, groupId: int): SubcategoryEdit {
    SubcategoryEdit(Num(id), name, color, Num(groupId))
  }

  /** The local edit with the colour the request sends. */
  function LocalEdit(id: int, name: string, color: string, groupId: int): (u: SubcategoryEdit)
    ensures u.color == HexPart(color)
  {
    SubcategoryEdit(Num(id), name, HexPart(color), Num(groupId))
  }

  /** A colour picked as `#<hex>` while editing a subcategory in place: as
      written it is stored with its `#`, and the category list then shows it
      as `##<hex>`. */
  lemma EditedColourShownWithTwoHashes(t: Table, key: string, i: nat, id: int, name: string, hex: string, groupId: int)
    requires KeysUnique(t) && hex != "" && '#' !in hex
    requires FindHolder(t, Num(id), KeyList(t)) == FoundIn(key, i) && key == IntToString(groupId)
    ensures exists r :: r in SelectCategories(UpdateSubcategoryIn(t, LocalEditAsWritten(id, name, "#" + hex, groupId)))
                        && r.id == Num(id) && r.color == "##" + hex
  {
    var u := LocalEditAsWritten(id, name, "#" + hex, groupId);
    var t' := UpdateSubcategoryIn(t, u);
    var g := EditedInPlace(t, key, i, u);
    var r := Rendered(g.subcategories[i], g.name);
    assert "#" + ("#" + hex) == "##" + hex;
    SelectCategoriesMembers(t', r);
    assert Entry(key, g) in t' && r == Rendered(Entry(key, g).group.subcategories[i], Entry(key, g).group.name);
  }

  /** The group an in-place edit leaves under its key, and the edited record's id and colour. */
  lemma EditedInPlace(t: Table, key: string, i: nat, u: SubcategoryEdit) returns (g: Category)
    requires KeysUnique(t)
    requires FindHolder(t, u.id, KeyList(t)) == FoundIn(key, i) && key == IdString(u.groupId)
    ensures Entry(key, g) in UpdateSubcategoryIn(t, u)
    ensures i < |g.subcategories| && g.subcategories[i].id == u.id && g.subcategories[i].color == u.color
  {
    UpdateSubcategoryMergesInPlace(t, u, key, i);
    var t' := UpdateSubcategoryIn(t, u);
    g := Get(t', key).value;
    GetEntry(t', key);
  }

  /** Stored as the hex digits the request sends, an edited colour is shown
      as picked, the same way a newly added subcategory's colour is. */
  lemma EditedColourShownAsPicked(s: Subcategory, groupName: string, id: int, name: string, hex: string, groupId: int,
                                  frontendId: string, auth: Auth)
    requires hex != "" && '#' !in hex
    ensures Rendered(MergeSubcategory(s, EditPatch(LocalEdit(id, name, "#" + hex, groupId))), groupName).color == "#" + hex
    ensures Rendered(LocalSubcategory(frontendId, name, "#" + hex, groupId, auth), groupName).color == "#" + hex
  {
    HexPartStripsHash(hex);
  }

  /** The error `deleteGroupCategoryLocal` shows for a non-empty group. */
  const GroupNotEmpty: string := "Najpierw usuń wszystkie podkategorie"

  predicate HasSubcategories(t: Table, id: Id) {
    Get(t, IdString(id)).Some? && |Get(t, IdString(id)).value.subcategories| > 0
  }

  // ---------------------------------------------------------------------------
  // Exchange rates: the cache `fetchExchangeRate` consults first

  /** A stored rate usable for `code` between `from` and `to` (inclusive). */
  predicate Usable(r: ExchangeRate, code: string, from: string, to: string) {
    LowerAscii(r.code) == LowerAscii(code) && StrLe(from, r.date) && StrLe(r.date, to)
  }

  /** The comparator `b.date.localeCompare(a.date)`: later dates first. */
  predicate LaterFirst(a: ExchangeRate, b: ExchangeRate) {
    StrLe(b.date, a.date)
  }

  function UsableRates(rates: seq<ExchangeRate>, code: string, from: string, to: string): seq<ExchangeRate> {
    Filter(rates, (r: ExchangeRate) => Usable(r, code, from, to))
  }

  /** The most recent usable stored rate, if any. */
  function CachedRate(rates: seq<ExchangeRate>, code: string, from: string, to: string): Option<ExchangeRate> {
    var sorted := SortBy(UsableRates(rates, code, from, to), LaterFirst);
    if sorted == [] then None else Some(sorted[0])
  }

  lemma LaterFirstOrder()
    ensures Total(LaterFirst) && Transitive(LaterFirst)
  {
    forall a: ExchangeRate, b: ExchangeRate ensures LaterFirst(a, b) || LaterFirst(b, a) {
      StrLeTotal(a.date, b.date);
    }
    forall a: ExchangeRate, b: ExchangeRate, c: ExchangeRate | LaterFirst(a, b) && LaterFirst(b, c)
      ensures LaterFirst(a, c)
    {
      StrLeTransitive(c.date, b.date, a.date);
    }
  }

  /** The cache answers exactly when a usable rate is stored, and then with a
      stored usable rate no other usable rate is later than. */
  lemma CachedRateIsLatest(rates: seq<ExchangeRate>, code: string, from: string, to: string)
    ensures CachedRate(rates, code, from, to).None? <==> forall r :: r in rates ==> !Usable(r, code, from, to)
    ensures CachedRate(rates, code, from, to).Some? ==>
      var c := CachedRate(rates, code, from, to).value;
      c in rates && Usable(c, code, from, to)
      && forall r :: r in rates && Usable(r, code, from, to) ==> StrLe(r.date, c.date)
  {
    var usable := UsableRates(rates, code, from, to);
    FilterMembers(rates, (r: ExchangeRate) => Usable(r, code, from, to));
    LaterFirstOrder();
    SortSorted(usable, LaterFirst);
    var sorted := SortBy(usable, LaterFirst);
    if sorted != [] {
      assert sorted[0] in multiset(usable);
      forall r | r in rates && Usable(r, code, from, to) ensures StrLe(r.date, sorted[0].date) {
        assert r in multiset(sorted);
        var k :| 0 <= k < |sorted| && sorted[k] == r;
        if k > 0 {
          assert LaterFirst(sorted[0], sorted[k]);
        } else {
          StrLeTotal(r.date, r.date);
        }
      }
    } else {
      forall r | r in rates ensures !Usable(r, code, from, to) {
      }
    }
  }

  // ---------------------------------------------------------------------------

  /** The existing budgets of `createUpdateBudget`, updated one after the other. */
  method UpdateBudgets(main: MainState, existing: seq<Tagged>)
    modifies main
    ensures main.Snapshot() == old(main.Snapshot()).(budgets := UpdateAll(old(main.budgets), existing))
  {
    var k := 0;
    while k < |existing|
      invariant 0 <= k <= |existing|
      invariant main.budgets == UpdateAll(old(main.budgets), existing[..k])
      invariant main.Snapshot() == old(main.Snapshot()).(budgets := main.budgets)
    {
      UpdateAllStep(old(main.budgets), existing, k);
      main.UpdateBudget(BudgetUpdate(existing[k]));
      k := k + 1;
    }
    assert existing[..k] == existing;
  }

  /** The store the thunks work on: the main slice, the queue and the signed-in user. */
  class Store {
    const main: MainState
    const sync: SyncState
    const auth: Auth

    predicate Valid()
      reads this, main
    {
      main.Valid()
    }

    constructor (auth: Auth)
      ensures Valid() && this.auth == auth
      ensures main.Snapshot() == EmptyState() && sync.Snapshot() == QueueState([], map[])
      ensures fresh(main) && fresh(sync)
    {
      this.auth := auth;
      main := new MainState();
      sync := new SyncState();
    }

    /** `addNewExpense`: one expense under the temporary id `f_<token>`, one POST reconciled by `replaceExpense`. */
    method AddNewExpense(expense: Expense, token: string, opId: string, now: int, fmt: DateFormat)
      modifies main, sync
      ensures main.Snapshot() == old(main.Snapshot()).(expenses := AddExpenses(old(main.expenses), [LocalExpense(expense, auth, TempPrefix + token)], fmt))
      ensures sync.Snapshot() == old(sync.Snapshot()).(ops := old(sync.pendingOperations) +
        [Queued(opId, now, Req(["main", "expenses"], Post, ExpenseData(expense), Some("replaceExpense"), Some(TempPrefix + token)))])
    {
      var frontendId := TempPrefix + token;
      main.AddExpense([LocalExpense(expense, auth, frontendId)], fmt);
      sync.AddToQueue(Req(["main", "expenses"], Post, ExpenseData(expense), Some("replaceExpense"), Some(frontendId)), opId, now);
    }

    /** `updateExpense`: the expense is replaced locally and PUT at its own path. */
    method UpdateExpense(expense: Expense, opId: string, now: int, fmt: DateFormat)
      modifies main, sync
      ensures main.Snapshot() == old(main.Snapshot()).(expenses := UpdateExpenseIn(old(main.expenses), expense, fmt))
      ensures sync.Snapshot() == old(sync.Snapshot()).(ops := old(sync.pendingOperations) +
        [Queued(opId, now, Req(["main", "expenses", IdString(expense.id)], Put, ExpenseData(expense), Some("replaceExpense"), Some(IdString(expense.id))))])
    {
      main.UpdateExpense(expense, fmt);
      var key := IdString(expense.id);
      sync.AddToQueue(Req(["main", "expenses", key], Put, ExpenseData(expense), Some("replaceExpense"), Some(key)), opId, now);
    }

    /** `addNewIncome` */
    method AddNewIncome(income: Income, token: string, opId: string, now: int, fmt: DateFormat)
      modifies main, sync
      ensures main.Snapshot() == old(main.Snapshot()).(incomes := AddIncomes(old(main.incomes), [LocalIncome(income, auth, TempPrefix + token)], fmt))
      ensures sync.Snapshot() == old(sync.Snapshot()).(ops := old(sync.pendingOperations) +
        [Queued(opId, now, Req(["main", "income"], Post, IncomeData(IncomeFields(income)), Some("replaceIncome"), Some(TempPrefix + token)))])
    {
      var frontendId := TempPrefix + token;
      main.AddIncome([LocalIncome(income, auth, frontendId)], fmt);
      sync.AddToQueue(Req(["main", "income"], Post, IncomeData(IncomeFields(income)), Some("replaceIncome"), Some(frontendId)), opId, now);
    }

    /** `updateIncome`: stored with blank owner fields; the PATCH carries every field but the id and has no reconciler. */
    method UpdateIncome(income: Income, opId: string, now: int, fmt: DateFormat)
      modifies main, sync
      ensures main.Snapshot() == old(main.Snapshot()).(incomes := UpdateIncomeIn(old(main.incomes), BlankedIncome(income), fmt))
      ensures sync.Snapshot() == old(sync.Snapshot()).(ops := old(sync.pendingOperations) +
        [Queued(opId, now, Req(["main", "income", IdString(income.id)], Patch, IncomeData(IncomeFields(income).(id := None)), None, None))])
    {
      main.UpdateIncome(BlankedIncome(income), fmt);
      sync.AddToQueue(Req(["main", "income", IdString(income.id)], Patch, IncomeData(IncomeFields(income).(id := None)), None, None), opId, now);
    }

    /** `deleteIncome`: removed locally, and a DELETE queued whatever the id. */
    method DeleteIncome(id: string, opId: string, now: int)
      modifies main, sync
      ensures main.Snapshot() == old(main.Snapshot()).(incomes := RemoveIncomes(old(main.incomes), id))
      ensures sync.Snapshot() == old(sync.Snapshot()).(ops := old(sync.pendingOperations) +
        [Queued(opId, now, Req(["main", "income", id], Delete, NoData, None, Some(id)))])
    {
      main.RemoveIncome(id);
      sync.AddToQueue(Req(["main", "income", id], Delete, NoData, None, Some(id)), opId, now);
    }

    /** `deleteExpenseLocal` */
    method DeleteExpenseLocal(id: string, opId: string, now: int)
      modifies main, sync
      ensures main.Snapshot() == old(main.Snapshot()).(expenses := RemoveExpenses(old(main.expenses), id))
      ensures sync.Snapshot() == old(sync.Snapshot()).(ops := old(sync.pendingOperations) +
        [Queued(opId, now, Req(["main", "expenses", id], Delete, NoData, None, Some(id)))])
    {
      main.RemoveExpense(id);
      sync.AddToQueue(Req(["main", "expenses", id], Delete, NoData, None, Some(id)), opId, now);
    }

    // -------------------------------------------------------------------------
    // Budgets

    /** `createUpdateBudget`: new budgets added together, existing ones
        updated one by one, then one operation queued per input, in order. */
    method CreateUpdateBudget(inputs: seq<BudgetInput>, tokens: seq<string>, opIds: seq<string>, now: int, fmt: DateFormat)
      requires |tokens| == |inputs| && |opIds| == |inputs|
      modifies main, sync
      ensures main.Snapshot() == old(main.Snapshot()).(budgets := SavedBudgets(old(main.budgets), TagAll(inputs, tokens), fmt))
      ensures sync.Snapshot() == old(sync.Snapshot()).(ops := old(sync.pendingOperations) +
        QueuedAll(opIds, now, BudgetRequests(TagAll(inputs, tokens))))
    {
      var tagged := TagAll(inputs, tokens);
      var news := Filter(tagged, IsNewTag);
      if |news| > 0 {
        main.AddBudgets(NewBudgets(news), fmt);
      }
      UpdateBudgets(main, Filter(tagged, IsExistingTag));
      QueueAll(BudgetRequests(tagged), opIds, now);
    }

    /** Requests appended to the queue in order, the k-th under `opIds[k]`. */
    method QueueAll(reqs: seq<OpRequest>, opIds: seq<string>, now: int)
      requires |opIds| == |reqs|
      modifies sync
      ensures sync.Snapshot() == old(sync.Snapshot()).(ops := old(sync.pendingOperations) + QueuedAll(opIds, now, reqs))
    {
      var j := 0;
      while j < |reqs|
        invariant 0 <= j <= |reqs|
        invariant sync.Snapshot() == old(sync.Snapshot()).(ops := old(sync.pendingOperations) + QueuedAll(opIds[..j], now, reqs[..j]))
      {
        assert QueuedAll(opIds[..j + 1], now, reqs[..j + 1]) == QueuedAll(opIds[..j], now, reqs[..j]) + [Queued(opIds[j], now, reqs[j])];
        sync.AddToQueue(reqs[j], opIds[j], now);
        j := j + 1;
      }
      assert opIds[..j] == opIds && reqs[..j] == reqs;
    }

    /** `updateBudgetItem`: `{id, ...changes}` merged locally, `changes` PATCHed. */
    method UpdateBudgetItem(id: string, changes: BudgetPatch, opId: string, now: int)
      modifies main, sync
      ensures main.Snapshot() == old(main.Snapshot()).(budgets := UpdateBudgetIn(old(main.budgets), changes.(id := if changes.id.Some? then changes.id else Some(id))))
      ensures sync.Snapshot() == old(sync.Snapshot()).(ops := old(sync.pendingOperations) +
        [Queued(opId, now, Req(["main", "budget", id], Patch, BudgetData(changes), Some("replaceBudget"), Some(id)))])
    {
      main.UpdateBudget(changes.(id := if changes.id.Some? then changes.id else Some(id)));
      sync.AddToQueue(Req(["main", "budget", id], Patch, BudgetData(changes), Some("replaceBudget"), Some(id)), opId, now);
    }

    /** `deleteBudget`: the budget operations queued for this id are cancelled,
        the budget is removed, and a DELETE is queued, also for a temporary id. */
    method DeleteBudget(id: string, opId: string, now: int)
      modifies main, sync
      ensures main.Snapshot() == old(main.Snapshot()).(budgets := DeleteBudgetIn(old(main.budgets), Some(id)))
      ensures sync.Snapshot() == old(sync.Snapshot()).(ops :=
        WithoutAll(old(sync.pendingOperations), IdList(Filter(old(sync.pendingOperations), CancelsBudget(id)))) +
        [Queued(opId, now, Req(["main", "budget", id], Delete, EmptyBody, Some("deleteBudget"), Some(id)))])
      ensures old(sync.Valid()) ==>
        sync.pendingOperations == Filter(old(sync.pendingOperations), KeepsBudget(id)) +
          [Queued(opId, now, Req(["main", "budget", id], Delete, EmptyBody, Some("deleteBudget"), Some(id)))]
    {
      if sync.Valid() {
        CancelSelected(sync.pendingOperations, CancelsBudget(id));
        FilterSame(sync.pendingOperations, (op: SyncOperation) => !CancelsBudget(id)(op), KeepsBudget(id));
      }
      CancelQueued(IdList(Filter(sync.pendingOperations, CancelsBudget(id))));
      main.DeleteBudget(Some(id));
      sync.AddToQueue(Req(["main", "budget", id], Delete, EmptyBody, Some("deleteBudget"), Some(id)), opId, now);
    }

    /** `removeFromQueue` for each id in turn. */
    method CancelQueued(ids: seq<string>)
      modifies sync
      ensures sync.Snapshot() == old(sync.Snapshot()).(ops := WithoutAll(old(sync.pendingOperations), ids))
    {
      var k := 0;
      while k < |ids|
        invariant 0 <= k <= |ids|
        invariant WithoutAll(sync.pendingOperations, ids[k..]) == WithoutAll(old(sync.pendingOperations), ids)
        invariant sync.syncErrors == old(sync.syncErrors)
      {
        assert ids[k..][1..] == ids[k + 1..];
        sync.RemoveFromQueue(ids[k]);
        k := k + 1;
      }
    }

    // -------------------------------------------------------------------------
    // Subcategories and groups

    /** `addSubcategoryLocal`: a subcategory under `f_<token>` in its group, and one POST. */
    method AddSubcategoryLocal(name: string, color: string, groupId: int, token: string, opId: string, now: int) returns (temp: Subcategory)
      requires Valid()
      modifies main, sync
      ensures temp == LocalSubcategory(TempPrefix + token, name, color, groupId, auth) && Valid()
      ensures main.Snapshot() == old(main.Snapshot()).(categories := AddSubcategoryTo(old(main.categories), temp))
      ensures sync.Snapshot() == old(sync.Snapshot()).(ops := old(sync.pendingOperations) +
        [Queued(opId, now, Req(["main", "category"], Post, SubcategoryData(name, HexPart(color), Num(groupId)),
                                Some("replaceSubcategoryAction"), Some(TempPrefix + token)))])
    {
      var frontendId := TempPrefix + token;
      temp := LocalSubcategory(frontendId, name, color, groupId, auth);
      main.AddSubcategory(temp);
      sync.AddToQueue(Req(["main", "category"], Post, SubcategoryData(name, HexPart(color), Num(groupId)),
                          Some("replaceSubcategoryAction"), Some(frontendId)), opId, now);
    }

    /** `updateSubcategoryLocal`, storing the colour it sends. */
    method UpdateSubcategoryLocal(id: int, name: string, color: string, groupId: int, opId: string, now: int)
      requires Valid()
      modifies main, sync
      ensures Valid()
      ensures main.Snapshot() == old(main.Snapshot()).(categories := UpdateSubcategoryIn(old(main.categories), LocalEdit(id, name, color, groupId)))
      ensures sync.Snapshot() == old(sync.Snapshot()).(ops := old(sync.pendingOperations) +
        [Queued(opId, now, Req(["main", "category", IntToString(id)], Put, SubcategoryData(name, HexPart(color), Num(groupId)),
                                Some("replaceSubcategoryAction"), Some(IntToString(id))))])
    {
      main.UpdateSubcategory(LocalEdit(id, name, color, groupId));
      sync.AddToQueue(Req(["main", "category", IntToString(id)], Put, SubcategoryData(name, HexPart(color), Num(groupId)),
                          Some("replaceSubcategoryAction"), Some(IntToString(id))), opId, now);
    }

    /** `deleteSubcategoryLocal` */
    method DeleteSubcategoryLocal(id: Id, opId: string, now: int)
      requires Valid()
      modifies main, sync
      ensures Valid()
      ensures main.Snapshot() == old(main.Snapshot()).(categories := DeleteSubcategoryIn(old(main.categories), id))
      ensures sync.Snapshot() == old(sync.Snapshot()).(ops := old(sync.pendingOperations) +
        [Queued(opId, now, Req(["main", "category", IdString(id)], Delete, NoData, None, Some(IdString(id))))])
    {
      main.DeleteSubcategory(id);
      sync.AddToQueue(Req(["main", "category", IdString(id)], Delete, NoData, None, Some(IdString(id))), opId, now);
    }

    /** `addGroupCategoryLocal`: an empty group under `f_g_<token>`, and one POST. */
    method AddGroupCategoryLocal(name: string, color: string, token: string, opId: string, now: int)
      requires Valid()
      modifies main, sync
      ensures Valid()
      ensures main.Snapshot() == old(main.Snapshot()).(categories := AddGroup(old(main.categories), Str(GroupTempPrefix + token), name, HexPart(color)))
      ensures sync.Snapshot() == old(sync.Snapshot()).(ops := old(sync.pendingOperations) +
        [Queued(opId, now, Req(["main", "category", "group"], Post, GroupData(name, HexPart(color)),
                                Some("replaceGroupCategoryAction"), Some(GroupTempPrefix + token)))])
    {
      var frontendId := GroupTempPrefix + token;
      main.AddGroupCategory(Str(frontendId), name, HexPart(color));
      sync.AddToQueue(Req(["main", "category", "group"], Post, GroupData(name, HexPart(color)),
                          Some("replaceGroupCategoryAction"), Some(frontendId)), opId, now);
    }

    /** `updateGroupCategoryLocal`: the payload is stored as given, the request carries the hex digits. */
    method UpdateGroupCategoryLocal(id: Id, name: string, color: string, opId: string, now: int)
      requires Valid()
      modifies main, sync
      ensures Valid()
      ensures main.Snapshot() == old(main.Snapshot()).(categories := UpdateGroup(old(main.categories), id, name, color))
      ensures sync.Snapshot() == old(sync.Snapshot()).(ops := old(sync.pendingOperations) +
        [Queued(opId, now, Req(["main", "category", "group", IdString(id)], Put, GroupData(name, HexPart(color)),
                                Some("replaceGroupCategoryAction"), Some(IdString(id))))])
    {
      main.UpdateGroupCategory(id, name, color);
      sync.AddToQueue(Req(["main", "category", "group", IdString(id)], Put, GroupData(name, HexPart(color)),
                          Some("replaceGroupCategoryAction"), Some(IdString(id))), opId, now);
    }

    /** `deleteGroupCategoryLocal`: a group that still has subcategories is
        refused with an error snackbar and nothing else changes; otherwise the
        group is deleted and a DELETE queued. */
    method DeleteGroupCategoryLocal(id: Id, opId: string, now: int) returns (ok: bool)
      requires Valid()
      modifies main, sync
      ensures Valid()
      ensures ok <==> !HasSubcategories(old(main.categories), id)
      ensures !ok ==> main.Snapshot() == old(main.Snapshot()).(snackbar := Snackbar(true, "error", GroupNotEmpty, None))
                      && sync.Snapshot() == old(sync.Snapshot())
      ensures ok ==> main.Snapshot() == old(main.Snapshot()).(categories := DeleteGroup(old(main.categories), id))
                     && sync.Snapshot() == old(sync.Snapshot()).(ops := old(sync.pendingOperations) +
                          [Queued(opId, now, Req(["main", "category", "group", IdString(id)], Delete, NoData, None, Some(IdString(id))))])
    {
      if HasSubcategories(main.categories, id) {
        main.SetSnackbar(Some(SnackbarRequest(Some(true), Some("error"), Some(GroupNotEmpty), None)));
        return false;
      }
      main.DeleteGroupCategory(id);
      sync.AddToQueue(Req(["main", "category", "group", IdString(id)], Delete, NoData, None, Some(IdString(id))), opId, now);
      ok := true;
    }

    // -------------------------------------------------------------------------
    // The executor and the forced drain

    /** `genericSync` given the server's reply; `policy` is how the queue reschedules a failed attempt. */
    method GenericSync(args: SyncArgs, reply: Reply<Payload>, policy: RetryPolicy) returns (outcome: SyncOutcome)
      modifies main, sync
      ensures var s := SyncStep(old(main.Snapshot()), old(sync.Snapshot()), args, reply, policy);
        main.Snapshot() == s.main && sync.Snapshot() == s.queue && outcome == s.outcome
      ensures main.Valid() == old(main.Valid())
    {
      var id := args.operationId;
      sync.SetOperationStatus(id, Processing);
      if reply.Err? {
        sync.IncrementRetryCount(id, policy);
        sync.SetSyncError(id, reply.message);
        return SyncFailed(reply.message);
      }
      var ok := true;
      if args.cb.Some? && IsReducerKey(args.cb.value) {
        ok := RunCallback(args.cb.value, args.frontendId, reply.d);
      }
      if !ok {
        sync.IncrementRetryCount(id, policy);
        sync.SetSyncError(id, ReducerThrew);
        return SyncFailed(ReducerThrew);
      }
      sync.RemoveFromQueue(id);
      outcome := Synced(reply.d);
    }

    /** `mainSliceReducers[cb]({frontendId, resp})`; false when it throws. */
    method RunCallback(cb: string, frontendId: Option<string>, resp: Payload) returns (ok: bool)
      requires IsReducerKey(cb)
      modifies main
      ensures var r := RunReducer(old(main.Snapshot()), cb, frontendId, resp);
        ok == r.Some? && main.Snapshot() == if ok then r.value else old(main.Snapshot())
      ensures main.Valid() == old(main.Valid())
    {
      if cb == "replaceExpense" {
        ok := main.ReplaceExpense(frontendId, ExpensePatchOf(resp));
      } else if cb == "replaceIncome" {
        ok := main.ReplaceIncome(frontendId, IncomePatchOf(resp));
      } else if cb == "replaceBudget" {
        ok := main.ReplaceBudget(frontendId, resp);
      } else if cb in ["addBudgets", "addExpense", "addIncome"] {
        ok := false;
      } else {
        ok := true;
      }
    }

    /** The queue drain of `fetchIni`: `genericSync` on each operation in turn. */
    method DrainQueue(ops: seq<SyncOperation>, replies: seq<Reply<Payload>>, policy: RetryPolicy)
      requires |replies| == |ops|
      modifies main, sync
      ensures World(main.Snapshot(), sync.Snapshot()) == Drain(World(old(main.Snapshot()), old(sync.Snapshot())), ops, replies, policy)
    {
      ghost var w0 := World(main.Snapshot(), sync.Snapshot());
      var k := 0;
      while k < |ops|
        invariant 0 <= k <= |ops|
        invariant World(main.Snapshot(), sync.Snapshot()) == Drain(w0, ops[..k], replies[..k], policy)
      {
        DrainStep(w0, ops, replies, k, policy);
        var _ := GenericSync(DrainArgs(ops[k]), replies[k], policy);
        k := k + 1;
      }
      assert ops[..k] == ops && replies[..k] == replies;
    }

    /** `fetchIni`: every queued operation is sent in queue order (the k-th
        with `replies[k]`), and the server's data is fetched and installed
        only if the queue is then empty. */
    method FetchIni(replies: seq<Reply<Payload>>, ini: Reply<IniData>, fmt: DateFormat, policy: RetryPolicy) returns (ok: bool)
      requires |replies| == |sync.pendingOperations|
      requires ini.Ok? ==> KeysUnique(ini.d.categories)
      modifies main, sync
      ensures var r := FetchIniResult(World(old(main.Snapshot()), old(sync.Snapshot())), replies, ini, fmt, policy);
        main.Snapshot() == r.main && sync.Snapshot() == r.queue
      ensures ok ==> ini.Ok? && sync.pendingOperations == []
    {
      var ops := sync.pendingOperations;
      DrainQueue(ops, replies, policy);
      if |ops| > 0 && |sync.pendingOperations| > 0 {
        main.FetchIniRejected(Some(QueueNotEmpty));
        return false;
      }
      match ini
      case Ok(data) =>
        main.FetchIniFulfilled(data, fmt);
        ok := true;
      case Err(msg) =>
        main.FetchIniRejected(Some(msg));
        ok := false;
    }

    /** The cache lookup of `fetchExchangeRate`: a usable stored rate is
        returned as is; otherwise the rate the bank returned (`fetched`) is
        stored and returned, and without one the thunk fails. */
    method FetchExchangeRate(code: string, date: Option<string>, today: string, weekAgo: string, fetched: Option<ExchangeRate>)
      returns (r: Reply<ExchangeRate>)
      modifies main
      ensures var to := if Truthy(date) then date.value else today;
        var cached := CachedRate(old(main.exchangeRates), code, weekAgo, to);
        if cached.Some? then r == Ok(cached.value) && main.Snapshot() == old(main.Snapshot())
        else if fetched.Some? then r == Ok(fetched.value) && main.Snapshot() == old(main.Snapshot()).(exchangeRates := Upsert(old(main.exchangeRates), fetched.value, RateKey))
        else r.Err? && main.Snapshot() == old(main.Snapshot())
    {
      var to := if Truthy(date) then date.value else today;
      var cached := CachedRate(main.exchangeRates, code, weekAgo, to);
      if cached.Some? {
        return Ok(cached.value);
      }
      if fetched.Some? {
        main.AddExchangeRate(fetched.value);
        return Ok(fetched.value);
      }
      r := Err("Failed to fetch exchange rate for " + code);
    }
  }
}
