/** The main slice (redux/main/mainSlice.ts): the entity store the
    optimistic thunks write to and the reconcilers correct. Each reducer is a
    method that updates the store's fields in place; its contract gives the
    whole new state as the old one with the touched field replaced by the
    corresponding function of `MainReducers` or `SubcategoryScan`. */
module MainSlice {
  import opened Js
  import opened Entities
  import opened CategoryTable
  import opened MainReducers
  import opened SubcategoryScan

  datatype LoadStatus = Idle | Fetching

  /** The whole slice as a value (`_aggregated` is not modelled). */
  datatype MainData = MainData(
    status: LoadStatus,
    expenses: seq<Expense>,
    budgets: seq<Budget>,
    incomes: seq<Income>,
    categories: Table,
    sources: seq<OwnerSources>,
    exchangeRates: seq<ExchangeRate>,
    bidAskExchangeRates: seq<BidAskRate>,
    devMode: bool,
    snackbar: Snackbar)

  /** `emptyState()` */
  function EmptyState(): MainData {
    MainData(Idle, [], [], [], [], [], [], [], false, Snackbar(false, "success", "", None))
  }

  /** The `d` of the `ini` endpoint's reply. */
  datatype IniData = IniData(expenses: seq<Expense>, income: seq<Income>, categories: Table, budgets: Option<seq<Budget>>)

  /** The payload of `setSnackbar`; a missing field is `None`. */
  datatype SnackbarRequest = SnackbarRequest(open: Option<bool>, kind: Option<string>, msg: Option<string>, setTime: Option<int>)

  /** `setSnackbar`: missing fields take their defaults, and a message opens the snackbar. */
  function SnackbarFor(req: Option<SnackbarRequest>): (s: Snackbar)
    ensures req.Some? && Truthy(req.value.msg) ==> s.open && s.msg == req.value.msg.value
    ensures req.None? ==> s == Snackbar(false, "", "", None)
  {
    match req
    case None => Snackbar(false, "", "", None)
    case Some(r) =>
      var msg := Or(r.msg, "");
      Snackbar(if msg != "" then true else Or(r.open, false), Or(r.kind, ""), msg, r.setTime)
  }

  /** The message the rejected `fetchIni` leaves in the snackbar. */
  const FallbackError: string := "Coś poszło nie tak"

  class MainState {
    var status: LoadStatus
    var expenses: seq<Expense>
    var budgets: seq<Budget>
    var incomes: seq<Income>
    var categories: Table
    var sources: seq<OwnerSources>
    var exchangeRates: seq<ExchangeRate>
    var bidAskExchangeRates: seq<BidAskRate>
    var devMode: bool
    var snackbar: Snackbar

    function Snapshot(): MainData
      reads this
    {
      MainData(status, expenses, budgets, incomes, categories, sources, exchangeRates,
               bidAskExchangeRates, devMode, snackbar)
    }

    /** The category table has one group per key. */
    predicate Valid()
      reads this
    {
      KeysUnique(categories)
    }

    constructor ()
      ensures Snapshot() == EmptyState() && Valid()
    {
      status := Idle;
      expenses := [];
      budgets := [];
      incomes := [];
      categories := [];
      sources := [];
      exchangeRates := [];
      bidAskExchangeRates := [];
      devMode := false;
      snackbar := Snackbar(false, "success", "", None);
    }

    method SetSnackbar(req: Option<SnackbarRequest>)
      modifies this
      ensures Snapshot() == old(Snapshot()).(snackbar := SnackbarFor(req))
    {
      snackbar := SnackbarFor(req);
    }

    /** `initState`: expense dates are formatted, income dates are not. */
    method InitState(payload: IniData, fmt: DateFormat)
      requires KeysUnique(payload.categories)
      modifies this
      ensures Snapshot() == old(Snapshot()).(
        expenses := AddExpenses([], payload.expenses, fmt),
        categories := payload.categories,
        incomes := payload.income,
        sources := SourcesByOwner(payload.income))
      ensures Valid()
    {
      expenses := AddExpenses([], payload.expenses, fmt);
      categories := payload.categories;
      incomes := payload.income;
      sources := SourcesByOwner(payload.income);
    }

    /** `ini/fetchIni/fulfilled`: the server's data replace the local entities. */
    method FetchIniFulfilled(payload: IniData, fmt: DateFormat)
      requires KeysUnique(payload.categories)
      modifies this
      ensures Snapshot() == old(Snapshot()).(
        budgets := Or(payload.budgets, []),
        expenses := AddExpenses([], payload.expenses, fmt),
        categories := payload.categories,
        incomes := AddIncomes([], payload.income, fmt),
        sources := SourcesByOwner(payload.income))
      ensures Valid()
    {
      var bs := Or(payload.budgets, []);
      var es := AddExpenses([], payload.expenses, fmt);
      var ins := AddIncomes([], payload.income, fmt);
      var ss := SourcesByOwner(payload.income);
      budgets, expenses, categories, incomes, sources := bs, es, payload.categories, ins, ss;
    }

    /** `ini/fetchIni/rejected`: the error is shown in the snackbar. */
    method FetchIniRejected(message: Option<string>)
      modifies this
      ensures Snapshot() == old(Snapshot()).(snackbar := old(snackbar).(open := true, kind := "error", msg := Or(message, FallbackError)))
    {
      snackbar := snackbar.(open := true, kind := "error", msg := Or(message, FallbackError));
    }

    // -------------------------------------------------------------------------
    // Expenses and incomes

    method AddExpense(news: seq<Expense>, fmt: DateFormat)
      modifies this
      ensures Snapshot() == old(Snapshot()).(expenses := AddExpenses(old(expenses), news, fmt))
    {
      expenses := expenses + seq(|news|, k requires 0 <= k < |news| => StoredExpense(news[k], fmt));
    }

    method UpdateExpense(e: Expense, fmt: DateFormat)
      modifies this
      ensures Snapshot() == old(Snapshot()).(expenses := UpdateExpenseIn(old(expenses), e, fmt))
    {
      var i := FindIndex(expenses, (x: Expense) => x.id == e.id);
      if i != -1 {
        expenses := expenses[i := StoredExpense(e, fmt)];
      }
    }

    method RemoveExpense(id: string)
      modifies this
      ensures Snapshot() == old(Snapshot()).(expenses := RemoveExpenses(old(expenses), id))
    {
      expenses := RemoveExpenses(expenses, id);
    }

    /** `replaceExpense`; with no `frontendId` the reducer throws as soon as it
        calls `toString` on it, which needs at least one expense. */
    method ReplaceExpense(frontendId: Option<string>, resp: ExpensePatch) returns (ok: bool)
      modifies this
      ensures ok <==> frontendId.Some? || old(expenses) == []
      ensures Snapshot() == if frontendId.Some? then old(Snapshot()).(expenses := ReplaceExpenses(old(expenses), frontendId.value, resp))
                            else old(Snapshot())
    {
      if frontendId.None? {
        return expenses == [];
      }
      var fid := frontendId.value;
      var i := FindIndex(expenses, (x: Expense) => IdString(x.id) == fid);
      if i != -1 {
        expenses := expenses[i := MergeExpense(expenses[i], resp)];
      }
      ok := true;
    }

    method AddIncome(news: seq<Income>, fmt: DateFormat)
      modifies this
      ensures Snapshot() == old(Snapshot()).(incomes := AddIncomes(old(incomes), news, fmt))
    {
      incomes := incomes + seq(|news|, k requires 0 <= k < |news| => StoredIncome(news[k], fmt));
    }

    method UpdateIncome(inc: Income, fmt: DateFormat)
      modifies this
      ensures Snapshot() == old(Snapshot()).(incomes := UpdateIncomeIn(old(incomes), inc, fmt))
    {
      var i := FindIndex(incomes, (x: Income) => x.id == inc.id);
      if i != -1 {
        incomes := incomes[i := StoredIncome(inc, fmt)];
      }
    }

    method RemoveIncome(id: string)
      modifies this
      ensures Snapshot() == old(Snapshot()).(incomes := RemoveIncomes(old(incomes), id))
    {
      incomes := RemoveIncomes(incomes, id);
    }

    method ReplaceIncome(frontendId: Option<string>, resp: IncomePatch) returns (ok: bool)
      modifies this
      ensures ok <==> frontendId.Some? || old(incomes) == []
      ensures Snapshot() == if frontendId.Some? then old(Snapshot()).(incomes := ReplaceIncomes(old(incomes), frontendId.value, resp))
                            else old(Snapshot())
    {
      if frontendId.None? {
        return incomes == [];
      }
      var fid := frontendId.value;
      var i := FindIndex(incomes, (x: Income) => IdString(x.id) == fid);
      if i != -1 {
        incomes := incomes[i := MergeIncome(incomes[i], resp)];
      }
      ok := true;
    }

    // -------------------------------------------------------------------------
    // Budgets

    method AddBudgets(news: seq<Budget>, fmt: DateFormat)
      modifies this
      ensures Snapshot() == old(Snapshot()).(budgets := MainReducers.AddBudgets(old(budgets), news, fmt))
    {
      budgets := MainReducers.AddBudgets(budgets, news, fmt);
    }

    method UpdateBudget(payload: BudgetPatch)
      modifies this
      ensures Snapshot() == old(Snapshot()).(budgets := UpdateBudgetIn(old(budgets), payload))
    {
      var i := FindIndex(budgets, (b: Budget) => Some(b.id) == payload.id);
      if i != -1 {
        budgets := budgets[i := MergeBudget(budgets[i], payload.(id := None))];
      }
    }

    method DeleteBudget(id: Option<string>)
      modifies this
      ensures Snapshot() == old(Snapshot()).(budgets := DeleteBudgetIn(old(budgets), id))
    {
      var i := FindIndex(budgets, (b: Budget) => Some(b.id) == id);
      if i != -1 {
        budgets := budgets[..i] + budgets[i + 1..];
      }
    }

    /** `replaceBudget`. A list reply replaces the budgets filed under the
        `frontendId` prefix (`startsWith(undefined)` looks for the text
        "undefined"); any other reply is merged into the budget with that id,
        and `ok` is false when reading the missing reply throws. */
    method ReplaceBudget(frontendId: Option<string>, resp: Payload) returns (ok: bool)
      modifies this
      ensures resp.BudgetListReply? ==>
        ok && Snapshot() == old(Snapshot()).(budgets := ReplaceBudgetList(old(budgets), Or(frontendId, "undefined"), resp.budgets))
      ensures !resp.BudgetListReply? && frontendId.None? ==> ok && Snapshot() == old(Snapshot())
      ensures !resp.BudgetListReply? && frontendId.Some? ==>
        var r := ReplaceBudgetObject(old(budgets), frontendId.value, BudgetPatchOf(resp));
        ok == r.Some? && Snapshot() == old(Snapshot()).(budgets := if r.Some? then r.value else old(budgets))
    {
      if resp.BudgetListReply? {
        var prefix := Or(frontendId, "undefined");
        budgets := ReplaceBudgetList(budgets, prefix, resp.budgets);
        return true;
      }
      if frontendId.None? {
        return true;
      }
      var i := FindIndex(budgets, (b: Budget) => b.id == frontendId.value);
      if i == -1 {
        return true;
      }
      var p := BudgetPatchOf(resp);
      if p.None? {
        return false;
      }
      budgets := budgets[i := MergeBudget(budgets[i], p.value).(yearMonth := ServerMonth(p.value.date, p.value.yearMonth))];
      ok := true;
    }

    // -------------------------------------------------------------------------
    // Categories

    method AddSubcategory(s: Subcategory)
      requires Valid()
      modifies this
      ensures Snapshot() == old(Snapshot()).(categories := AddSubcategoryTo(old(categories), s)) && Valid()
    {
      AddSubcategoryEffect(categories, s, "");
      categories := AddSubcategoryTo(categories, s);
    }

    method ReplaceSubcategory(frontendId: string, sub: Subcategory, previousGroupId: Option<Id>)
      requires Valid()
      modifies this
      ensures Snapshot() == old(Snapshot()).(categories := ReplaceSubcategoryIn(old(categories), frontendId, sub, previousGroupId))
      ensures Valid()
    {
      ReplaceSubcategoryEffect(categories, frontendId, sub, previousGroupId, "");
      categories := ReplaceSubcategoryIn(categories, frontendId, sub, previousGroupId);
    }

    /** `updateSubcategoryAction`, looking each group up by its own key. */
    method UpdateSubcategory(u: SubcategoryEdit)
      requires Valid()
      modifies this
      ensures Snapshot() == old(Snapshot()).(categories := UpdateSubcategoryIn(old(categories), u)) && Valid()
    {
      var holder := ScanForHolder(categories, u.id, KeyList(categories));
      UpdateSubcategoryKeepsGroups(categories, u);
      if holder.FoundIn? {
        var key, index := holder.key, holder.index;
        var g := Get(categories, key).value;
        var newKey := IdString(u.groupId);
        if key != newKey {
          var sub := g.subcategories[index];
          categories := Put(categories, key, g.(subcategories := g.subcategories[..index] + g.subcategories[index + 1..]));
          var target := Get(categories, newKey);
          if target.Some? {
            categories := Put(categories, newKey, target.value.(subcategories := target.value.subcategories + [MergeSubcategory(sub, EditPatch(u))]));
          }
        } else {
          categories := Put(categories, key, g.(subcategories := g.subcategories[index := MergeSubcategory(g.subcategories[index], EditPatch(u))]));
        }
      }
    }

    /** `deleteSubcategoryAction`, looking each group up by its own key. */
    method DeleteSubcategory(id: Id)
      requires Valid()
      modifies this
      ensures Snapshot() == old(Snapshot()).(categories := DeleteSubcategoryIn(old(categories), id)) && Valid()
    {
      DeleteSubcategoryEffect(categories, id);
      categories := PruneGroups(categories, id, KeyList(categories));
    }

    method AddGroupCategory(id: Id, name: string, color: string)
      requires Valid()
      modifies this
      ensures Snapshot() == old(Snapshot()).(categories := AddGroup(old(categories), id, name, color)) && Valid()
    {
      GetPut(categories, IdString(id), Category([], name, color), "");
      categories := Put(categories, IdString(id), Category([], name, color));
    }

    method UpdateGroupCategory(id: Id, name: string, color: string)
      requires Valid()
      modifies this
      ensures Snapshot() == old(Snapshot()).(categories := UpdateGroup(old(categories), id, name, color)) && Valid()
    {
      UpdateGroupEffect(categories, id, name, color, "");
      var g := Get(categories, IdString(id));
      if g.Some? {
        categories := Put(categories, IdString(id), g.value.(name := name, color := color));
      }
    }

    method DeleteGroupCategory(id: Id)
      requires Valid()
      modifies this
      ensures Snapshot() == old(Snapshot()).(categories := DeleteGroup(old(categories), id)) && Valid()
    {
      GetDelete(categories, IdString(id), "");
      categories := Delete(categories, IdString(id));
    }

    /** `replaceGroupCategoryAction`, with the key comparison corrected. */
    method ReplaceGroupCategory(frontendId: string, id: Id, name: string, color: string)
      requires Valid()
      modifies this
      ensures Snapshot() == old(Snapshot()).(categories := ReplaceGroup(old(categories), frontendId, id, name, color)) && Valid()
    {
      ReplaceGroupEffect(categories, frontendId, id, name, color, "");
      var g := Get(categories, frontendId);
      if g.Some? {
        categories := Put(categories, IdString(id), Category(g.value.subcategories, name, color));
        if frontendId != IdString(id) {
          categories := Delete(categories, frontendId);
        }
      }
    }

    // -------------------------------------------------------------------------
    // Exchange rates

    method AddExchangeRate(rate: ExchangeRate)
      modifies this
      ensures Snapshot() == old(Snapshot()).(exchangeRates := Upsert(old(exchangeRates), rate, RateKey))
    {
      var i := FindIndex(exchangeRates, (y: ExchangeRate) => RateKey(y) == RateKey(rate));
      if i >= 0 {
        exchangeRates := exchangeRates[i := rate];
      } else {
        exchangeRates := exchangeRates + [rate];
      }
    }

    method AddBidAskExchangeRate(rate: BidAskRate)
      modifies this
      ensures Snapshot() == old(Snapshot()).(bidAskExchangeRates := Upsert(old(bidAskExchangeRates), rate, BidAskKey))
    {
      var i := FindIndex(bidAskExchangeRates, (y: BidAskRate) => BidAskKey(y) == BidAskKey(rate));
      if i >= 0 {
        bidAskExchangeRates := bidAskExchangeRates[i := rate];
      } else {
        bidAskExchangeRates := bidAskExchangeRates + [rate];
      }
    }
  }

  /** The scan of `updateSubcategoryAction`: the last group, in key order, holding `id`. */
  method ScanForHolder(t: Table, id: Id, keys: seq<string>) returns (holder: Holder)
    ensures holder == FindHolder(t, id, keys)
  {
    holder := NotFound;
    var i := 0;
    while i < |keys|
      invariant 0 <= i <= |keys|
      invariant holder == FindHolder(t, id, keys[..i])
    {
      assert keys[..i + 1] == keys[..i] + [keys[i]];
      FindHolderSnoc(t, id, keys[..i], keys[i]);
      var g := Get(t, keys[i]);
      if g.Some? {
        var index := PositionIn(g.value, id);
        if index != -1 {
          holder := FoundIn(keys[i], index);
        }
      }
      i := i + 1;
    }
    assert keys[..|keys|] == keys;
  }

  /** The `forEach` of `deleteSubcategoryAction`: each group, looked up by its
      own key, loses the subcategories with that id string. */
  method PruneGroups(t: Table, id: Id, keys: seq<string>) returns (r: Table)
    ensures r == DeleteFrom(t, id, keys)
  {
    r := t;
    var i := 0;
    while i < |keys|
      invariant 0 <= i <= |keys|
      invariant r == DeleteFrom(t, id, keys[..i])
    {
      assert keys[..i + 1] == keys[..i] + [keys[i]];
      DeleteFromSnoc(t, id, keys[..i], keys[i]);
      var g := Get(r, keys[i]);
      if g.Some? {
        r := Put(r, keys[i], Pruned(g.value, id));
      }
      i := i + 1;
    }
    assert keys[..|keys|] == keys;
  }

  /** The budget fields a reply carries; `None` for a missing reply. A reply
      of another entity carries no budget field. */
  function BudgetPatchOf(resp: Payload): Option<BudgetPatch> {
    match resp
    case Absent => None
    case BudgetReply(p) => Some(p)
    case _ => Some(BudgetPatch(None, None, None, None, Undefined, None))
  }
}
