/** The records the application keeps locally (types.ts) and the partial
    records a server reply carries. A reply is merged over a local record the
    way the source spreads objects: `{...local, ...reply}` keeps every field the
    reply does not carry and takes every field it does. */
module Entities {
  import opened Js

  /** An entity id as a JavaScript value: server ids are numbers (budgets
      excepted), client-made temporary ids are strings. `===` on ids is
      equality of these values; `id.toString()` is `IdString`. */
  datatype Id = Num(n: int) | Str(s: string)

  function IdString(id: Id): string {
    match id
    case Num(n) => IntToString(n)
    case Str(s) => s
  }

  /** JavaScript truthiness of an id (`0` and `''` are falsy). */
  predicate IdTruthy(id: Id) {
    match id
    case Num(n) => n != 0
    case Str(s) => s != ""
  }

  /** Prefixes of temporary ids: expenses, incomes and subcategories use
      `f_`, budgets `f_b-`, category groups `f_g_`. */
  const TempPrefix: string := "f_"
  const BudgetTempPrefix: string := "f_b-"
  const GroupTempPrefix: string := "f_g_"

  predicate IsTemp(id: Id) {
    id.Str? && StartsWith(id.s, TempPrefix)
  }

  /** The signed-in user (auth slice); the type gives exactly one house. */
  datatype Auth = Auth(name: string, userId: string, house: string, token: string)

  // ---------------------------------------------------------------------------
  // Expenses

  datatype Expense = Expense(
    id: Id,
    description: Option<string>,  // None is `null`
    date: string,
    price: real,
    categoryId: int,
    category: string,
    image: string,
    houseId: string,
    owner: string,
    ownerId: Option<Id>)

  datatype ExpensePatch = ExpensePatch(
    id: Option<Id>,
    description: Option<Option<string>>,
    date: Option<string>,
    price: Option<real>,
    categoryId: Option<int>,
    category: Option<string>,
    image: Option<string>,
    houseId: Option<string>,
    owner: Option<string>,
    ownerId: Option<Id>)

  /** `{...e, ...p}` */
  function MergeExpense(e: Expense, p: ExpensePatch): Expense {
    Expense(Or(p.id, e.id), Or(p.description, e.description), Or(p.date, e.date),
            Or(p.price, e.price), Or(p.categoryId, e.categoryId), Or(p.category, e.category),
            Or(p.image, e.image), Or(p.houseId, e.houseId), Or(p.owner, e.owner),
            if p.ownerId.Some? then p.ownerId else e.ownerId)
  }

  // ---------------------------------------------------------------------------
  // Incomes

  datatype Income = Income(
    id: Id,
    date: string,
    price: real,
    source: string,
    ownerId: Id,
    vat: real,
    houseId: string,
    description: string,
    owner: string)

  datatype IncomePatch = IncomePatch(
    id: Option<Id>,
    date: Option<string>,
    price: Option<real>,
    source: Option<string>,
    ownerId: Option<Id>,
    vat: Option<real>,
    houseId: Option<string>,
    description: Option<string>,
    owner: Option<string>)

  /** `{...i, ...p}` */
  function MergeIncome(i: Income, p: IncomePatch): Income {
    Income(Or(p.id, i.id), Or(p.date, i.date), Or(p.price, i.price), Or(p.source, i.source),
           Or(p.ownerId, i.ownerId), Or(p.vat, i.vat), Or(p.houseId, i.houseId),
           Or(p.description, i.description), Or(p.owner, i.owner))
  }

  // ---------------------------------------------------------------------------
  // Budgets: ids are strings on both sides (`f_b-…` until synchronised).
  // `groupId` distinguishes a missing field from `null`, because the budget
  // selector tests `groupId !== null`.

  datatype Budget = Budget(
    id: string,
    amount: real,
    date: Option<string>,
    categoryId: Option<int>,
    groupId: Nullable<int>,
    yearMonth: Option<string>)

  /** A partial budget: update payloads and server replies. A JSON reply has
      no `undefined` values, so `Undefined` in `groupId` means "not carried". */
  datatype BudgetPatch = BudgetPatch(
    id: Option<string>,
    amount: Option<real>,
    date: Option<string>,
    categoryId: Option<int>,
    groupId: Nullable<int>,
    yearMonth: Option<string>)

  /** `{...b, ...p}` */
  function MergeBudget(b: Budget, p: BudgetPatch): Budget {
    Budget(Or(p.id, b.id), Or(p.amount, b.amount),
           if p.date.Some? then p.date else b.date,
           if p.categoryId.Some? then p.categoryId else b.categoryId,
           if p.groupId.Undefined? then b.groupId else p.groupId,
           if p.yearMonth.Some? then p.yearMonth else b.yearMonth)
  }

  // ---------------------------------------------------------------------------
  // Categories: a group (`Category`) holds its subcategories.

  datatype Subcategory = Subcategory(
    id: Id,
    name: string,
    color: string,
    groupId: Id,
    groupName: Option<string>,
    owner: string,
    ownerId: Id)

  datatype SubcategoryPatch = SubcategoryPatch(
    id: Option<Id>,
    name: Option<string>,
    color: Option<string>,
    groupId: Option<Id>,
    owner: Option<string>,
    ownerId: Option<Id>)

  /** `{...s, ...p}` */
  function MergeSubcategory(s: Subcategory, p: SubcategoryPatch): Subcategory {
    Subcategory(Or(p.id, s.id), Or(p.name, s.name), Or(p.color, s.color), Or(p.groupId, s.groupId),
                s.groupName, Or(p.owner, s.owner), Or(p.ownerId, s.ownerId))
  }

  datatype Category = Category(subcategories: seq<Subcategory>, name: string, color: string)

  // ---------------------------------------------------------------------------
  // Exchange rates (types/nbpTypes.ts) and the snackbar

  datatype ExchangeRate = ExchangeRate(code: string, currency: string, rate: real, date: string, fetchedAt: string)

  datatype BidAskRate = BidAskRate(code: string, currency: string, bidRate: real, askRate: real, date: string, fetchedAt: string)

  datatype Snackbar = Snackbar(open: bool, kind: string, msg: string, time: Option<int>)

  // ---------------------------------------------------------------------------
  // The `d` field of a successful server reply, as the reconcilers read it.

  datatype Payload =
    | Absent                                   // `undefined` or `null`
    | ExpenseReply(expense: ExpensePatch)
    | IncomeReply(income: IncomePatch)
    | BudgetReply(budget: BudgetPatch)
    | BudgetListReply(budgets: seq<Budget>)
    | SubcategoryReply(sub: Subcategory, previousGroupId: Option<Id>)
    | GroupReply(groupId: Id, name: string, color: string)
}
