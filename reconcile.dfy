/** The executor (`genericSync` in redux/main/thunks.ts) as a function of
    the state: it marks the operation processing, sends it, and on success
    runs the reconciler named by the operation's `cb` over the main slice
    before removing the operation; on failure it counts the attempt and
    records the error, and never rethrows. The forced drain (`fetchIni`)
    replays a snapshot of the queue through it, in order. */
module Reconcile {
  import opened Js
  import opened Entities
  import opened CategoryTable
  import opened MainReducers
  import opened MainSlice
  import opened Sync
  import opened Dispatcher

  /** A server reply: the `d` of a reply without `err`, or the error (a
      failed request, or a reply carrying `err`) as `String(error)` gives it. */
  datatype Reply<+T> = Ok(d: T) | Err(message: string)

  /** What `genericSync` resolves with: the reply's data, or `{error: true, message}`. */
  datatype SyncOutcome = Synced(d: Payload) | SyncFailed(message: string)

  /** The message recorded when a reconciler throws (its exact text is the engine's). */
  const ReducerThrew: string := "TypeError"

  /** The keys of `mainSliceReducers`: only these callbacks are run. */
  predicate IsReducerKey(cb: string) {
    cb in ["deleteBudget", "addBudgets", "updateBudget", "addExpense", "updateExpense",
           "addIncome", "updateIncome", "replaceBudget", "replaceExpense", "replaceIncome"]
  }

  /** The fields a reply spreads over an expense; a missing reply or a reply
      of another entity spreads none. */
  function ExpensePatchOf(resp: Payload): ExpensePatch {
    if resp.ExpenseReply? then resp.expense
    else ExpensePatch(None, None, None, None, None, None, None, None, None, None)
  }

  function IncomePatchOf(resp: Payload): IncomePatch {
    if resp.IncomeReply? then resp.income
    else IncomePatch(None, None, None, None, None, None, None, None, None)
  }

  /** The reducer `cb` applied to `{frontendId, resp}`; `None` when it throws.
      The `add*` reducers call `map` on that object and throw; the `update*`
      reducers and `deleteBudget` look for an entity whose id is `undefined`
      and find none. */
  function RunReducer(m: MainData, cb: string, frontendId: Option<string>, resp: Payload): (r: Option<MainData>)
    requires IsReducerKey(cb)
    ensures r.Some? ==> r.value.categories == m.categories && r.value.snackbar == m.snackbar
                        && r.value.sources == m.sources && r.value.exchangeRates == m.exchangeRates
  {
    if cb == "replaceExpense" then
      if frontendId.Some? then Some(m.(expenses := ReplaceExpenses(m.expenses, frontendId.value, ExpensePatchOf(resp))))
      else if m.expenses == [] then Some(m) else None
    else if cb == "replaceIncome" then
      if frontendId.Some? then Some(m.(incomes := ReplaceIncomes(m.incomes, frontendId.value, IncomePatchOf(resp))))
      else if m.incomes == [] then Some(m) else None
    else if cb == "replaceBudget" then
      if resp.BudgetListReply? then Some(m.(budgets := ReplaceBudgetList(m.budgets, Or(frontendId, "undefined"), resp.budgets)))
      else if frontendId.None? then Some(m)
      else
        var r := ReplaceBudgetObject(m.budgets, frontendId.value, BudgetPatchOf(resp));
        if r.Some? then Some(m.(budgets := r.value)) else None
    else if cb in ["addBudgets", "addExpense", "addIncome"] then None
    else Some(m)
  }

  /** The `add*` reconcilers always throw, and the `update*` ones and
      `deleteBudget` change nothing. */
  lemma RunReducerNoops(m: MainData, cb: string, frontendId: Option<string>, resp: Payload)
    requires IsReducerKey(cb)
    ensures cb in ["addBudgets", "addExpense", "addIncome"] ==> RunReducer(m, cb, frontendId, resp).None?
    ensures cb in ["deleteBudget", "updateBudget", "updateExpense", "updateIncome"] ==> RunReducer(m, cb, frontendId, resp) == Some(m)
  {
  }

  /** The reconciliation step of a successful request. */
  function Reconciled(m: MainData, cb: Option<string>, frontendId: Option<string>, resp: Payload): Option<MainData> {
    if cb.Some? && IsReducerKey(cb.value) then RunReducer(m, cb.value, frontendId, resp) else Some(m)
  }

  datatype Step = Step(main: MainData, queue: QueueState, outcome: SyncOutcome)

  /** A failed attempt: counted by the queue's policy, its error recorded. */
  function Failure(q: QueueState, id: string, message: string, policy: RetryPolicy): QueueState {
    QueueState(WithRetry(q.ops, id, policy), q.errors[id := message])
  }

  /** `genericSync(args)` given the server's reply. */
  function SyncStep(m: MainData, q: QueueState, args: SyncArgs, reply: Reply<Payload>, policy: RetryPolicy): Step {
    var id := args.operationId;
    var marked := q.(ops := WithStatus(q.ops, id, Processing));
    match reply
    case Err(msg) => Step(m, Failure(marked, id, msg, policy), SyncFailed(msg))
    case Ok(d) =>
      var r := Reconciled(m, args.cb, args.frontendId, d);
      if r.None? then Step(m, Failure(marked, id, ReducerThrew, policy), SyncFailed(ReducerThrew))
      else Step(r.value, marked.(ops := Without(marked.ops, id)), Synced(d))
  }

  /** A successful request removes its operation from the queue, leaves the
      errors as they were, and leaves the reconciled main slice. */
  lemma SyncSuccess(m: MainData, q: QueueState, args: SyncArgs, d: Payload, policy: RetryPolicy)
    requires Reconciled(m, args.cb, args.frontendId, d).Some?
    ensures var s := SyncStep(m, q, args, Ok(d), policy);
      s.queue.ops == Without(q.ops, args.operationId) && args.operationId !in Ids(s.queue.ops)
      && s.queue.errors == q.errors
      && s.main == Reconciled(m, args.cb, args.frontendId, d).value
      && s.outcome == Synced(d)
  {
    WithoutAfterUpdate(q.ops, args.operationId, (op: SyncOperation) => op.(status := Processing));
  }

  /** A failed request (an error reply, or a reconciler that throws) leaves the
      main slice unchanged, keeps every operation queued with one more attempt
      counted on it, and records the error under its id. */
  lemma SyncFailure(m: MainData, q: QueueState, args: SyncArgs, reply: Reply<Payload>, policy: RetryPolicy)
    requires reply.Err? || Reconciled(m, args.cb, args.frontendId, reply.d).None?
    ensures var s := SyncStep(m, q, args, reply, policy);
      var msg := if reply.Err? then reply.message else ReducerThrew;
      s.main == m && s.outcome == SyncFailed(msg)
      && Ids(s.queue.ops) == Ids(q.ops) && |s.queue.ops| == |q.ops|
      && s.queue.errors == q.errors[args.operationId := msg]
      && forall i :: 0 <= i < |q.ops| && q.ops[i].id == args.operationId ==>
           s.queue.ops[i].retryCount == q.ops[i].retryCount + 1 && s.queue.ops[i].request == q.ops[i].request
  {
    var id := args.operationId;
    var marked := WithStatus(q.ops, id, Processing);
    UpdateWhereKeepsIds(q.ops, id, (op: SyncOperation) => op.(status := Processing));
    UpdateWhereKeepsIds(marked, id, (op: SyncOperation) => Retried(op, policy));
  }

  /** Operations whose callback is missing or is not a reducer key (the
      subcategory and group reconcilers among them) are only removed on
      success: the main slice does not change. */
  lemma UnregisteredCallbackOnlyRemoves(m: MainData, q: QueueState, args: SyncArgs, d: Payload, policy: RetryPolicy)
    requires args.cb.None? || !IsReducerKey(args.cb.value)
    ensures SyncStep(m, q, args, Ok(d), policy) == Step(m, QueueState(Without(q.ops, args.operationId), q.errors), Synced(d))
  {
    WithoutAfterUpdate(q.ops, args.operationId, (op: SyncOperation) => op.(status := Processing));
  }

  /** The subcategory and group reconcilers are never run by the executor. */
  lemma CategoryReconcilersNotRegistered()
    ensures !IsReducerKey("replaceSubcategoryAction") && !IsReducerKey("replaceGroupCategoryAction")
  {
    assert "replaceSubcategoryAction" != "replaceExpense" by {
      assert "replaceSubcategoryAction"[7] != "replaceExpense"[7];
    }
    assert "replaceGroupCategoryAction" != "replaceExpense" by {
      assert "replaceGroupCategoryAction"[7] != "replaceExpense"[7];
    }
  }

  // ---------------------------------------------------------------------------
  // The forced drain

  /** `operation.path.slice(1)` */
  function DropFirst(path: seq<string>): seq<string> {
    if path == [] then [] else path[1..]
  }

  /** The arguments `fetchIni` passes for a queued operation. */
  function DrainArgs(op: SyncOperation): SyncArgs {
    SyncArgs(DropFirst(op.request.path), op.request.verb, op.request.data, op.request.cb, op.id, op.request.frontendId)
  }

  datatype World = World(main: MainData, queue: QueueState)

  /** The operations sent one after the other, the k-th with the k-th reply. */
  function Drain(w: World, ops: seq<SyncOperation>, replies: seq<Reply<Payload>>, policy: RetryPolicy): World
    requires |replies| == |ops|
    decreases |ops|
  {
    if ops == [] then w
    else
      var n := |ops| - 1;
      var before := Drain(w, ops[..n], replies[..n], policy);
      var s := SyncStep(before.main, before.queue, DrainArgs(ops[n]), replies[n], policy);
      World(s.main, s.queue)
  }

  /** Draining one more operation is one more `genericSync` step. */
  lemma DrainStep(w: World, ops: seq<SyncOperation>, replies: seq<Reply<Payload>>, k: nat, policy: RetryPolicy)
    requires |replies| == |ops| && k < |ops|
    ensures var before := Drain(w, ops[..k], replies[..k], policy);
      var s := SyncStep(before.main, before.queue, DrainArgs(ops[k]), replies[k], policy);
      Drain(w, ops[..k + 1], replies[..k + 1], policy) == World(s.main, s.queue)
  {
    assert ops[..k + 1][..k] == ops[..k] && replies[..k + 1][..k] == replies[..k];
  }

  /** When every request fails, draining changes nothing in the main slice
      and removes no operation from the queue. */
  lemma {:induction false} DrainOfFailures(w: World, ops: seq<SyncOperation>, replies: seq<Reply<Payload>>, policy: RetryPolicy)
    requires |replies| == |ops|
    requires forall k :: 0 <= k < |replies| ==> replies[k].Err?
    ensures Drain(w, ops, replies, policy).main == w.main
    ensures Ids(Drain(w, ops, replies, policy).queue.ops) == Ids(w.queue.ops)
    ensures |Drain(w, ops, replies, policy).queue.ops| == |w.queue.ops|
    decreases |ops|
  {
    if ops != [] {
      var n := |ops| - 1;
      DrainOfFailures(w, ops[..n], replies[..n], policy);
      var before := Drain(w, ops[..n], replies[..n], policy);
      SyncFailure(before.main, before.queue, DrainArgs(ops[n]), replies[n], policy);
    }
  }

  /** The message `fetchIni` fails with when operations remain. */
  const QueueNotEmpty: string := "Nie możemy pobrać danych"

  /** The main slice after `ini/fetchIni/rejected` with that message. */
  function Rejected(m: MainData, message: string): MainData {
    m.(snackbar := m.snackbar.(open := true, kind := "error", msg := message))
  }

  /** The main slice after `ini/fetchIni/fulfilled`. */
  function Fulfilled(m: MainData, data: IniData, fmt: DateFormat): MainData {
    m.(budgets := Or(data.budgets, []),
       expenses := AddExpenses([], data.expenses, fmt),
       categories := data.categories,
       incomes := AddIncomes([], data.income, fmt),
       sources := SourcesByOwner(data.income))
  }

  /** `fetchIni`: drain a snapshot of the queue, then fetch only if nothing is left. */
  function FetchIniResult(w: World, replies: seq<Reply<Payload>>, ini: Reply<IniData>, fmt: DateFormat, policy: RetryPolicy): (r: World)
    requires |replies| == |w.queue.ops|
    ensures r.queue == Drain(w, w.queue.ops, replies, policy).queue
  {
    var drained := Drain(w, w.queue.ops, replies, policy);
    if w.queue.ops != [] && drained.queue.ops != [] then World(Rejected(drained.main, QueueNotEmpty), drained.queue)
    else match ini
      case Ok(data) => World(Fulfilled(drained.main, data, fmt), drained.queue)
      case Err(msg) => World(Rejected(drained.main, msg), drained.queue)
  }

  /** Server data is installed only from an empty queue: when a queued
      operation survives the drain, the entities are left as the drain left
      them and the refusal is shown. */
  lemma FetchIniNeedsEmptyQueue(w: World, replies: seq<Reply<Payload>>, ini: Reply<IniData>, fmt: DateFormat, policy: RetryPolicy)
    requires |replies| == |w.queue.ops|
    ensures var r := FetchIniResult(w, replies, ini, fmt, policy);
      var drained := Drain(w, w.queue.ops, replies, policy);
      (drained.queue.ops != [] ==> r.main == Rejected(drained.main, QueueNotEmpty))
      && (ini.Ok? && r.main.expenses != drained.main.expenses ==> drained.queue.ops == [])
  {
    if w.queue.ops == [] {
      assert Drain(w, w.queue.ops, replies, policy) == w;
    }
  }

  // ---------------------------------------------------------------------------
  // Round trips: the server's reply replaces the optimistic record

  /** An expense added under a fresh temporary id is the one its
      `replaceExpense` reply is merged into; the others stay as they were. */
  lemma ExpenseRoundTrip(m: MainData, e: Expense, fmt: DateFormat, resp: ExpensePatch)
    requires e.id.Str?
    requires forall k :: 0 <= k < |m.expenses| ==> IdString(m.expenses[k].id) != e.id.s
    ensures var added := m.(expenses := AddExpenses(m.expenses, [e], fmt));
      RunReducer(added, "replaceExpense", Some(e.id.s), ExpenseReply(resp))
        == Some(m.(expenses := m.expenses + [MergeExpense(StoredExpense(e, fmt), resp)]))
  {
    ExpenseReplacedLast(m.expenses, e, fmt, resp);
  }

  lemma ExpenseReplacedLast(xs: seq<Expense>, e: Expense, fmt: DateFormat, resp: ExpensePatch)
    requires e.id.Str?
    requires forall k :: 0 <= k < |xs| ==> IdString(xs[k].id) != e.id.s
    ensures ReplaceExpenses(AddExpenses(xs, [e], fmt), e.id.s, resp) == xs + [MergeExpense(StoredExpense(e, fmt), resp)]
  {
    var added := AddExpenses(xs, [e], fmt);
    var n := |xs|;
    assert added == xs + [StoredExpense(e, fmt)];
    var r := ReplaceExpenses(added, e.id.s, resp);
    assert r[n] == MergeExpense(added[n], resp);
    assert r == xs + [MergeExpense(StoredExpense(e, fmt), resp)];
  }

  /** The same for an income and its `replaceIncome` reply. */
  lemma IncomeRoundTrip(m: MainData, i: Income, fmt: DateFormat, resp: IncomePatch)
    requires i.id.Str?
    requires forall k :: 0 <= k < |m.incomes| ==> IdString(m.incomes[k].id) != i.id.s
    ensures var added := m.(incomes := AddIncomes(m.incomes, [i], fmt));
      RunReducer(added, "replaceIncome", Some(i.id.s), IncomeReply(resp))
        == Some(m.(incomes := m.incomes + [MergeIncome(StoredIncome(i, fmt), resp)]))
  {
    IncomeReplacedLast(m.incomes, i, fmt, resp);
  }

  lemma IncomeReplacedLast(xs: seq<Income>, i: Income, fmt: DateFormat, resp: IncomePatch)
    requires i.id.Str?
    requires forall k :: 0 <= k < |xs| ==> IdString(xs[k].id) != i.id.s
    ensures ReplaceIncomes(AddIncomes(xs, [i], fmt), i.id.s, resp) == xs + [MergeIncome(StoredIncome(i, fmt), resp)]
  {
    var added := AddIncomes(xs, [i], fmt);
    var n := |xs|;
    assert added == xs + [StoredIncome(i, fmt)];
    var r := ReplaceIncomes(added, i.id.s, resp);
    assert r[n] == MergeIncome(added[n], resp);
    assert r == xs + [MergeIncome(StoredIncome(i, fmt), resp)];
  }
}
