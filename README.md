# Offline-first sync engine of the household budget app

The app keeps a household's expenses, incomes, monthly budgets, category
groups and exchange rates in a Redux store. Every change the user makes is
written to the local store at once (optimistically) and also appended to a
queue of remote operations. A dispatcher drains that queue: each operation is
sent to the server, and on success the operation leaves the queue. When its
callback names a registered reducer, that reducer first rewrites the temporary
local record with the server's reply. Expenses and incomes (ids prefixed `f_`)
and budgets (`f_b-`) are reconciled this way. Subcategories and groups (`f_g_`)
are not, because their reducers are not registered, so they keep their
temporary ids until the next full refresh. A full
refresh from the server (`fetchIni`) first replays the queue and refuses to
install server data while anything is still queued.

This project models that engine in Dafny and proves what it promises:

- `Thunks` — the mutation facade (`redux/main/thunks.ts`) as the class
  `Store` over the main slice and the queue. Each verb is a method whose
  contract gives the new main slice and the new queue. The same class holds
  the executor `genericSync`, the queue drain of `fetchIni` and the cache
  lookup of `fetchExchangeRate`.
- `MainSlice` — the entity store (`redux/main/mainSlice.ts`) as the class
  `MainState`. Each reducer updates its fields in place, and its contract
  ties the new state to a function of `MainReducers` or `SubcategoryScan`.
- `MainReducers` and `SubcategoryScan` — those functions, and lemmas about
  them: merge-by-id, prefix replacement, moves between groups, re-keying a
  group, upsert on (code, date), and de-duplicated income sources.
  `SubcategoryScan` models the `parseInt` key scan of the two subcategory
  reducers both as written and as intended.
- `Sync` — the queue of operations as the class `SyncState`, with append,
  remove by id, set status, count a failed attempt, and record an error.
- `Reconcile` — `genericSync` and the drain of `fetchIni` as functions of the
  state, given the server's replies.
- `Dispatcher` — the selection rule of `useSync` (`hooks/index.ts`) as a pure
  function of (queue, now, connected).
- `Selectors` — `selectCategories`, `selectMainCategories`,
  `selectCategoriesByUsage`, `selectBudgets`, `selectLatestExchangeRate`
  and `filterCat`.
- `Changelog` — `parseChangelog`, a loop over the lines, as a method proved
  equal to a fold over the lines, with lemmas about the fold.
- Supporting modules:
  - `Js`: the JavaScript operations the code relies on (`filter`,
    `findIndex`, `split`, `parseInt`, number-to-string).
  - `CategoryTable`: a JavaScript object keyed by group id, with its
    property enumeration order.
  - `Sorting`: a stable sort by a comparator.
  - `Entities`: the records of `types.ts`.

## Model

| member | source | states |
|---|---|---|
| Thunks.Store.AddNewExpense | redux/main/thunks.ts:265-297 | exactly one expense is appended, stamped with the user and the temporary id `f_<token>`; exactly one POST on `main/expenses` is queued with `cb = replaceExpense` and that id as `frontendId`; nothing else changes |
| Thunks.Store.UpdateExpense | redux/main/thunks.ts:299-318 | the first expense with the same id is replaced; one PUT at the expense's own path is queued, reconciled by `replaceExpense` |
| Thunks.Store.AddNewIncome | redux/main/thunks.ts:320-349 | one income is appended under `f_<token>`; one POST on `main/income` carrying all its fields is queued, reconciled by `replaceIncome` |
| Thunks.Store.UpdateIncome | redux/main/thunks.ts:351-374 | the income is stored with its owner fields blanked; one PATCH carrying every field but the id is queued, with no reconciler |
| Thunks.Store.DeleteIncome | redux/main/thunks.ts:750-769 | every income with that id string is removed and one DELETE is queued; earlier queued operations stay |
| Thunks.Store.DeleteExpenseLocal | redux/main/thunks.ts:771-790 | every expense with that id string is removed and one DELETE is queued; earlier queued operations stay |
| Thunks.Store.CreateUpdateBudget | redux/main/thunks.ts:119-187 | new budgets are added together, existing ones updated one by one, and one operation per input is queued in input order |
| Thunks.Store.QueueAll | redux/main/thunks.ts:161-185 | the requests are appended in order, the k-th under the k-th operation id; the errors are unchanged |
| Thunks.UpdateBudgets | redux/main/thunks.ts:151-158 | the existing budgets are updated one after the other; nothing else in the slice changes |
| Thunks.Tag | redux/main/thunks.ts:129-133 | an input is new exactly when its id is falsy; without an id it is saved under `f_b-<token>`, otherwise under its own id |
| Thunks.TagAll | redux/main/thunks.ts:129-133 | one tagged input per input, in order |
| Thunks.UpdateAllStep | redux/main/thunks.ts:151-158 | updating one more existing budget is one more `updateBudget` on the result so far |
| Thunks.BudgetRequestsShape | redux/main/thunks.ts:161-185 | an input without an id gives a POST on `main/budget` carrying amount, category and date; an input with an id gives a PATCH at its own path carrying only the amount; both name `replaceBudget` and the saved id |
| Thunks.SavedBudgetsAppendsNew | redux/main/thunks.ts:136-149 | with only new inputs, the old budgets keep their places and one budget per input is appended in order with its saved id and amount |
| Thunks.Store.UpdateBudgetItem | redux/main/thunks.ts:189-210 | `{id, ...changes}` is merged into the first budget with that id; one PATCH of `changes` is queued, reconciled by `replaceBudget` |
| Thunks.Store.DeleteBudget | redux/main/thunks.ts:61-96 | the queued operations on a `budget` path with that `frontendId` are cancelled, the budget is spliced out, and one DELETE is queued even for a temporary id; with unique operation ids the queue is exactly the uncancelled operations plus the DELETE |
| Thunks.Store.CancelQueued | redux/main/thunks.ts:78-80 | the ids are removed from the queue one after the other; the main slice is not touched |
| Thunks.Store.AddSubcategoryLocal | redux/main/thunks.ts:438-481 | the subcategory under `f_<token>` with the hex digits of the colour is appended to its group (when the group exists); one POST is queued naming `replaceSubcategoryAction`, a callback the executor does not run (Reconcile.CategoryReconcilersNotRegistered); the returned record is the stored one |
| Thunks.Store.UpdateSubcategoryLocal | redux/main/thunks.ts:483-512 | the edit is applied by the corrected reducer, which looks each group up by its own key, with the corrected colour (the hex digits the request sends); one PUT at the subcategory's path is queued |
| Thunks.Store.DeleteSubcategoryLocal | redux/main/thunks.ts:514-535 | the subcategory is removed from every group, temporary groups included (the corrected key scan), and one DELETE is queued |
| Thunks.Store.AddGroupCategoryLocal | redux/main/thunks.ts:537-578 | an empty group under `f_g_<token>` is written; one POST is queued naming `replaceGroupCategoryAction`, a callback the executor does not run (Reconcile.CategoryReconcilersNotRegistered) |
| Thunks.Store.UpdateGroupCategoryLocal | redux/main/thunks.ts:580-610 | name and colour are stored as given, the request carries the hex digits; one PUT is queued |
| Thunks.Store.DeleteGroupCategoryLocal | redux/main/thunks.ts:612-647 | it fails exactly when the group still has subcategories; then only an error snackbar is set and the queue is unchanged; otherwise the group is deleted and one DELETE queued |
| Thunks.HexPartStripsHash | redux/main/thunks.ts:459 | a picker colour `#<hex>` is sent as `<hex>` |
| Thunks.HexPartWithoutHash | redux/main/thunks.ts:459 | a colour without `#` is sent as `ffffff` |
| Thunks.LocalEdit | redux/main/thunks.ts:504 | the corrected local edit stores the same colour the request sends |
| Thunks.EditedColourShownWithTwoHashes | redux/main/thunks.ts:497 | as written, a colour picked as `#<hex>` in an in-place edit is listed by `selectCategories` as `##<hex>` |
| Thunks.EditedInPlace | redux/main/mainSlice.ts:267-273 | an in-place edit leaves the edited record at its index with the edit's id and colour |
| Thunks.EditedColourShownAsPicked | redux/main/thunks.ts:459 | with the corrected edit, an edited colour is listed as picked, the same as a newly added subcategory's |
| Thunks.Store.GenericSync | redux/main/thunks.ts:792-852 | the new main slice, queue and outcome are exactly one executor step for the given reply |
| Thunks.Store.RunCallback | redux/main/thunks.ts:830-837 | the reducer named by `cb` is applied; it reports failure exactly when the reducer throws, and then the slice is unchanged |
| Thunks.Store.DrainQueue | redux/main/thunks.ts:222-238 | the state after the loop is the executor applied to each operation in queue order |
| Thunks.Store.FetchIni | redux/main/thunks.ts:212-263 | the state is the drain followed by the refresh; it succeeds only with a server reply and an empty queue |
| Thunks.Store.FetchExchangeRate | redux/main/thunks.ts:858-903 | a usable cached rate is returned with nothing changed; otherwise the fetched rate is upserted and returned; without one it fails and nothing changes |
| Thunks.LaterFirstOrder | redux/main/thunks.ts:883 | the later-date-first comparator is total and transitive |
| Thunks.CachedRateIsLatest | redux/main/thunks.ts:876-887 | the cache answers exactly when a stored rate of that code lies in the window, and then with such a rate no other is later than |
| MainSlice.SnackbarFor | redux/main/mainSlice.ts:38-42 | a message opens the snackbar with that message; no payload gives the closed, empty snackbar |
| MainSlice.MainState.constructor | redux/main/mainSlice.ts:10-26 | the store starts as the empty state |
| MainSlice.MainState.SetSnackbar | redux/main/mainSlice.ts:38-42 | only the snackbar changes |
| MainSlice.MainState.InitState | redux/main/mainSlice.ts:43-58 | expenses (dates formatted), categories, incomes (dates not formatted) and sources are replaced; nothing else changes |
| MainSlice.MainState.FetchIniFulfilled | redux/main/mainSlice.ts:372-395 | the server's budgets (or none), expenses and incomes (dates formatted), categories and sources replace the local ones |
| MainSlice.MainState.FetchIniRejected | redux/main/mainSlice.ts:396-400 | the snackbar is opened as an error with the message or the fallback text; nothing else changes |
| MainSlice.MainState.AddExpense | redux/main/mainSlice.ts:59-67 | only `expenses` changes, as `addExpense` prescribes |
| MainSlice.MainState.UpdateExpense | redux/main/mainSlice.ts:68-77 | only `expenses` changes, as `updateExpense` prescribes |
| MainSlice.MainState.RemoveExpense | redux/main/mainSlice.ts:132-136 | only `expenses` changes, as `removeExpense` prescribes |
| MainSlice.MainState.ReplaceExpense | redux/main/mainSlice.ts:142-153 | the reply is merged into the expense with that id string; with no `frontendId` it throws unless there are no expenses, and nothing changes |
| MainSlice.MainState.AddIncome | redux/main/mainSlice.ts:78-86 | only `incomes` changes, as `addIncome` prescribes |
| MainSlice.MainState.UpdateIncome | redux/main/mainSlice.ts:115-124 | only `incomes` changes, as `updateIncome` prescribes |
| MainSlice.MainState.RemoveIncome | redux/main/mainSlice.ts:137-141 | only `incomes` changes, as `removeIncome` prescribes |
| MainSlice.MainState.ReplaceIncome | redux/main/mainSlice.ts:154-162 | the reply is merged into the income with that id string; with no `frontendId` it throws unless there are no incomes |
| MainSlice.MainState.AddBudgets | redux/main/mainSlice.ts:87-97 | only `budgets` changes, as `addBudgets` prescribes |
| MainSlice.MainState.UpdateBudget | redux/main/mainSlice.ts:98-107 | only `budgets` changes, as `updateBudget` prescribes |
| MainSlice.MainState.DeleteBudget | redux/main/mainSlice.ts:108-114 | only `budgets` changes, as `deleteBudget` prescribes |
| MainSlice.MainState.ReplaceBudget | redux/main/mainSlice.ts:163-194 | a list reply replaces the budgets under the `frontendId` prefix; any other reply is merged into the budget with that id and fails exactly when a missing reply is read |
| MainSlice.MainState.AddSubcategory | redux/main/mainSlice.ts:195-201 | only `categories` changes, and the table keeps one group per key |
| MainSlice.MainState.ReplaceSubcategory | redux/main/mainSlice.ts:202-232 | only `categories` changes, as `replaceSubcategoryAction` prescribes |
| MainSlice.MainState.UpdateSubcategory | redux/main/mainSlice.ts:233-275 | only `categories` changes, as the intended `updateSubcategoryAction` prescribes |
| MainSlice.MainState.DeleteSubcategory | redux/main/mainSlice.ts:276-289 | only `categories` changes, as the intended `deleteSubcategoryAction` prescribes |
| MainSlice.MainState.AddGroupCategory | redux/main/mainSlice.ts:290-297 | only `categories` changes: the group is written with no subcategories |
| MainSlice.MainState.UpdateGroupCategory | redux/main/mainSlice.ts:298-307 | only `categories` changes: name and colour of an existing group |
| MainSlice.MainState.DeleteGroupCategory | redux/main/mainSlice.ts:308-311 | only `categories` changes: the key is deleted |
| MainSlice.MainState.ReplaceGroupCategory | redux/main/mainSlice.ts:312-328 | only `categories` changes, as the corrected re-keying prescribes |
| MainSlice.MainState.AddExchangeRate | redux/main/mainSlice.ts:334-346 | only `exchangeRates` changes: an upsert on (code, date) |
| MainSlice.MainState.AddBidAskExchangeRate | redux/main/mainSlice.ts:352-368 | only `bidAskExchangeRates` changes: an upsert on (code, date) |
| MainSlice.ScanForHolder | redux/main/mainSlice.ts:241-250 | the loop over the keys finds the last group holding the subcategory |
| MainSlice.PruneGroups | redux/main/mainSlice.ts:279-288 | the loop over the keys removes the subcategory from each visited group |
| MainReducers.UpdateFirst | redux/main/mainSlice.ts:68-77 | only the first matching element is replaced; with no match nothing changes |
| MainReducers.RemoveFirst | redux/main/mainSlice.ts:108-114 | only the first matching element is spliced out; with no match nothing changes |
| MainReducers.UpdateFirstIdempotent | redux/main/mainSlice.ts:142-153 | with at most one match, updating twice with an idempotent update is updating once |
| MainReducers.AddExpenses | redux/main/mainSlice.ts:59-67 | the old expenses stay as a prefix and the new ones follow in order with formatted dates |
| MainReducers.UpdateExpenseIn | redux/main/mainSlice.ts:68-77 | the length is kept, entries with another id are unchanged, and the first entry with that id becomes the stored expense |
| MainReducers.RemoveExpenses | redux/main/mainSlice.ts:132-136 | no remaining expense has that id string and every other expense remains |
| MainReducers.ReplaceExpenses | redux/main/mainSlice.ts:142-153 | the length is kept, entries with another id string are unchanged, and the reply is merged into the first entry with that id string |
| MainReducers.ReplaceExpensesIdempotent | redux/main/mainSlice.ts:142-153 | applying the same reply twice gives the same expenses as applying it once |
| MainReducers.AddIncomes | redux/main/mainSlice.ts:78-86 | the old incomes stay as a prefix and the new ones follow in order with formatted dates |
| MainReducers.UpdateIncomeIn | redux/main/mainSlice.ts:115-124 | the length is kept, entries with another id are unchanged, and the first entry with that id becomes the stored income |
| MainReducers.RemoveIncomes | redux/main/mainSlice.ts:137-141 | no remaining income has that id string and every other income remains |
| MainReducers.ReplaceIncomes | redux/main/mainSlice.ts:154-162 | the length is kept, entries with another id string are unchanged, and the reply is merged into the first entry with that id string |
| MainReducers.ReplaceIncomesIdempotent | redux/main/mainSlice.ts:154-162 | applying the same reply twice gives the same incomes as applying it once |
| MainReducers.AddBudgets | redux/main/mainSlice.ts:87-97 | the old budgets stay as a prefix; each new budget follows with its id and amount, and a `yearMonth` formatted from its date when it has one |
| MainReducers.UpdateBudgetIn | redux/main/mainSlice.ts:98-107 | the length is kept, and a payload without an id changes nothing |
| MainReducers.UpdateBudgetInEffect | redux/main/mainSlice.ts:98-107 | only the first budget with the payload's id changes, and it takes the payload's fields |
| MainReducers.DeleteBudgetIn | redux/main/mainSlice.ts:108-114 | with no match nothing changes; otherwise exactly the first budget with that id is spliced out |
| MainReducers.ReplaceBudgetList | redux/main/mainSlice.ts:166-178 | new length = old length − budgets with the prefix + reply length; no kept budget has the prefix; every budget without it remains; the reply's budgets are appended with their month |
| MainReducers.ReplaceBudgetObject | redux/main/mainSlice.ts:179-193 | with no budget of that id nothing changes; it throws exactly when such a budget exists and the reply is missing; the length is kept |
| MainReducers.ReplaceBudgetObjectEffect | redux/main/mainSlice.ts:179-193 | only the first budget with that id changes: the reply is merged into it and its `yearMonth` overwritten |
| MainReducers.AddSubcategoryTo | redux/main/mainSlice.ts:195-201 | with no such group nothing changes |
| MainReducers.AddSubcategoryEffect | redux/main/mainSlice.ts:195-201 | the group gets the subcategory last; the keys and every other group are unchanged |
| MainReducers.LeaveGroupEffect | redux/main/mainSlice.ts:210-214 | the previous group no longer holds the temporary record; the keys and every other group are unchanged |
| MainReducers.JoinGroupEffect | redux/main/mainSlice.ts:217-219 | the new group gets the server's record last; the keys and every other group are unchanged |
| MainReducers.MoveSubcategoryEffect | redux/main/mainSlice.ts:208-219 | after a move the previous group no longer holds the temporary record and the new group ends with the server's record; the keys are kept and every other group is unchanged |
| MainReducers.ReplaceInPlaceEffect | redux/main/mainSlice.ts:220-231 | without a move, the server's record is written at the index of the first record with the temporary id; with no such group or record nothing changes; every other group and the keys are unchanged |
| MainReducers.ReplaceSubcategoryEffect | redux/main/mainSlice.ts:202-232 | a moved record leaves the previous group and ends the new one; an unmoved one takes the temporary record's index; no group besides those two changes |
| MainReducers.AddGroup | redux/main/mainSlice.ts:290-297 | a new key is appended with an empty group |
| MainReducers.UpdateGroup | redux/main/mainSlice.ts:298-307 | a missing group means no change |
| MainReducers.UpdateGroupEffect | redux/main/mainSlice.ts:298-307 | the group gets the new name and colour and keeps its subcategories; the keys and every other group are unchanged |
| MainReducers.DeleteGroupEffect | redux/main/mainSlice.ts:308-311 | exactly the group's key is removed; every other group is unchanged |
| MainReducers.ReplaceGroupAsWritten | redux/main/mainSlice.ts:312-328 | as written: with no group under `frontendId` nothing changes |
| MainReducers.ReplaceGroupLosesGroup | redux/main/mainSlice.ts:324-326 | as written, re-keying group "7" with a reply for group 7 deletes it |
| MainReducers.ReplaceGroup | redux/main/mainSlice.ts:312-328 | corrected: with no group under `frontendId` nothing changes |
| MainReducers.ReplaceGroupEffect | redux/main/mainSlice.ts:312-328 | the server's key gets the reply's name and colour with the old subcategories, the temporary key is gone when it differs, and no other group changes |
| MainReducers.Upsert | redux/main/mainSlice.ts:334-346 | the length grows by at most one, the new rate is present, rates with another key remain, and nothing else appears |
| MainReducers.UpsertKeepsKeysUnique | redux/main/mainSlice.ts:334-368 | an upsert never creates a second entry for the same (code, date) |
| MainReducers.SourcesByOwnerCorrect | redux/main/mainSlice.ts:385-392 | each owner appears once with a duplicate-free list, and a source is listed under an owner exactly when some income of that owner has it |
| MainReducers.AddSourceCorrect | redux/main/mainSlice.ts:386-390 | one reduce step keeps the lists well formed and adds exactly the (owner, source) pair |
| SubcategoryScan.PositionIn | redux/main/mainSlice.ts:243-245 | the index of the first subcategory with that id, or −1 exactly when there is none |
| SubcategoryScan.ScanAsWritten | redux/main/mainSlice.ts:241-250 | a completed scan names an existing group and a valid index |
| SubcategoryScan.ScanCrashes | redux/main/mainSlice.ts:241-243 | a key whose parsed group is missing makes the scan throw |
| SubcategoryScan.UpdateAsWrittenThrows | redux/main/mainSlice.ts:241-243 | as written, the reducer throws whenever some key does not read back through `parseInt` |
| SubcategoryScan.UpdateThrowsBesideTemporaryGroup | redux/main/mainSlice.ts:241-243 | editing a subcategory of group 1 throws while a group `f_g_a1` exists |
| SubcategoryScan.FindHolder | redux/main/mainSlice.ts:241-250 | a found holder is a visited key whose group holds the subcategory at that index |
| SubcategoryScan.FindHolderSnoc | redux/main/mainSlice.ts:241-250 | one more key: a later group holding the subcategory wins |
| SubcategoryScan.UpdateSubcategoryKeepsGroups | redux/main/mainSlice.ts:233-275 | an edit keeps the set of group keys, and an edit of an absent subcategory changes nothing |
| SubcategoryScan.UpdateAtKeepsGroups | redux/main/mainSlice.ts:252-274 | once the holder is known, the update keeps the group keys |
| SubcategoryScan.UpdateSubcategoryMoves | redux/main/mainSlice.ts:254-266 | a group change splices the record out and appends the merged record to the new group, or drops it when that group does not exist |
| SubcategoryScan.UpdateSubcategoryMergesInPlace | redux/main/mainSlice.ts:267-273 | without a group change the merged record takes the old one's place |
| SubcategoryScan.SameNumberIffSameKey | redux/main/mainSlice.ts:254 | for a numeric key, `parseInt(key) !== groupId` fails exactly when the key is the group id's string |
| SubcategoryScan.ParsedKeyCanonical | redux/main/mainSlice.ts:242 | a numeric key reads back through `parseInt` as itself |
| SubcategoryScan.ScanAgrees | redux/main/mainSlice.ts:241-250 | on numeric keys the scan as written finds the intended holder |
| SubcategoryScan.UpdateAgreesOnHolder | redux/main/mainSlice.ts:252-274 | once the scans agree, the reducer as written makes the intended change |
| SubcategoryScan.UpdateAgreesOnNumericKeys | redux/main/mainSlice.ts:233-275 | on a table with numeric keys only, the reducer as written does what is intended |
| SubcategoryScan.PrunedMembers | redux/main/mainSlice.ts:282-286 | a pruned group keeps exactly the subcategories with another id string |
| SubcategoryScan.DeleteAsWrittenSkipsTemporaryGroup | redux/main/mainSlice.ts:279-288 | as written, a subcategory of a group `f_g_a1` survives its deletion |
| SubcategoryScan.DeleteFromSnoc | redux/main/mainSlice.ts:279-288 | one more key prunes that key's group |
| SubcategoryScan.PrunedTwice | redux/main/mainSlice.ts:282-286 | pruning twice is pruning once |
| SubcategoryScan.DeleteFromEffect | redux/main/mainSlice.ts:279-288 | every visited group is pruned, every other group is unchanged, and the keys are kept |
| SubcategoryScan.DeleteSubcategoryEffect | redux/main/mainSlice.ts:276-289 | after a deletion no group holds that id string and every other subcategory stays in its group |
| Sync.SyncState.constructor | types.ts:94-100 | the queue starts empty with no errors |
| Sync.SyncState.AddToQueue | types.ts:79-92 | one pending, never-attempted operation is appended; the errors are unchanged |
| Sync.SyncState.RemoveFromQueue | redux/main/thunks.ts:840 | the queue loses the operations with that id; the errors are unchanged; unique ids stay unique |
| Sync.SyncState.SetOperationStatus | redux/main/thunks.ts:810 | only the status of the operation with that id changes |
| Sync.SyncState.IncrementRetryCount | redux/main/thunks.ts:844-846 | the operation with that id counts one more attempt and is rescheduled by the policy |
| Sync.SyncState.SetSyncError | redux/main/thunks.ts:847 | the error is recorded under the id; the queue is unchanged |
| Sync.Without | redux/main/thunks.ts:840 | exactly the operations with another id remain, and the id is gone |
| Sync.UpdateWhere | redux/main/thunks.ts:810 | the length is kept; operations with that id are changed, every other one is unchanged |
| Sync.Retried | redux/main/thunks.ts:844-846 | the retry count grows by one, the request is kept, and status and next time come from the policy |
| Sync.WithoutRemovesOne | redux/main/thunks.ts:840 | with unique ids, removal shrinks the queue by one exactly when the id was queued |
| Sync.RemoveUndoesAdd | redux/main/thunks.ts:840 | queueing under a fresh id and removing it again gives back the queue |
| Sync.UpdateWhereKeepsIds | redux/main/thunks.ts:810 | changing an operation in place keeps the queued ids and their uniqueness |
| Sync.WithoutAfterUpdate | redux/main/thunks.ts:810-840 | removing an operation after changing it is removing it |
| Sync.WithoutAllKeeps | redux/main/thunks.ts:78-80 | removing ids one after the other keeps exactly the operations whose id is not listed |
| Sync.CancelSelected | redux/main/thunks.ts:73-80 | with unique ids, cancelling the selected operations leaves exactly the unselected ones, in order |
| Reconcile.RunReducer | redux/main/thunks.ts:830-837 | a reconciler that does not throw leaves categories, snackbar, sources and rates unchanged |
| Reconcile.RunReducerNoops | redux/main/thunks.ts:40-51 | the `add*` reconcilers always throw on `{frontendId, resp}`, and the `update*` ones and `deleteBudget` change nothing |
| Reconcile.SyncSuccess | redux/main/thunks.ts:823-842 | a success removes the operation, keeps the errors, leaves the reconciled slice, and resolves with the reply's data |
| Reconcile.SyncFailure | redux/main/thunks.ts:843-850 | a failure leaves the slice unchanged, keeps every operation with one more attempt counted, records the error, and does not rethrow |
| Reconcile.UnregisteredCallbackOnlyRemoves | redux/main/thunks.ts:825-840 | a callback that is not a reducer key only removes the operation |
| Reconcile.CategoryReconcilersNotRegistered | redux/main/thunks.ts:40-51 | the subcategory and group reconcilers are not reducer keys |
| Reconcile.DrainStep | redux/main/thunks.ts:222-238 | draining one more operation is one more executor step with its `main` segment dropped |
| Reconcile.DrainOfFailures | redux/main/thunks.ts:222-238 | when every request fails, the drain changes no entity and removes no operation |
| Reconcile.FetchIniResult | redux/main/thunks.ts:212-263 | the queue afterwards is the drained queue |
| Reconcile.FetchIniNeedsEmptyQueue | redux/main/thunks.ts:240-245 | if an operation survives the drain, the refusal is shown and no server data is installed |
| Reconcile.ExpenseRoundTrip | redux/main/mainSlice.ts:142-153 | an expense added under a fresh temporary id is the one its `replaceExpense` reply is merged into |
| Reconcile.ExpenseReplacedLast | redux/main/mainSlice.ts:142-153 | the merge lands on the appended expense; the others are unchanged |
| Reconcile.IncomeRoundTrip | redux/main/mainSlice.ts:154-162 | an income added under a fresh temporary id is the one its `replaceIncome` reply is merged into |
| Reconcile.IncomeReplacedLast | redux/main/mainSlice.ts:154-162 | the merge lands on the appended income; the others are unchanged |
| Dispatcher.Launch | hooks/index.ts:79-97 | an operation is sent exactly when its handler is `genericSync` under `main`, with that segment dropped and its own id as `operationId` |
| Dispatcher.SelectNext | hooks/index.ts:40-67 | nothing happens offline or with an empty queue; a timer delay is never negative |
| Dispatcher.PendingFirst | hooks/index.ts:49-50 | the first pending operation is sent, ahead of any retrying one |
| Dispatcher.DueHead | hooks/index.ts:51-54 | the sorted due operations start with the earliest, the first in queue order on a tie |
| Dispatcher.EarliestRetry | hooks/index.ts:51-67 | with nothing pending, the earliest due operation is sent once its time has passed; before that a timer for the time left is armed |
| Dispatcher.NothingEligibleIdle | hooks/index.ts:46-67 | with nothing pending or due, nothing is sent and no timer armed |
| Dispatcher.ChooseIgnoresIneligible | hooks/index.ts:49-54 | the choice only depends on the pending and due operations |
| Dispatcher.IneligibleIgnored | hooks/index.ts:49-54 | operations that are processing or failed, and retrying ones without a time, never influence the decision |
| Selectors.Rendered | redux/main/selectors.ts:118-124 | a listed subcategory keeps its fields, carries its group's name, and has a colour starting with `#` |
| Selectors.RenderGroup | redux/main/selectors.ts:118-124 | one listed item per subcategory of the group |
| Selectors.FlattenLength | redux/main/selectors.ts:116-127 | the flattened list has one item per subcategory |
| Selectors.SubCountPermutation | redux/main/selectors.ts:115 | the count does not depend on the enumeration order of the groups |
| Selectors.SelectCategoriesLength | redux/main/selectors.ts:112-129 | `selectCategories` has one item per subcategory of the table |
| Selectors.FlattenMembers | redux/main/selectors.ts:116-127 | an item is flattened exactly when it is some group's subcategory rendered with that group's name |
| Selectors.SelectCategoriesMembers | redux/main/selectors.ts:112-129 | an item is listed exactly when it is some group's subcategory rendered with that group's name |
| Selectors.MainCategoriesPairs | redux/main/selectors.ts:177-190 | one `[name, key]` pair per group, keys in `Object.keys` order, each with its group's name, and every key appears |
| Selectors.Counted | redux/main/selectors.ts:149-152 | each category is paired with the number of expenses in it |
| Selectors.NameOrder | redux/main/selectors.ts:136 | the name comparator is total and transitive |
| Selectors.UsageOrder | redux/main/selectors.ts:155-160 | the usage-then-name comparator is total and transitive |
| Selectors.ByUsageWithoutExpenses | redux/main/selectors.ts:133-137 | without expenses the result is a permutation of the categories sorted by name |
| Selectors.SortedHeadThenResorted | redux/main/selectors.ts:162-168 | keeping a sorted head and re-sorting the rest is a permutation whose head precedes everything |
| Selectors.ByUsageWithExpenses | redux/main/selectors.ts:139-168 | with expenses the result is a permutation with usage counts; the first min(3, n) are the most used (ties by name) and the rest are sorted by name |
| Selectors.CategorySpendIsTotal | redux/main/selectors.ts:285-299 | a category budget spends exactly the prices of the month's expenses in its category |
| Selectors.GroupSpend | redux/main/selectors.ts:287-292 | a group budget throws exactly when an expense of the month is in an unlisted category |
| Selectors.GroupSpendIsTotal | redux/main/selectors.ts:285-292 | a group budget that does not throw spends exactly the prices of the expenses whose listed subcategory belongs to the group |
| Selectors.GroupName | redux/main/selectors.ts:278-280 | a group card's name is the group name of the first subcategory in that group, or "" when there is none |
| Selectors.CategoryName | redux/main/selectors.ts:281-283 | a category card's name is the name of the first subcategory with that id, or "" when there is none |
| Selectors.MapAll | redux/main/selectors.ts:272-303 | the map throws exactly when one card throws; otherwise one card per budget, in order |
| Selectors.Cards | redux/main/selectors.ts:264-303 | the cards throw exactly when one budget's card throws; otherwise one card per budget |
| Selectors.SelectBudgetsCards | redux/main/selectors.ts:257-305 | one card per budget of the requested month, in order, with its id, month, allocated amount and name (the group's or the category's), and the month's spending in its category or in its group |
| Selectors.SelectBudgetsThrows | redux/main/selectors.ts:257-305 | it throws exactly for a budget without a month, or a group budget in a month with an expense in an unlisted category |
| Selectors.CardsThrow | redux/main/selectors.ts:272-303 | the cards of the corrected selector throw exactly as a group budget with an unlisted expense demands |
| Selectors.CardThrows | redux/main/selectors.ts:273-300 | one corrected card throws exactly when it is a group budget with an unlisted expense |
| Selectors.CardsAgree | redux/main/selectors.ts:274 | on budgets that all carry a `groupId`, the group test as written and the corrected one give the same cards |
| Selectors.SelectBudgetsAgreeOnServerBudgets | redux/main/selectors.ts:274 | on server budgets the selector as written and the corrected one agree |
| Selectors.March2024 | redux/main/selectors.ts:257 | `"2024-03"` splits into year and month |
| Selectors.ExampleCards | redux/main/selectors.ts:272-300 | a budget with no `groupId` gets an empty name and zero spent as written, its category's name and spending as corrected |
| Selectors.CardsOfOne | redux/main/selectors.ts:264-303 | the cards of one budget are its card |
| Selectors.NewBudgetShownAsGroup | redux/main/selectors.ts:274 | as written, a budget just created on the device is shown with no name and nothing spent; corrected, with its category and its spending |
| Selectors.LatestIsFirstMaximal | redux/main/selectors.ts:324-326 | the reduce returns the first rate with the greatest date |
| Selectors.LatestExchangeRate | redux/main/selectors.ts:314-328 | no rate exactly when no stored rate has the code (ignoring case); otherwise a stored rate of that code with the greatest date |
| Selectors.FilterCatWidens | redux/main/selectors.ts:20-23 | a non-empty filter only widens when names are added, and a record passes the filter of its own category |
| Changelog.ParseChangelog | utils/parseChangelog.ts:12-61 | the loop over the lines returns exactly the fold of one step per line |
| Changelog.SpaceRun | utils/parseChangelog.ts:20 | the white-space run stops at the first non-space character |
| Changelog.SpacedRest | utils/parseChangelog.ts:20 | a `\s+(.+)$` capture is non-empty, on one line, and a proper suffix |
| Changelog.HeaderOf | utils/parseChangelog.ts:20 | only a line starting with `##` can be a header |
| Changelog.BulletOf | utils/parseChangelog.ts:51 | a bullet's text is non-empty and on one line |
| Changelog.AddBullet | utils/parseChangelog.ts:53-55 | the section's list becomes its old list (or an empty one) plus the text; version, date and the other lists are unchanged |
| Changelog.FirstCloseBracket | utils/parseChangelog.ts:20 | the version capture ends at the first `]` |
| Changelog.HeaderRoundTrip | utils/parseChangelog.ts:20 | `## [version] - date` reads back as that version and date |
| Changelog.HeaderShape | utils/parseChangelog.ts:20-27 | a header's version is non-empty without `]`, and its date is non-empty on one line |
| Changelog.BulletRoundTrip | utils/parseChangelog.ts:51 | `- text` reads back as the text |
| Changelog.ClassifyHeaderLine | utils/parseChangelog.ts:19-30 | the usual header line reaches the loop as a header |
| Changelog.ClassifyBulletLine | utils/parseChangelog.ts:51-56 | the usual bullet line reaches the loop as a bullet |
| Changelog.HeaderIsNotBullet | utils/parseChangelog.ts:20 | a header line is never a bullet |
| Changelog.StepTitles | utils/parseChangelog.ts:19-30 | one step adds a title exactly for a header line |
| Changelog.RunTitles | utils/parseChangelog.ts:18-57 | the titles after the loop are the earlier ones plus the header captures in line order |
| Changelog.ParseTitles | utils/parseChangelog.ts:59-60 | one entry per header line, in line order, carrying that line's version and date |
| Changelog.RunFilled | utils/parseChangelog.ts:51-56 | the loop never leaves an empty section list |
| Changelog.ParseListsFilled | utils/parseChangelog.ts:53-55 | a section list exists only once a bullet has landed in it |
| Changelog.BulletsBeforeSectionDropped | utils/parseChangelog.ts:28 | after a header, bullets before the first section line are dropped |
| Changelog.BulletsLandInSection | utils/parseChangelog.ts:33-56 | bullets under a section line land in that section in order, and no other list changes |
| CategoryTable.EntriesPermutation | redux/main/selectors.ts:115 | `Object.entries` visits every property exactly once |
| CategoryTable.EntriesOrder | redux/main/selectors.ts:115 | array-index keys come first in ascending numeric order, then the other keys in creation order |
| CategoryTable.KeyListKeys | redux/main/mainSlice.ts:241 | `Object.keys` lists exactly the keys of the table |
| Js.ParseIntCanonical | redux/main/mainSlice.ts:242 | `parseInt` of a canonical numeral is its value |
| Js.SplitJoin | utils/parseChangelog.ts:13 | joining the split lines gives back the text |

## Left out

- The HTTP requests of `genericSync`, `fetchIni` and `fetchExchangeRate` are not modelled. The server's replies are inputs (`Reply`, `fetched`).
- Timers and the clock are parameters (`now`, `today`, `weekAgo`).
  - The effect around the selection rule in `useSync` is not modelled: arming and clearing the timer and re-running on reload.
  - The deferred `fetchIni` after a callback named `fetchIni:…` (redux/main/thunks.ts:826-828) is not modelled.
- Concurrency is not modelled. `useSync` does not check for an operation already processing, so operations can overlap; only one step at a time is modelled.
- Identifiers drawn at random (`makeNewIdArr`, `makeRandomId`) and the queue's operation ids are parameters. They are not required to be fresh, because the code does not check that.
- The queue's reducers (the sync slice) are not part of this model's sources. They are modelled by what the thunks use them for.
  - How a failed attempt is rescheduled, and the retry ceiling `MAX_RETRIES`, are the parameter `RetryPolicy`.
  - `lastSyncTimestamp`, `isSyncing` and `shouldReload` are not modelled.
- date-fns `format` is the parameter `DateFormat`.
- `localeCompare` is code-point order on strings.
- Prices and amounts are `real`. Floating-point rounding is not modelled.
- `_aggregated` (`aggregateDataByDay`) is not modelled.
- `startLoading`, `stopLoading`, `toggleDevMode`, `clearDevMode` and `dropMain` are not modelled: they only set flags outside the sync engine.
- The direct-fetch thunks are not modelled: `uploadBudget`, `handleCategory`, `handleDeleteCategory`, `handleDeleteGroupCategory`, `handleGroupCategory`, `uploadFile` and `deleteExpense`.
- `selectRecords`, `selectComparison`, `selectByTimeRange` and the other selectors are not modelled, apart from `filterCat`.
- The parse of the bundled change log (constants/changelog.ts) is not modelled. constants/changelog.ts is not part of this model. The properties of `parseChangelog` are proved for every input instead.
- Reconcile.RunReducer: the message of a reconciler that throws is the constant `TypeError`, not the engine's exact text.
- Reconcile.RunReducer: a server reply is a typed record. A reply of another entity's shape spreads no field.
- Selectors.LatestExchangeRate: dates are compared as strings, not as parsed `Date` values. The two orders agree for `yyyy-MM-dd` dates.
- Thunks.CachedRateIsLatest: the window bounds are compared as strings, as the code does. The order of `localeCompare` is taken as code-point order.
- Thunks.Store.UpdateSubcategoryLocal: applies the corrected reducer and the corrected colour. The code as written throws beside a temporary `f_g_` group, and then the thunk rejects and queues nothing. That behaviour is modelled only by SubcategoryScan.UpdateAsWritten.
- Thunks.Store.DeleteSubcategoryLocal: applies the corrected key scan. As written, a subcategory of a temporary group survives (SubcategoryScan.DeleteAsWritten).
- MainSlice.MainState.UpdateSubcategory: applies the corrected key scan, not the `parseInt` lookup that throws beside a temporary group.
- MainSlice.MainState.DeleteSubcategory: applies the corrected key scan, not the `parseInt` lookup that skips temporary groups.
- MainSlice.MainState.ReplaceGroupCategory: applies the corrected re-keying, not the strict comparison that deletes the group just written.
- Selectors.SelectCategoriesByUsage: without expenses the code sorts the memoized array of `selectCategories` in place. Later readers of `selectCategories` then see name order until the categories change. The model sorts a copy, so this aliasing is not captured.
- Selectors.Rendered: only the leading `#` and the kept fields are stated. The exact colour follows the code.
- Js.ParseIntCanonical: `parseInt` is modelled on decimal numerals with an optional sign. Other radixes and leading white space are not modelled.

## Findings

| source | as written | input that shows it | evidently intended | confidence | as-written member | corrected member |
|---|---|---|---|---|---|---|
| redux/main/mainSlice.ts:324-326 | the old key is deleted when `frontendId !== resp.id`, a strict comparison of the string key with the numeric server id | group under key "7", reply `{id: 7}`: the group just written under "7" is deleted, with its subcategories | delete the old key only when it differs from the server id's string (latent: `replaceGroupCategoryAction` is not a registered reconciler, so the executor never reaches it) | not executed | MainReducers.ReplaceGroupLosesGroup | MainReducers.ReplaceGroupEffect |
| redux/main/selectors.ts:274 | `isGroup = groupId !== null` | a budget created on the device has no `groupId` (undefined): it is shown as a group budget with no name and nothing spent | a budget is a group budget only when it names a group | not executed | Selectors.NewBudgetShownAsGroup | Selectors.SelectBudgetsCards |
| redux/main/thunks.ts:497 | `updateSubcategoryLocal` stores the payload with its `#rrggbb` colour, while the request sends `rrggbb` | edit a subcategory in place with colour `#00ff00`: `selectCategories` shows `##00ff00` | store the hex digits the request sends, as `addSubcategoryLocal` does | not executed | Thunks.EditedColourShownWithTwoHashes | Thunks.EditedColourShownAsPicked |
| redux/main/mainSlice.ts:241-243 | each key is looked up as `categories[parseInt(key)]` | groups "1" and "f_g_a1"; edit the subcategory of group 1: `categories[NaN].subcategories` throws | look each group up by its own key | not executed | SubcategoryScan.UpdateThrowsBesideTemporaryGroup | SubcategoryScan.UpdateSubcategoryMoves |
| redux/main/mainSlice.ts:279-288 | each key is looked up as `categories[parseInt(key)]` and skipped when missing | a subcategory `f_x1` in the new group `f_g_a1`: deleting it leaves it in place | look each group up by its own key | not executed | SubcategoryScan.DeleteAsWrittenSkipsTemporaryGroup | SubcategoryScan.DeleteSubcategoryEffect |
