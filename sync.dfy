/** The queue of remote operations (the sync slice, types.ts): every local
    change appends one operation, and the dispatcher drains it. The queue's
    own reducers are outside this model's sources, so they are modelled by
    what they are used for: append a pending operation, remove one by id, set
    its status, count a failed attempt, and record an error. How a failed
    attempt is rescheduled (the back-off and the retry ceiling) is a
    parameter, `RetryPolicy`. */
module Sync {
  import opened Js
  import opened Entities

  datatype Status = Pending | Processing | Retrying | Failed

  datatype HttpMethod = Post | Put | Delete | Patch

  /** The request body an operation carries (`data`). `NoData` is a missing
      body, `EmptyBody` the empty object `{}`. */
  datatype OpData =
    | NoData
    | EmptyBody
    | ExpenseData(expense: Expense)
    | IncomeData(income: IncomePatch)
    | BudgetData(budget: BudgetPatch)
    | SubcategoryData(name: string, color: string, groupId: Id)
    | GroupData(name: string, color: string)

  /** What a thunk passes to `addToQueue`. */
  datatype OpRequest = OpRequest(
    path: seq<string>,
    verb: HttpMethod,
    handler: string,
    data: OpData,
    cb: Option<string>,
    frontendId: Option<string>)

  /** A queued operation (`SyncOperation`). */
  datatype SyncOperation = SyncOperation(
    id: string,
    request: OpRequest,
    timestamp: int,
    retryCount: nat,
    status: Status,
    lastAttempt: Option<int>,
    nextRetryAt: Option<int>)

  /** The operation `addToQueue` appends: pending, never attempted. */
  function Queued(id: string, timestamp: int, req: OpRequest): SyncOperation {
    SyncOperation(id, req, timestamp, 0, Pending, None, None)
  }

  /** How the queue reschedules an operation after its n-th failed attempt. */
  datatype RetryDecision = RetryDecision(status: Status, lastAttempt: Option<int>, nextRetryAt: Option<int>)

  type RetryPolicy = nat -> RetryDecision

  function Ids(ops: seq<SyncOperation>): set<string> {
    set op | op in ops :: op.id
  }

  predicate IdsUnique(ops: seq<SyncOperation>) {
    forall i, j :: 0 <= i < j < |ops| ==> ops[i].id != ops[j].id
  }

  /** `removeFromQueue(id)` */
  function Without(ops: seq<SyncOperation>, id: string): (r: seq<SyncOperation>)
    ensures forall op :: op in r <==> op in ops && op.id != id
    ensures id !in Ids(r)
  {
    FilterMembers(ops, NotId(id));
    Filter(ops, NotId(id))
  }

  function NotId(id: string): SyncOperation -> bool {
    (op: SyncOperation) => op.id != id
  }

  function NotIn(ids: seq<string>): SyncOperation -> bool {
    (op: SyncOperation) => op.id !in ids
  }

  /** The operations with `id` changed by `f`, every other one as it was. */
  function UpdateWhere(ops: seq<SyncOperation>, id: string, f: SyncOperation -> SyncOperation): (r: seq<SyncOperation>)
    ensures |r| == |ops|
    ensures forall i :: 0 <= i < |ops| && ops[i].id != id ==> r[i] == ops[i]
    ensures forall i :: 0 <= i < |ops| && ops[i].id == id ==> r[i] == f(ops[i])
  {
    seq(|ops|, i requires 0 <= i < |ops| => if ops[i].id == id then f(ops[i]) else ops[i])
  }

  /** `setOperationStatus` */
  function WithStatus(ops: seq<SyncOperation>, id: string, s: Status): seq<SyncOperation> {
    UpdateWhere(ops, id, (op: SyncOperation) => op.(status := s))
  }

  /** `incrementRetryCount`: one more failed attempt, rescheduled by the policy. */
  function Retried(op: SyncOperation, policy: RetryPolicy): (r: SyncOperation)
    ensures r.retryCount == op.retryCount + 1
    ensures r.id == op.id && r.request == op.request && r.timestamp == op.timestamp
    ensures r.status == policy(r.retryCount).status && r.nextRetryAt == policy(r.retryCount).nextRetryAt
  {
    var d := policy(op.retryCount + 1);
    op.(retryCount := op.retryCount + 1, status := d.status, lastAttempt := d.lastAttempt, nextRetryAt := d.nextRetryAt)
  }

  function WithRetry(ops: seq<SyncOperation>, id: string, policy: RetryPolicy): seq<SyncOperation> {
    UpdateWhere(ops, id, (op: SyncOperation) => Retried(op, policy))
  }

  /** Removing an operation takes away exactly the entry with that id: with
      unique ids the queue shrinks by one when the id was queued, and every
      other operation keeps its place in order. */
  lemma {:induction false} WithoutRemovesOne(ops: seq<SyncOperation>, id: string)
    requires IdsUnique(ops)
    ensures IdsUnique(Without(ops, id))
    ensures |Without(ops, id)| == if id in Ids(ops) then |ops| - 1 else |ops|
  {
    if ops != [] {
      WithoutRemovesOne(ops[1..], id);
      var rest := Without(ops[1..], id);
      assert Ids(ops) == {ops[0].id} + Ids(ops[1..]) by {
        assert forall op :: op in ops <==> op == ops[0] || op in ops[1..];
      }
      if ops[0].id == id {
        assert id !in Ids(ops[1..]) by {
          forall op | op in ops[1..] ensures op.id != id {
            var k :| 0 <= k < |ops[1..]| && ops[1..][k] == op;
            assert ops[k + 1] == op;
          }
        }
        assert Without(ops, id) == rest;
      } else {
        assert Without(ops, id) == [ops[0]] + rest;
        forall k | 0 <= k < |rest| ensures rest[k].id != ops[0].id {
          assert rest[k] in ops[1..];
          var m :| 0 <= m < |ops[1..]| && ops[1..][m] == rest[k];
          assert ops[m + 1] == rest[k];
        }
      }
    }
  }

  /** Queueing an operation under a fresh id and removing it again gives back the queue. */
  lemma RemoveUndoesAdd(ops: seq<SyncOperation>, id: string, timestamp: int, req: OpRequest)
    requires id !in Ids(ops)
    ensures Without(ops + [Queued(id, timestamp, req)], id) == ops
  {
    var p := (op: SyncOperation) => op.id != id;
    FilterAppend(ops, [Queued(id, timestamp, req)], p);
    assert forall op :: op in ops ==> p(op);
    FilterKeepsAll(ops, p);
    assert Filter([Queued(id, timestamp, req)], p) == [];
  }

  lemma {:induction false} FilterKeepsAll<T>(s: seq<T>, p: T -> bool)
    requires forall x :: x in s ==> p(x)
    ensures Filter(s, p) == s
  {
    if s != [] {
      FilterKeepsAll(s[1..], p);
    }
  }

  /** Changing operations in place never changes which ids are queued. */
  lemma UpdateWhereKeepsIds(ops: seq<SyncOperation>, id: string, f: SyncOperation -> SyncOperation)
    requires forall op :: f(op).id == op.id
    ensures Ids(UpdateWhere(ops, id, f)) == Ids(ops)
    ensures IdsUnique(ops) ==> IdsUnique(UpdateWhere(ops, id, f))
  {
    var r := UpdateWhere(ops, id, f);
    assert forall i :: 0 <= i < |ops| ==> r[i].id == ops[i].id;
    forall x | x in Ids(r) ensures x in Ids(ops) {
      var op :| op in r && op.id == x;
      var i :| 0 <= i < |r| && r[i] == op;
      assert ops[i] in ops;
    }
    forall x | x in Ids(ops) ensures x in Ids(r) {
      var op :| op in ops && op.id == x;
      var i :| 0 <= i < |ops| && ops[i] == op;
      assert r[i] in r;
    }
  }

  /** Removing an operation after changing it in place is removing it. */
  lemma {:induction false} WithoutAfterUpdate(ops: seq<SyncOperation>, id: string, f: SyncOperation -> SyncOperation)
    requires forall op :: f(op).id == op.id
    ensures Without(UpdateWhere(ops, id, f), id) == Without(ops, id)
  {
    if ops != [] {
      var r := UpdateWhere(ops, id, f);
      WithoutAfterUpdate(ops[1..], id, f);
      assert r[1..] == UpdateWhere(ops[1..], id, f);
      assert r[0].id == ops[0].id;
      if ops[0].id != id {
        assert r[0] == ops[0];
      }
    }
  }

  /** `ids.forEach(id => removeFromQueue(id))` */
  function WithoutAll(ops: seq<SyncOperation>, ids: seq<string>): seq<SyncOperation>
    decreases |ids|
  {
    if ids == [] then ops else WithoutAll(Without(ops, ids[0]), ids[1..])
  }

  lemma {:induction false} FilterBoth<T>(s: seq<T>, p: T -> bool, q: T -> bool, both: T -> bool)
    requires forall x :: both(x) == (p(x) && q(x))
    ensures Filter(Filter(s, p), q) == Filter(s, both)
  {
    if s != [] {
      FilterBoth(s[1..], p, q, both);
      var kept := Filter(s[1..], p);
      if p(s[0]) {
        var x := [s[0]] + kept;
        assert Filter(s, p) == x;
        assert x[0] == s[0] && x[1..] == kept;
        assert Filter(x, q) == (if q(s[0]) then [s[0]] else []) + Filter(kept, q);
      } else {
        assert Filter(s, p) == kept;
      }
    }
  }

  lemma {:induction false} FilterSame<T>(s: seq<T>, p: T -> bool, q: T -> bool)
    requires forall k :: 0 <= k < |s| ==> p(s[k]) == q(s[k])
    ensures Filter(s, p) == Filter(s, q)
  {
    if s != [] {
      FilterSame(s[1..], p, q);
    }
  }

  /** Removing a list of ids one after the other keeps exactly the operations whose id is not in the list. */
  lemma {:induction false} WithoutAllKeeps(ops: seq<SyncOperation>, ids: seq<string>)
    ensures WithoutAll(ops, ids) == Filter(ops, NotIn(ids))
    decreases |ids|
  {
    if ids == [] {
      FilterKeepsAll(ops, NotIn(ids));
    } else {
      WithoutAllKeeps(Without(ops, ids[0]), ids[1..]);
      assert forall x: string :: x in ids <==> x == ids[0] || x in ids[1..];
      FilterBoth(ops, NotId(ids[0]), NotIn(ids[1..]), NotIn(ids));
    }
  }

  /** The ids of the given operations, in order. */
  function IdList(ops: seq<SyncOperation>): (ids: seq<string>)
    ensures |ids| == |ops| && forall k :: 0 <= k < |ops| ==> ids[k] == ops[k].id
  {
    seq(|ops|, k requires 0 <= k < |ops| => ops[k].id)
  }

  /** With unique ids, cancelling the operations a filter selects, one id at a
      time, leaves exactly the operations the filter rejects, in order. */
  lemma CancelSelected(ops: seq<SyncOperation>, selected: SyncOperation -> bool)
    requires IdsUnique(ops)
    ensures WithoutAll(ops, IdList(Filter(ops, selected))) == Filter(ops, (op: SyncOperation) => !selected(op))
  {
    var ids := IdList(Filter(ops, selected));
    WithoutAllKeeps(ops, ids);
    FilterMembers(ops, selected);
    forall k | 0 <= k < |ops| ensures (ops[k].id !in ids) == !selected(ops[k]) {
      if selected(ops[k]) {
        assert ops[k] in Filter(ops, selected);
        var j :| 0 <= j < |Filter(ops, selected)| && Filter(ops, selected)[j] == ops[k];
        assert ids[j] == ops[k].id;
      }
    }
    FilterSame(ops, NotIn(ids), (op: SyncOperation) => !selected(op));
  }

  /** The sync slice as a value. */
  datatype QueueState = QueueState(ops: seq<SyncOperation>, errors: map<string, string>)

  /** The sync slice. */
  class SyncState {
    var pendingOperations: seq<SyncOperation>
    var syncErrors: map<string, string>

    function Snapshot(): QueueState
      reads this
    {
      QueueState(pendingOperations, syncErrors)
    }

    predicate Valid()
      reads this
    {
      IdsUnique(pendingOperations)
    }

    constructor ()
      ensures pendingOperations == [] && syncErrors == map[] && Valid()
    {
      pendingOperations := [];
      syncErrors := map[];
    }

    /** `addToQueue`; the queue names the operation `id` at time `timestamp`. */
    method AddToQueue(req: OpRequest, id: string, timestamp: int)
      modifies this
      ensures pendingOperations == old(pendingOperations) + [Queued(id, timestamp, req)]
      ensures syncErrors == old(syncErrors)
      ensures old(Valid()) && id !in Ids(old(pendingOperations)) ==> Valid()
    {
      pendingOperations := pendingOperations + [Queued(id, timestamp, req)];
      assert forall op :: op in old(pendingOperations) ==> op in pendingOperations[..|pendingOperations| - 1];
    }

    method RemoveFromQueue(id: string)
      modifies this
      ensures pendingOperations == Without(old(pendingOperations), id)
      ensures syncErrors == old(syncErrors)
      ensures old(Valid()) ==> Valid()
    {
      if Valid() {
        WithoutRemovesOne(pendingOperations, id);
      }
      pendingOperations := Without(pendingOperations, id);
    }

    method SetOperationStatus(id: string, s: Status)
      modifies this
      ensures pendingOperations == WithStatus(old(pendingOperations), id, s)
      ensures syncErrors == old(syncErrors)
      ensures old(Valid()) ==> Valid()
    {
      UpdateWhereKeepsIds(pendingOperations, id, (op: SyncOperation) => op.(status := s));
      pendingOperations := WithStatus(pendingOperations, id, s);
    }

    method IncrementRetryCount(id: string, policy: RetryPolicy)
      modifies this
      ensures pendingOperations == WithRetry(old(pendingOperations), id, policy)
      ensures syncErrors == old(syncErrors)
      ensures old(Valid()) ==> Valid()
    {
      UpdateWhereKeepsIds(pendingOperations, id, (op: SyncOperation) => Retried(op, policy));
      pendingOperations := WithRetry(pendingOperations, id, policy);
    }

    method SetSyncError(id: string, error: string)
      modifies this
      ensures syncErrors == old(syncErrors)[id := error]
      ensures pendingOperations == old(pendingOperations)
    {
      syncErrors := syncErrors[id := error];
    }
  }
}
