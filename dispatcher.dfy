/** The dispatcher's selection rule (`useSync` in hooks/index.ts). Each time
    the queue, the connection or a timer changes, it decides between sending
    one operation to `genericSync`, arming a timer, or doing nothing. The
    decision is a function of the queue, the clock and the connection. */
module Dispatcher {
  import opened Js
  import opened Sorting
  import opened Entities
  import opened Sync

  /** The arguments handed to `genericSync`. */
  datatype SyncArgs = SyncArgs(
    path: seq<string>,
    verb: HttpMethod,
    data: OpData,
    cb: Option<string>,
    operationId: string,
    frontendId: Option<string>)

  datatype Decision = Idle | Wait(delay: int) | Dispatch(args: SyncArgs)

  predicate IsPending(op: SyncOperation) {
    op.status == Pending
  }

  /** A retrying operation with a scheduled time. */
  predicate IsDue(op: SyncOperation) {
    op.status == Retrying && op.nextRetryAt.Some?
  }

  /** The only operations the rule ever looks at. */
  predicate Eligible(op: SyncOperation) {
    IsPending(op) || IsDue(op)
  }

  function RetryAt(op: SyncOperation): int {
    Or(op.nextRetryAt, 0)
  }

  /** The comparator `a.nextRetryAt - b.nextRetryAt`. */
  predicate RetryLe(a: SyncOperation, b: SyncOperation) {
    RetryAt(a) <= RetryAt(b)
  }

  datatype Choice = NoChoice | PendingOp(op: SyncOperation) | RetryOp(op: SyncOperation)

  /** The first pending operation, otherwise the head of the due operations sorted by time. */
  function Choose(ops: seq<SyncOperation>): Choice {
    var i := FindIndex(ops, IsPending);
    if i >= 0 then PendingOp(ops[i])
    else
      var due := SortBy(Filter(ops, IsDue), RetryLe);
      if due == [] then NoChoice else RetryOp(due[0])
  }

  /** Sending the chosen operation: only `genericSync` operations under the
      `main` handler group are sent, with that first path segment dropped. */
  function Launch(op: SyncOperation): (d: Decision)
    ensures d.Dispatch? <==> op.request.handler == "genericSync" && |op.request.path| > 0 && op.request.path[0] == "main"
    ensures d.Dispatch? ==>
      ["main"] + d.args.path == op.request.path && d.args.operationId == op.id
      && d.args.verb == op.request.verb && d.args.data == op.request.data
      && d.args.cb == op.request.cb && d.args.frontendId == op.request.frontendId
    ensures !d.Wait?
  {
    var r := op.request;
    if r.handler == "genericSync" && |r.path| > 0 && r.path[0] == "main" then
      Dispatch(SyncArgs(r.path[1..], r.verb, r.data, r.cb, op.id, r.frontendId))
    else Idle
  }

  /** The decision `useSync` takes. */
  function SelectNext(ops: seq<SyncOperation>, now: int, connected: bool): (d: Decision)
    ensures !connected || ops == [] ==> d == Idle
    ensures d.Wait? ==> d.delay >= 0
  {
    if !connected || ops == [] then Idle
    else match Choose(ops)
      case NoChoice => Idle
      case PendingOp(op) => Launch(op)
      case RetryOp(op) =>
        var canRun := now - RetryAt(op);
        if canRun > 0 then Launch(op) else Wait(-canRun)
  }

  /** A pending operation always goes ahead of retrying ones: the first pending one in queue order is launched. */
  lemma PendingFirst(ops: seq<SyncOperation>, now: int, i: int)
    requires 0 <= i < |ops| && IsPending(ops[i])
    requires forall j :: 0 <= j < i ==> !IsPending(ops[j])
    ensures SelectNext(ops, now, true) == Launch(ops[i])
  {
  }

  /** The sorted due operations start with the earliest one, the first in queue order on a tie. */
  lemma DueHead(ops: seq<SyncOperation>, i: int)
    requires 0 <= i < |ops| && IsDue(ops[i])
    requires forall j :: 0 <= j < |ops| && IsDue(ops[j]) ==> RetryAt(ops[i]) <= RetryAt(ops[j])
    requires forall j :: 0 <= j < i && IsDue(ops[j]) ==> RetryAt(ops[i]) < RetryAt(ops[j])
    ensures SortBy(Filter(ops, IsDue), RetryLe) != []
    ensures SortBy(Filter(ops, IsDue), RetryLe)[0] == ops[i]
  {
    var due := Filter(ops, IsDue);
    var before := Filter(ops[..i], IsDue);
    FilterAround(ops, IsDue, i);
    var k := |before|;
    assert due[k] == ops[i];
    DueAfter(ops, i, due, k);
    DueBefore(ops, i, due, k);
    SortHead(due, RetryLe, k);
  }

  lemma DueAfter(ops: seq<SyncOperation>, i: int, due: seq<SyncOperation>, k: int)
    requires 0 <= i < |ops| && due == Filter(ops, IsDue) && 0 <= k < |due| && due[k] == ops[i]
    requires forall j :: 0 <= j < |ops| && IsDue(ops[j]) ==> RetryAt(ops[i]) <= RetryAt(ops[j])
    ensures forall j :: 0 <= j < |due| ==> RetryLe(due[k], due[j])
  {
    FilterMembers(ops, IsDue);
    forall j | 0 <= j < |due| ensures RetryLe(due[k], due[j]) {
      assert due[j] in due;
      var m :| 0 <= m < |ops| && ops[m] == due[j];
    }
  }

  lemma DueBefore(ops: seq<SyncOperation>, i: int, due: seq<SyncOperation>, k: int)
    requires 0 <= i < |ops| && IsDue(ops[i]) && due == Filter(ops, IsDue)
    requires due == Filter(ops[..i], IsDue) + [ops[i]] + Filter(ops[i + 1..], IsDue)
    requires k == |Filter(ops[..i], IsDue)|
    requires forall j :: 0 <= j < i && IsDue(ops[j]) ==> RetryAt(ops[i]) < RetryAt(ops[j])
    ensures k < |due| && forall j :: 0 <= j < k ==> !RetryLe(due[j], due[k])
  {
    var before := Filter(ops[..i], IsDue);
    FilterMembers(ops[..i], IsDue);
    assert due[k] == ops[i];
    forall j | 0 <= j < k ensures !RetryLe(due[j], due[k]) {
      assert due[j] == before[j];
      assert before[j] in before;
      var m :| 0 <= m < i && ops[..i][m] == before[j];
      assert ops[m] == due[j];
    }
  }

  /** With nothing pending, the due operation with the earliest time (the
      first such in queue order on a tie) is launched once its time has
      passed; before that a timer is armed for the time left. */
  lemma EarliestRetry(ops: seq<SyncOperation>, now: int, i: int)
    requires forall j :: 0 <= j < |ops| ==> !IsPending(ops[j])
    requires 0 <= i < |ops| && IsDue(ops[i])
    requires forall j :: 0 <= j < |ops| && IsDue(ops[j]) ==> RetryAt(ops[i]) <= RetryAt(ops[j])
    requires forall j :: 0 <= j < i && IsDue(ops[j]) ==> RetryAt(ops[i]) < RetryAt(ops[j])
    ensures SelectNext(ops, now, true) ==
      if now - ops[i].nextRetryAt.value > 0 then Launch(ops[i]) else Wait(ops[i].nextRetryAt.value - now)
  {
    DueHead(ops, i);
  }

  /** With nothing pending and nothing due, nothing is launched and no timer is armed. */
  lemma NothingEligibleIdle(ops: seq<SyncOperation>, now: int, connected: bool)
    requires forall j :: 0 <= j < |ops| ==> !Eligible(ops[j])
    ensures SelectNext(ops, now, connected) == Idle
  {
    FilterNone(ops, IsDue);
  }

  /** The choice only depends on the eligible operations. */
  lemma ChooseIgnoresIneligible(ops: seq<SyncOperation>)
    ensures Choose(ops) == Choose(Filter(ops, Eligible))
  {
    var kept := Filter(ops, Eligible);
    FilterFilter(ops, Eligible, IsPending);
    FilterFilter(ops, Eligible, IsDue);
    FindIndexFirstKept(ops, IsPending);
    FindIndexFirstKept(kept, IsPending);
  }

  /** Operations that are processing or failed, and retrying ones with no
      time, never influence the decision: dropping them changes nothing. */
  lemma IneligibleIgnored(ops: seq<SyncOperation>, now: int, connected: bool)
    ensures SelectNext(ops, now, connected) == SelectNext(Filter(ops, Eligible), now, connected)
  {
    ChooseIgnoresIneligible(ops);
    var kept := Filter(ops, Eligible);
    if kept == [] {
      assert Choose(kept) == NoChoice;
    }
  }
}
