/**
 Durable acquisition leases (backend/acquisition/runner.py, backend/models/acquisition.py).

 A row is the durable state of one execution. Every database session of the workers, the
 sweeper and the API is one atomic step on it. AcquisitionRuns and AcquisitionSplitFinish
 look at all interleavings of such steps.
 */
module AcquisitionLease {
  import opened Common

  /** Lease ids are UUIDs. */
  type Owner = string

  const LEASE_SECONDS := 30

  datatype Status = Accepted | Queued | Running | Succeeded | Failed | Cancelled {
    predicate Terminal() {
      Succeeded? || Failed? || Cancelled?
    }

    /** AcquisitionExecutionStatus.cancel */
    function Cancel(): Status {
      if Accepted? || Queued? || Running? then Cancelled else this
    }
  }

  datatype Verdict = Success(payload: string) | Failure(code: string)

  datatype Row = Row(
    status: Status,
    startedAt: Option<int>,
    finishedAt: Option<int>,
    owner: Option<Owner>,
    heartbeatAt: Option<int>,
    leaseExpiresAt: Option<int>,
    verdict: Option<Verdict>
  ) {
    function Released(): Row {
      this.(owner := None, heartbeatAt := None, leaseExpiresAt := None)
    }

    predicate HeldBy(o: Owner) {
      status == Running && owner == Some(o)
    }

    predicate Expired(now: int) {
      leaseExpiresAt.None? || leaseExpiresAt.value <= now
    }
  }

  const NEW_ROW := Row(Accepted, None, None, None, None, None, None)

  // The update each session performs on the row; a compare-and-set that misses changes nothing.

  function ClaimRow(row: Row, o: Owner, now: int): Row {
    if row.status != Queued then row
    else row.(status := Running, startedAt := Some(now), owner := Some(o), heartbeatAt := Some(now),
              leaseExpiresAt := Some(now + LEASE_SECONDS))
  }

  function HeartbeatRow(row: Row, o: Owner, now: int): Row {
    if !row.HeldBy(o) then row
    else row.(heartbeatAt := Some(now), leaseExpiresAt := Some(now + LEASE_SECONDS))
  }

  function FinishedRow(row: Row, verdict: Verdict, now: int): Row {
    row.Released().(status := if verdict.Success? then Succeeded else Failed, finishedAt := Some(now),
                    verdict := Some(verdict))
  }

  /** Both the failure update and the read-check-write at the end of a worker. */
  function FinishRow(row: Row, o: Owner, verdict: Verdict, now: int): Row {
    if !row.HeldBy(o) then row else FinishedRow(row, verdict, now)
  }

  function CancelRow(row: Row): Row {
    if row.status.Cancel() == row.status then row else row.Released().(status := row.status.Cancel())
  }

  function QueueRow(row: Row): Row {
    if row.status == Accepted then row.(status := Queued) else row
  }

  /** The sweeper's update of a row that it saw with status `seen` when it read the clock. */
  predicate Requeueable(row: Row, seen: Status, now: int) {
    row.status == seen && (seen == Accepted || (seen == Running && row.Expired(now)))
  }

  function RequeueRow(row: Row, seen: Status, now: int): Row {
    if !Requeueable(row, seen, now) then row
    else row.Released().(status := Queued, startedAt := None, finishedAt := None)
  }

  /** The rows a recovery pass selects. */
  predicate Selected(row: Row, now: int, includeQueued: bool) {
    row.status == Accepted || (row.status == Queued && includeQueued) || (row.status == Running && row.Expired(now))
  }

  /** What a recovery pass does to a row: requeue it if it was accepted or its lease has expired. */
  function RecoveredRow(row: Row, now: int, includeQueued: bool): Row {
    if Selected(row, now, includeQueued) then RequeueRow(row, row.status, now) else row
  }

  /** The row's lease is over, or it never had one. */
  predicate LeaseIsOver(row: Row, now: int) {
    row.leaseExpiresAt == None || row.leaseExpiresAt.value <= now
  }

  /**
   What the writes leave in each column. Each matches the rows named here and leaves any other
   alone: a claim a queued row, a heartbeat and a verdict the row that this owner runs, a
   cancellation one that is not answered, a requeue one as it was seen that may be requeued.
   */
  lemma ColumnsWritten(row: Row, o: Owner, verdict: Verdict, now: int)
    ensures ClaimRow(row, o, now) ==
      if row.status == Queued then
        Row(Running, Some(now), row.finishedAt, Some(o), Some(now), Some(now + 30), row.verdict)
      else row
    ensures var held := row.status == Running && row.owner == Some(o);
      && HeartbeatRow(row, o, now) == (if held then
           Row(Running, row.startedAt, row.finishedAt, Some(o), Some(now), Some(now + 30), row.verdict) else row)
      && var answered := if verdict.Success? then Succeeded else Failed;
      && FinishRow(row, o, verdict, now) == (if held then
           Row(answered, row.startedAt, Some(now), None, None, None, Some(verdict)) else row)
    ensures CancelRow(row) ==
      if row.status in {Accepted, Queued, Running} then
        Row(Cancelled, row.startedAt, row.finishedAt, None, None, None, row.verdict)
      else row
    ensures QueueRow(row) ==
      if row.status == Accepted then
        Row(Queued, row.startedAt, row.finishedAt, row.owner, row.heartbeatAt, row.leaseExpiresAt, row.verdict)
      else row
  {}

  /**
   A recovery pass selects accepted rows, running ones whose lease is over and, when asked to,
   queued ones. Of these it puts all but the queued ones back into the queue, cleared.
   */
  lemma RecoveryIs(row: Row, seen: Status, now: int, includeQueued: bool)
    ensures Selected(row, now, includeQueued) <==>
      match row.status
      case Accepted => true
      case Queued => includeQueued
      case Running => LeaseIsOver(row, now)
      case _ => false
    ensures RecoveredRow(row, now, includeQueued) == RequeueRow(row, row.status, now)
    ensures RequeueRow(row, seen, now) ==
      if row.status == seen && (seen == Accepted || (seen == Running && LeaseIsOver(row, now))) then
        Row(Queued, None, None, None, None, None, row.verdict)
      else row
  {}

  function SelectedIds(order: seq<string>, rows: map<string, Row>, now: int, includeQueued: bool): (ids: seq<string>)
    requires forall id <- order :: id in rows
  {
    if order == [] then []
    else
      var last := order[|order| - 1];
      SelectedIds(order[..|order| - 1], rows, now, includeQueued)
      + if Selected(rows[last], now, includeQueued) then [last] else []
  }

  lemma {:induction false} SelectedIdsAre(order: seq<string>, rows: map<string, Row>, now: int, includeQueued: bool)
    requires forall id <- order :: id in rows
    ensures forall id :: id in SelectedIds(order, rows, now, includeQueued) <==>
      id in order && Selected(rows[id], now, includeQueued)
  {
    if order != [] {
      SelectedIdsAre(order[..|order| - 1], rows, now, includeQueued);
      assert order == order[..|order| - 1] + [order[|order| - 1]];
    }
  }

  /** They come in the given order, and each once if the order has no repetition. */
  lemma {:induction false} SelectedIdsInOrder(
    order: seq<string>, rows: map<string, Row>, now: int, includeQueued: bool, i: nat, j: nat
  )
    returns (p: nat, q: nat)
    requires forall id <- order :: id in rows
    requires i < j < |SelectedIds(order, rows, now, includeQueued)|
    ensures p < q < |order|
    ensures order[p] == SelectedIds(order, rows, now, includeQueued)[i]
    ensures order[q] == SelectedIds(order, rows, now, includeQueued)[j]
  {
    var n := |order| - 1;
    var front := SelectedIds(order[..n], rows, now, includeQueued);
    if j < |front| {
      p, q := SelectedIdsInOrder(order[..n], rows, now, includeQueued, i, j);
    } else {
      SelectedIdsAre(order[..n], rows, now, includeQueued);
      assert front[i] in front;
      p :| 0 <= p < n && order[..n][p] == front[i];
      q := n;
    }
  }

  /** The executions table; each method is one session. */
  class ExecutionTable {
    var rows: map<string, Row>

    constructor ()
      ensures rows == map[]
    {
      rows := map[];
    }

    /** One UPDATE ... WHERE: reports how many rows matched. */
    method Claim(id: string, o: Owner, now: int) returns (rowcount: nat)
      modifies this
      ensures rowcount == if id in old(rows) && old(rows)[id].status == Queued then 1 else 0
      ensures rows == if id in old(rows) then old(rows)[id := ClaimRow(old(rows)[id], o, now)] else old(rows)
    {
      if id in rows && rows[id].status == Queued {
        rows := rows[id := rows[id].(status := Running, startedAt := Some(now), owner := Some(o),
                                     heartbeatAt := Some(now), leaseExpiresAt := Some(now + LEASE_SECONDS))];
        return 1;
      }
      return 0;
    }

    method Heartbeat(id: string, o: Owner, now: int) returns (rowcount: nat)
      modifies this
      ensures rowcount == if id in old(rows) && old(rows)[id].HeldBy(o) then 1 else 0
      ensures rows == if id in old(rows) then old(rows)[id := HeartbeatRow(old(rows)[id], o, now)] else old(rows)
    {
      if id in rows && rows[id].status == Running && rows[id].owner == Some(o) {
        rows := rows[id := rows[id].(heartbeatAt := Some(now), leaseExpiresAt := Some(now + LEASE_SECONDS))];
        return 1;
      }
      return 0;
    }

    method FailExecution(id: string, o: Owner, code: string, now: int)
      modifies this
      ensures rows == if id in old(rows) then old(rows)[id := FinishRow(old(rows)[id], o, Failure(code), now)]
        else old(rows)
    {
      if id in rows && rows[id].status == Running && rows[id].owner == Some(o) {
        rows := rows[id := rows[id].(status := Failed, verdict := Some(Failure(code)), finishedAt := Some(now),
                                     owner := None, heartbeatAt := None, leaseExpiresAt := None)];
      }
    }

    /** The last session of a worker: load the row, check it is still ours, write the verdict. */
    method Finish(id: string, o: Owner, verdict: Verdict, now: int)
      modifies this
      ensures rows == if id in old(rows) then old(rows)[id := FinishRow(old(rows)[id], o, verdict, now)] else old(rows)
    {
      if id !in rows || rows[id].status != Running || rows[id].owner != Some(o) {
        return;
      }
      var row := rows[id].(finishedAt := Some(now), owner := None, heartbeatAt := None, leaseExpiresAt := None);
      if verdict.Failure? {
        row := row.(status := Failed);
      } else {
        row := row.(status := Succeeded);
      }
      rows := rows[id := row.(verdict := Some(verdict))];
    }

    method Cancel(id: string)
      modifies this
      ensures rows == if id in old(rows) then old(rows)[id := CancelRow(old(rows)[id])] else old(rows)
    {
      if id in rows {
        var next := rows[id].status.Cancel();
        if next != rows[id].status {
          rows := rows[id := rows[id].(status := next, owner := None, heartbeatAt := None, leaseExpiresAt := None)];
        }
      }
    }

    /**
     recover_acquisition_executions: selects the rows to recover in creation order, then
     requeues each with its own compare-and-set; queued rows are only dispatched again.
     */
    method Recover(order: seq<string>, now: int, includeQueued: bool) returns (ids: seq<string>)
      requires Distinct(order) && forall id :: id in rows <==> id in order
      modifies this
      ensures rows.Keys == old(rows).Keys
      ensures forall id <- rows :: rows[id] == RecoveredRow(old(rows)[id], now, includeQueued)
      ensures ids == SelectedIds(order, old(rows), now, includeQueued)
    {
      var snapshot := rows;
      ids := [];
      for i := 0 to |order|
        invariant rows.Keys == snapshot.Keys && ids == SelectedIds(order[..i], snapshot, now, includeQueued)
        invariant forall k :: 0 <= k < i ==> rows[order[k]] == RecoveredRow(snapshot[order[k]], now, includeQueued)
        invariant forall k :: i <= k < |order| ==> rows[order[k]] == snapshot[order[k]]
      {
        assert order[..i + 1][..i] == order[..i];
        var taken := RecoverOne(order[i], now, includeQueued);
        if taken {
          ids := ids + [order[i]];
        }
      }
      assert order[..|order|] == order;
    }

    /**
     A selected row is requeued by compare-and-set and dispatched if that matched; a queued one
     is only dispatched.
     */
    method RecoverOne(id: string, now: int, includeQueued: bool) returns (taken: bool)
      requires id in rows
      modifies this
      ensures rows == old(rows)[id := RecoveredRow(old(rows)[id], now, includeQueued)]
      ensures taken <==> Selected(old(rows)[id], now, includeQueued)
    {
      var row := rows[id];
      if !Selected(row, now, includeQueued) {
        return false;
      }
      if row.status == Queued {
        return true;
      }
      var rowcount := Requeue(id, row.status, now);
      return rowcount == 1;
    }

    method Requeue(id: string, seen: Status, now: int) returns (rowcount: nat)
      modifies this
      ensures rowcount == if id in old(rows) && Requeueable(old(rows)[id], seen, now) then 1 else 0
      ensures rows == if id in old(rows) then old(rows)[id := RequeueRow(old(rows)[id], seen, now)] else old(rows)
    {
      if id in rows && Requeueable(rows[id], seen, now) {
        rows := rows[id := rows[id].(status := Queued, startedAt := None, finishedAt := None,
                                     owner := None, heartbeatAt := None, leaseExpiresAt := None)];
        return 1;
      }
      return 0;
    }
  }
}

/**
 All interleavings of the sessions of any number of workers, the sweeper and the API on one
 row. Lease ids are globally fresh; every session reads the clock before it writes.
 */
module AcquisitionRuns {
  import opened Common
  import opened AcquisitionLease

  /** The row, the clock, and every lease id handed out so far (also for other rows). */
  datatype State = State(row: Row, clock: int, issued: set<Owner>)

  datatype Step =
    | Wait(until: int)
    | IssueElsewhere(o: Owner)
    | QueueStep
    | CancelStep
    | Claim(o: Owner, at: int)
    | Heartbeat(o: Owner, at: int)
    | Finish(o: Owner, verdict: Verdict, at: int)
    | Requeue(seen: Status, at: int)

  ghost predicate Enabled(s: State, step: Step) {
    match step
    case Wait(until) => s.clock <= until
    case IssueElsewhere(o) => o !in s.issued
    case QueueStep => true
    case CancelStep => true
    case Claim(o, at) => o !in s.issued && at <= s.clock
    case Heartbeat(o, at) => o in s.issued && at <= s.clock
    case Finish(o, _, at) => o in s.issued && at <= s.clock
    case Requeue(_, at) => at <= s.clock
  }

  ghost function Apply(s: State, step: Step): State {
    match step
    case Wait(until) => s.(clock := until)
    case IssueElsewhere(o) => s.(issued := s.issued + {o})
    case QueueStep => s.(row := QueueRow(s.row))
    case CancelStep => s.(row := CancelRow(s.row))
    case Claim(o, at) => s.(row := ClaimRow(s.row, o, at), issued := s.issued + {o})
    case Heartbeat(o, at) => s.(row := HeartbeatRow(s.row, o, at))
    case Finish(o, verdict, at) => s.(row := FinishRow(s.row, o, verdict, at))
    case Requeue(seen, at) => s.(row := RequeueRow(s.row, seen, at))
  }

  /** The state after the first n steps of a run that starts at time `start`. */
  ghost function At(start: int, steps: seq<Step>, n: nat): State
    requires n <= |steps|
  {
    if n == 0 then State(NEW_ROW, start, {}) else Apply(At(start, steps, n - 1), steps[n - 1])
  }

  ghost predicate Run(start: int, steps: seq<Step>) {
    forall i :: 0 <= i < |steps| ==> Enabled(At(start, steps, i), steps[i])
  }

  ghost function RowAt(start: int, steps: seq<Step>, n: nat): Row
    requires n <= |steps|
  {
    At(start, steps, n).row
  }

  /** A running row has a lease of an issued owner that expires 30s after its heartbeat; no other row has any. */
  ghost predicate Inv(s: State) {
    if s.row.status == Running then
      && s.row.owner.Some? && s.row.owner.value in s.issued
      && s.row.heartbeatAt.Some? && s.row.heartbeatAt.value <= s.clock
      && s.row.leaseExpiresAt == Some(s.row.heartbeatAt.value + LEASE_SECONDS)
    else
      s.row.Released() == s.row
  }

  lemma InvStep(s: State, step: Step)
    requires Inv(s) && Enabled(s, step)
    ensures Inv(Apply(s, step))
  {}

  lemma {:induction false} InvHolds(start: int, steps: seq<Step>, n: nat)
    requires Run(start, steps) && n <= |steps|
    ensures Inv(At(start, steps, n))
  {
    if n > 0 {
      InvHolds(start, steps, n - 1);
      InvStep(At(start, steps, n - 1), steps[n - 1]);
    }
  }

  lemma TerminalStep(s: State, step: Step)
    requires s.row.status.Terminal()
    ensures Apply(s, step).row == s.row
  {}

  /** SUCCEEDED, FAILED and CANCELLED are absorbing: the row never changes again. */
  lemma {:induction false} TerminalAbsorbing(start: int, steps: seq<Step>, i: nat, j: nat)
    requires Run(start, steps) && i <= j <= |steps| && RowAt(start, steps, i).status.Terminal()
    ensures RowAt(start, steps, j) == RowAt(start, steps, i)
    decreases j
  {
    if i < j {
      TerminalAbsorbing(start, steps, i, j - 1);
      TerminalStep(At(start, steps, j - 1), steps[j - 1]);
    }
  }

  lemma {:induction false} IssuedGrows(start: int, steps: seq<Step>, i: nat, j: nat)
    requires i <= j <= |steps|
    ensures At(start, steps, i).issued <= At(start, steps, j).issued
    decreases j
  {
    if i < j {
      IssuedGrows(start, steps, i, j - 1);
    }
  }

  lemma StepNeverReturns(s: State, step: Step, o: Owner)
    requires Enabled(s, step) && o in s.issued && s.row.owner != Some(o)
    ensures o in Apply(s, step).issued && Apply(s, step).row.owner != Some(o)
  {}

  /** An issued lease id that is not the row's owner never becomes its owner again. */
  lemma {:induction false} IssuedNeverReturns(start: int, steps: seq<Step>, o: Owner, j: nat, k: nat)
    requires Run(start, steps) && j <= k <= |steps|
    requires o in At(start, steps, j).issued && RowAt(start, steps, j).owner != Some(o)
    ensures o in At(start, steps, k).issued && RowAt(start, steps, k).owner != Some(o)
    decreases k
  {
    if j < k {
      IssuedNeverReturns(start, steps, o, j, k - 1);
      StepNeverReturns(At(start, steps, k - 1), steps[k - 1], o);
    }
  }

  /** An owner id that was cleared from the row never returns. */
  lemma OwnerNeverReturns(start: int, steps: seq<Step>, o: Owner, i: nat, j: nat, k: nat)
    requires Run(start, steps) && i <= j <= k <= |steps|
    requires RowAt(start, steps, i).owner == Some(o) && RowAt(start, steps, j).owner != Some(o)
    ensures RowAt(start, steps, k).owner != Some(o)
  {
    InvHolds(start, steps, i);
    IssuedGrows(start, steps, i, j);
    IssuedNeverReturns(start, steps, o, j, k);
  }

  /** Owner o claimed the row at step c and has held it without a break up to state n. */
  ghost predicate HeldSince(start: int, steps: seq<Step>, o: Owner, c: nat, n: nat)
    requires n <= |steps|
  {
    && c < n && steps[c].Claim? && steps[c].o == o
    && RowAt(start, steps, c).status == Queued
    && forall m :: c < m <= n ==> RowAt(start, steps, m).HeldBy(o)
  }

  /** A worker comes to hold the row only by claiming it from the queue. */
  lemma HeldOnlyByClaim(s: State, step: Step, o: Owner)
    requires Inv(s) && Enabled(s, step) && !s.row.HeldBy(o) && Apply(s, step).row.HeldBy(o)
    ensures step.Claim? && step.o == o && s.row.status == Queued
  {}

  lemma {:induction false} HoldersClaimed(start: int, steps: seq<Step>, o: Owner, n: nat) returns (c: nat)
    requires Run(start, steps) && n <= |steps| && RowAt(start, steps, n).HeldBy(o)
    ensures HeldSince(start, steps, o, c, n)
  {
    InvHolds(start, steps, n - 1);
    if RowAt(start, steps, n - 1).HeldBy(o) {
      c := HoldersClaimed(start, steps, o, n - 1);
    } else {
      HeldOnlyByClaim(At(start, steps, n - 1), steps[n - 1], o);
      c := n - 1;
    }
  }

  /**
   The fence. A run reaches SUCCEEDED or FAILED only by the finish of the worker that owns
   the current lease, which it has held without a break since its claim.
   */
  lemma TerminalWriteIsFenced(start: int, steps: seq<Step>, i: nat) returns (c: nat)
    requires Run(start, steps) && i < |steps| && !RowAt(start, steps, i).status.Terminal()
    requires RowAt(start, steps, i + 1).status in {Succeeded, Failed}
    ensures steps[i].Finish? && RowAt(start, steps, i).HeldBy(steps[i].o)
    ensures HeldSince(start, steps, steps[i].o, c, i)
    ensures RowAt(start, steps, i + 1).verdict == Some(steps[i].verdict)
    ensures RowAt(start, steps, i + 1).status == if steps[i].verdict.Success? then Succeeded else Failed
  {
    c := HoldersClaimed(start, steps, steps[i].o, i);
  }

  /** Conversely a worker's write or heartbeat has an effect exactly while it holds the lease. */
  lemma LateWorkerIsHarmless(start: int, steps: seq<Step>, i: nat)
    requires Run(start, steps) && i < |steps| && (steps[i].Finish? || steps[i].Heartbeat?)
    ensures !RowAt(start, steps, i).HeldBy(steps[i].o) ==> RowAt(start, steps, i + 1) == RowAt(start, steps, i)
    ensures steps[i].Finish? && RowAt(start, steps, i).HeldBy(steps[i].o) ==>
      RowAt(start, steps, i + 1).status.Terminal()
    ensures steps[i].Heartbeat? && RowAt(start, steps, i).HeldBy(steps[i].o) ==>
      RowAt(start, steps, i + 1).leaseExpiresAt == Some(steps[i].at + LEASE_SECONDS)
  {
    assert At(start, steps, i + 1) == Apply(At(start, steps, i), steps[i]);
  }

  /** Successful claims, and requeues of a running row, among the first n steps. */
  ghost function Claims(start: int, steps: seq<Step>, n: nat): nat
    requires n <= |steps|
  {
    if n == 0 then 0
    else
      var claimed := steps[n - 1].Claim? && RowAt(start, steps, n - 1).status == Queued;
      Claims(start, steps, n - 1) + if claimed then 1 else 0
  }

  ghost function Requeues(start: int, steps: seq<Step>, n: nat): nat
    requires n <= |steps|
  {
    if n == 0 then 0
    else
      var requeued := steps[n - 1].Requeue? && RowAt(start, steps, n - 1).status == Running
        && RowAt(start, steps, n).status == Queued;
      Requeues(start, steps, n - 1) + if requeued then 1 else 0
  }

  /** A row is claimed at most once more than it is requeued; exactly once more while a claim is unanswered. */
  lemma {:induction false} ClaimsBounded(start: int, steps: seq<Step>, n: nat)
    requires Run(start, steps) && n <= |steps|
    ensures Requeues(start, steps, n) <= Claims(start, steps, n) <= 1 + Requeues(start, steps, n)
    ensures RowAt(start, steps, n).status in {Accepted, Queued} ==>
      Claims(start, steps, n) == Requeues(start, steps, n)
    ensures RowAt(start, steps, n).status in {Running, Succeeded, Failed} ==>
      Claims(start, steps, n) == 1 + Requeues(start, steps, n)
  {
    if n > 0 {
      ClaimsBounded(start, steps, n - 1);
    }
  }

  lemma ContactStep(s: State, step: Step)
    requires Inv(s) && Enabled(s, step) && Apply(s, step).row != s.row && Apply(s, step).row.status == Running
    ensures step.Claim? || step.Heartbeat?
    ensures Apply(s, step).row.HeldBy(step.o) && Apply(s, step).row.heartbeatAt == Some(step.at)
  {}

  /** The heartbeat of a running row is the time of the last claim or heartbeat that took effect. */
  lemma {:induction false} HeartbeatIsLastContact(start: int, steps: seq<Step>, n: nat) returns (b: nat)
    requires Run(start, steps) && n <= |steps| && RowAt(start, steps, n).status == Running
    ensures b < n && (steps[b].Claim? || steps[b].Heartbeat?)
    ensures RowAt(start, steps, n).HeldBy(steps[b].o) && RowAt(start, steps, n).heartbeatAt == Some(steps[b].at)
    ensures forall m :: b < m <= n ==> RowAt(start, steps, m) == RowAt(start, steps, n)
  {
    InvHolds(start, steps, n - 1);
    if RowAt(start, steps, n - 1) == RowAt(start, steps, n) {
      b := HeartbeatIsLastContact(start, steps, n - 1);
    } else {
      ContactStep(At(start, steps, n - 1), steps[n - 1]);
      b := n - 1;
    }
  }

  /**
   A running row is requeued only once the clock has reached its owner's last contact + 30s;
   until then only its own worker or a cancellation can take the lease away.
   */
  lemma RequeueOnlyAfterSilence(start: int, steps: seq<Step>, i: nat) returns (b: nat)
    requires Run(start, steps) && i < |steps| && RowAt(start, steps, i).status == Running
    requires RowAt(start, steps, i + 1).owner != RowAt(start, steps, i).owner
    ensures b < i && (steps[b].Claim? || steps[b].Heartbeat?) && RowAt(start, steps, i).HeldBy(steps[b].o)
    ensures forall m :: b < m <= i ==> RowAt(start, steps, m) == RowAt(start, steps, i)
    ensures match steps[i]
      case Requeue(seen, _) => seen == Running && steps[b].at + LEASE_SECONDS <= At(start, steps, i).clock
      case Finish(o, _, _) => o == steps[b].o
      case CancelStep => true
      case _ => false
  {
    InvHolds(start, steps, i);
    b := HeartbeatIsLastContact(start, steps, i);
    assert Enabled(At(start, steps, i), steps[i]);
  }
}

/**
 The same protocol with the worker's last session taken apart: it loads and checks the row
 first and writes by primary key later, without comparing again.
 */
module AcquisitionSplitFinish {
  import opened Common
  import opened AcquisitionLease
  import R = AcquisitionRuns

  datatype State = State(base: R.State, checked: set<Owner>)

  datatype Step =
    | Atomic(step: R.Step)
    | FinishRead(o: Owner)
    | FinishWrite(o: Owner, verdict: Verdict, at: int)

  ghost predicate Enabled(s: State, step: Step) {
    match step
    case Atomic(inner) => R.Enabled(s.base, inner)
    case FinishRead(o) => o in s.base.issued
    case FinishWrite(o, _, at) => o in s.checked && at <= s.base.clock
  }

  ghost function Apply(s: State, step: Step): State {
    match step
    case Atomic(inner) => s.(base := R.Apply(s.base, inner))
    case FinishRead(o) => if s.base.row.HeldBy(o) then s.(checked := s.checked + {o}) else s
    case FinishWrite(o, verdict, at) =>
      State(s.base.(row := FinishedRow(s.base.row, verdict, at)), s.checked - {o})
  }

  ghost function At(start: int, steps: seq<Step>, n: nat): State
    requires n <= |steps|
  {
    if n == 0 then State(R.State(NEW_ROW, start, {}), {}) else Apply(At(start, steps, n - 1), steps[n - 1])
  }

  ghost predicate Run(start: int, steps: seq<Step>) {
    forall i :: 0 <= i < |steps| ==> Enabled(At(start, steps, i), steps[i])
  }

  /** A step that takes the lease away from whoever holds the running row. */
  predicate TakesLease(row: Row, step: Step) {
    match step
    case Atomic(inner) =>
      (match inner
       case CancelStep => true
       case Finish(o, _, _) => row.owner == Some(o)
       case Requeue(seen, at) => seen == Running && row.Expired(at)
       case _ => false)
    case FinishRead(_) => false
    case FinishWrite(_, _, _) => true
  }

  lemma {:induction false} IssuedGrows(start: int, steps: seq<Step>, i: nat, j: nat)
    requires i <= j <= |steps|
    ensures At(start, steps, i).base.issued <= At(start, steps, j).base.issued
    decreases j
  {
    if i < j {
      IssuedGrows(start, steps, i, j - 1);
    }
  }

  lemma HolderStep(s: State, step: Step, o: Owner)
    requires Enabled(s, step) && o in s.base.issued
    ensures Apply(s, step).base.row.HeldBy(o) <==> s.base.row.HeldBy(o) && !TakesLease(s.base.row, step)
  {}

  ghost predicate Undisturbed(start: int, steps: seq<Step>, i: nat, j: nat)
    requires i <= j <= |steps|
  {
    forall m :: i <= m < j ==> !TakesLease(At(start, steps, m).base.row, steps[m])
  }

  lemma UndisturbedStep(start: int, steps: seq<Step>, i: nat, j: nat)
    requires i < j <= |steps|
    ensures Undisturbed(start, steps, i, j)
       <==> Undisturbed(start, steps, i, j - 1) && !TakesLease(At(start, steps, j - 1).base.row, steps[j - 1])
  {}

  /**
   Exactly when the split finish keeps the fence: a worker that held the lease when it
   checked at step i still holds it when it writes at step j if and only if no step in
   between was a cancellation, a sweep after expiry, or another worker's write.
   */
  lemma {:induction false} SplitFinishFencedIff(start: int, steps: seq<Step>, o: Owner, i: nat, j: nat)
    requires Run(start, steps) && i <= j <= |steps|
    requires o in At(start, steps, i).base.issued && At(start, steps, i).base.row.HeldBy(o)
    ensures At(start, steps, j).base.row.HeldBy(o) <==> Undisturbed(start, steps, i, j)
    decreases j
  {
    if i < j {
      SplitFinishFencedIff(start, steps, o, i, j - 1);
      UndisturbedStep(start, steps, i, j);
      IssuedGrows(start, steps, i, j - 1);
      HolderStep(At(start, steps, j - 1), steps[j - 1], o);
    }
  }

  /** A cancelled row turns SUCCEEDED, and a row held by b is finished by a. */
  lemma SplitFinishLosesFence(a: Owner, b: Owner, payload: string)
    requires a != b
    ensures var steps := [Atomic(R.QueueStep), Atomic(R.Claim(a, 0)), FinishRead(a), Atomic(R.CancelStep),
                          FinishWrite(a, Success(payload), 0)];
      && Run(0, steps)
      && At(0, steps, 4).base.row.status == Cancelled
      && At(0, steps, 5).base.row.status == Succeeded
    ensures var steps := [Atomic(R.QueueStep), Atomic(R.Claim(a, 0)), FinishRead(a), Atomic(R.Wait(30)),
                          Atomic(R.Requeue(Running, 30)), Atomic(R.Claim(b, 30)), FinishWrite(a, Success(payload), 30)];
      && Run(0, steps)
      && At(0, steps, 6).base.row.HeldBy(b)
      && At(0, steps, 7).base.row.status == Succeeded
  {
    CancelledTurnsSucceeded(a, payload);
    var late := [Atomic(R.QueueStep), Atomic(R.Claim(a, 0)), FinishRead(a), Atomic(R.Wait(30)),
                 Atomic(R.Requeue(Running, 30)), Atomic(R.Claim(b, 30)), FinishWrite(a, Success(payload), 30)];
    Unfold(late);
  }

  lemma CancelledTurnsSucceeded(a: Owner, payload: string)
    ensures var steps := [Atomic(R.QueueStep), Atomic(R.Claim(a, 0)), FinishRead(a), Atomic(R.CancelStep),
                          FinishWrite(a, Success(payload), 0)];
      && Run(0, steps)
      && At(0, steps, 4).base.row.status == Cancelled
      && At(0, steps, 5).base.row.status == Succeeded
  {
    Unfold([Atomic(R.QueueStep), Atomic(R.Claim(a, 0)), FinishRead(a), Atomic(R.CancelStep),
            FinishWrite(a, Success(payload), 0)]);
  }

  lemma Unfold(steps: seq<Step>)
    ensures At(0, steps, 0) == State(R.State(NEW_ROW, 0, {}), {})
    ensures forall n :: 0 < n <= |steps| ==> At(0, steps, n) == Apply(At(0, steps, n - 1), steps[n - 1])
  {}
}
