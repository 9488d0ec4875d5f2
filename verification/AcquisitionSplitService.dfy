/**
 The two API sessions taken apart (backend/services/acquisition_service.py:89-111): they load
 the row, decide, and write by primary key the columns that differ from what they loaded. The
 read is at step i of a run and the write at step j; every other session is atomic.
 */
module AcquisitionSplitService {
  import opened Common
  import opened AcquisitionLease
  import opened AcquisitionRuns

  function Cleared<T>(seen: Option<T>, present: Option<T>): Option<T> {
    if seen.Some? then None else present
  }

  function CancelWritten(seen: Row, row: Row): Row {
    if seen.status.Cancel() == seen.status then row
    else row.(status := Cancelled, owner := Cleared(seen.owner, row.owner),
              heartbeatAt := Cleared(seen.heartbeatAt, row.heartbeatAt),
              leaseExpiresAt := Cleared(seen.leaseExpiresAt, row.leaseExpiresAt))
  }

  function QueueWritten(seen: Row, row: Row): Row {
    if seen.status == Accepted then row.(status := Queued) else row
  }

  lemma {:induction false} AcceptedIsLeftForGood(start: int, steps: seq<Step>, i: nat, j: nat)
    requires Run(start, steps) && i <= j <= |steps| && RowAt(start, steps, i).status != Accepted
    ensures RowAt(start, steps, j).status != Accepted
    decreases j
  {
    if i < j {
      AcceptedIsLeftForGood(start, steps, i, j - 1);
    }
  }

  /**
   Over every run, the split cancel does what the atomic one would do at its write if and only
   if it saw a terminal row, or at its write the row is not answered and it had seen the
   running row's lease.
   */
  lemma SplitCancelIff(start: int, steps: seq<Step>, i: nat, j: nat)
    requires Run(start, steps) && i <= j <= |steps|
    ensures var seen, row := RowAt(start, steps, i), RowAt(start, steps, j);
      CancelWritten(seen, row) == CancelRow(row) <==>
        || seen.status.Terminal()
        || row.status in {Accepted, Queued, Cancelled}
        || (row.status == Running && seen.status == Running)
  {
    InvHolds(start, steps, i);
    InvHolds(start, steps, j);
    if RowAt(start, steps, i).status.Terminal() {
      TerminalAbsorbing(start, steps, i, j);
    }
  }

  /** Likewise the split queueing: if and only if no one has claimed or cancelled a row it saw accepted. */
  lemma SplitQueueIff(start: int, steps: seq<Step>, i: nat, j: nat)
    requires Run(start, steps) && i <= j <= |steps|
    ensures var seen, row := RowAt(start, steps, i), RowAt(start, steps, j);
      QueueWritten(seen, row) == QueueRow(row) <==>
        (seen.status == Accepted ==> row.status in {Accepted, Queued})
  {
    if RowAt(start, steps, i).status != Accepted {
      AcceptedIsLeftForGood(start, steps, i, j);
    }
  }

  /**
   Three runs in which the condition fails: a succeeded row turns CANCELLED, a cancelled one
   turns QUEUED, and a row that a holds is put back into the queue, where b claims it too.
   */
  lemma SplitServiceBreaks(a: Owner, b: Owner, payload: string)
    requires a != b
    ensures var steps := [QueueStep, Claim(a, 0), Finish(a, Success(payload), 0)];
      && Run(0, steps)
      && RowAt(0, steps, 3).status == Succeeded
      && CancelWritten(RowAt(0, steps, 2), RowAt(0, steps, 3)).status == Cancelled
    ensures var steps := [CancelStep];
      && Run(0, steps)
      && RowAt(0, steps, 1).status == Cancelled
      && QueueWritten(RowAt(0, steps, 0), RowAt(0, steps, 1)).status == Queued
    ensures var steps := [Requeue(Accepted, 0), Claim(a, 0)];
      && Run(0, steps)
      && RowAt(0, steps, 2).HeldBy(a)
      && ClaimRow(QueueWritten(RowAt(0, steps, 0), RowAt(0, steps, 2)), b, 0).HeldBy(b)
  {
    Unfold([QueueStep, Claim(a, 0), Finish(a, Success(payload), 0)]);
    Unfold([CancelStep]);
    Unfold([Requeue(Accepted, 0), Claim(a, 0)]);
  }

  lemma Unfold(steps: seq<Step>)
    ensures At(0, steps, 0) == State(NEW_ROW, 0, {})
    ensures forall n :: 0 < n <= |steps| ==> At(0, steps, n) == Apply(At(0, steps, n - 1), steps[n - 1])
  {}
}
