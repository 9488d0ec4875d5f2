/**
 The outcome pass (backend/control/outcomes.py): every ripe pending ledger row is judged once
 against the sensor rows measured after the decision.
 */
module ControlOutcomes {
  import opened Common
  import opened ControlSensors
  import opened ControlLedger

  /**
   What the pass reads: setpoints per source and, per source and decision time, the
   newest-first later sensor rows.
   */
  datatype Evidence = Evidence(objectiveOf: string -> Objective, after: (string, int) -> seq<SensorRow>)

  datatype Patience = Patience(minAge: int, staleAfter: int)

  /** The state that the post-decision window classifies to; the ODP context is deliberately left out. */
  function PostState(posts: seq<SensorRow>, objective: Objective): ControlState
    requires posts != []
  {
    Evaluate(RowToMeasurement(posts[0]), objective, TrendOf(posts), None)
  }

  /** The verdict on a pending row, None while it has to keep waiting. */
  function Verdict(row: LedgerRow, now: int, wait: Patience, e: Evidence): Option<Outcome> {
    var age := now - row.createdAt;
    var posts := e.after(row.source, row.createdAt);
    if age < wait.minAge then None
    else if posts == [] then (if age < wait.staleAfter then None else Some(InsufficientData))
    else if PostState(posts, e.objectiveOf(row.source)) != row.state then Some(Recovered)
    else Some(Persisted)
  }

  function JudgedRow(row: LedgerRow, now: int, wait: Patience, e: Evidence): LedgerRow {
    if row.evaluatedAt.Some? || Verdict(row, now, wait, e).None? then row
    else row.(evaluatedAt := Some(now), outcome := Verdict(row, now, wait, e))
  }

  function Judged(rows: seq<LedgerRow>, now: int, wait: Patience, e: Evidence): seq<LedgerRow> {
    if rows == [] then []
    else Judged(rows[..|rows| - 1], now, wait, e) + [JudgedRow(rows[|rows| - 1], now, wait, e)]
  }

  lemma {:induction false} JudgedAt(rows: seq<LedgerRow>, now: int, wait: Patience, e: Evidence)
    ensures |Judged(rows, now, wait, e)| == |rows|
    ensures forall i :: 0 <= i < |rows| ==> Judged(rows, now, wait, e)[i] == JudgedRow(rows[i], now, wait, e)
  {
    if rows != [] {
      JudgedAt(rows[..|rows| - 1], now, wait, e);
    }
  }

  /** A row without verdict is waiting for one; a verdict, once there, stays. */
  lemma JudgedOnce(rows: seq<LedgerRow>, now: int, wait: Patience, e: Evidence)
    requires WellJudged(rows)
    ensures JudgedFrom(rows, Judged(rows, now, wait, e))
    ensures WellJudged(Judged(rows, now, wait, e))
  {}

  /** The states in which a row may be judged persisted: those that the post-decision window can show again. */
  ghost predicate PersistsSoundly(r: LedgerRow) {
    r.outcome == Some(Persisted) ==> r.state !in {BlockedByOdp, Healthy, Backpressured, Paused}
  }

  ghost predicate AllPersistSoundly(rows: seq<LedgerRow>) {
    forall i :: 0 <= i < |rows| ==> PersistsSoundly(rows[i])
  }

  /**
   Judging leaves the ODP context out, so a blocked_by_odp row is never judged persisted, and
   neither is the paused row that an auto-resume writes: they can only recover or go stale.
   */
  lemma NeverPersisted(row: LedgerRow, now: int, wait: Patience, e: Evidence)
    requires PersistsSoundly(row)
    ensures PersistsSoundly(JudgedRow(row, now, wait, e))
  {}

  lemma JudgedPersistSoundly(rows: seq<LedgerRow>, now: int, wait: Patience, e: Evidence)
    requires AllPersistSoundly(rows)
    ensures AllPersistSoundly(Judged(rows, now, wait, e))
  {}

  datatype OutcomeCounts = OutcomeCounts(
    evaluated: nat, recovered: nat, persisted: nat, insufficient: nat, stillPending: nat
  )

  const NO_OUTCOMES := OutcomeCounts(0, 0, 0, 0, 0)

  /** What one pass reports is exactly how the ledger's totals moved. */
  ghost predicate CountsExplain(c: OutcomeCounts, before: Totals, after: Totals) {
    && c.evaluated + c.stillPending == before.Pending()
    && c.evaluated == c.recovered + c.persisted + c.insufficient
    && c.stillPending == after.Pending()
    && after.total == before.total
    && after.recovered == before.recovered + c.recovered
    && after.persisted == before.persisted + c.persisted
    && after.insufficient == before.insufficient + c.insufficient
  }

  function CountVerdict(c: OutcomeCounts, v: Option<Outcome>): OutcomeCounts {
    match v
    case None => c.(stillPending := c.stillPending + 1)
    case Some(Recovered) => c.(evaluated := c.evaluated + 1, recovered := c.recovered + 1)
    case Some(Persisted) => c.(evaluated := c.evaluated + 1, persisted := c.persisted + 1)
    case Some(InsufficientData) => c.(evaluated := c.evaluated + 1, insufficient := c.insufficient + 1)
  }

  function Counted(rows: seq<LedgerRow>, now: int, wait: Patience, e: Evidence): OutcomeCounts {
    if rows == [] then NO_OUTCOMES
    else
      var counts, row := Counted(rows[..|rows| - 1], now, wait, e), rows[|rows| - 1];
      if row.evaluatedAt.Some? then counts else CountVerdict(counts, Verdict(row, now, wait, e))
  }

  lemma CountsStep(c: OutcomeCounts, before: Totals, after: Totals, row: LedgerRow, now: int, v: Option<Outcome>)
    requires CountsExplain(c, before, after)
    requires row.outcome.Some? <==> row.evaluatedAt.Some?
    ensures row.evaluatedAt.Some? ==> CountsExplain(c, Tallied(before, row), Tallied(after, row))
    ensures row.evaluatedAt.None? ==>
      var judged := if v.None? then row else row.(evaluatedAt := Some(now), outcome := v);
      CountsExplain(CountVerdict(c, v), Tallied(before, row), Tallied(after, judged))
  {}

  lemma JudgedAppend(rows: seq<LedgerRow>, now: int, wait: Patience, e: Evidence)
    requires rows != []
    ensures var front, row := rows[..|rows| - 1], rows[|rows| - 1];
      Tally(Judged(rows, now, wait, e)) == Tallied(Tally(Judged(front, now, wait, e)), JudgedRow(row, now, wait, e))
  {}

  /**
   evaluated + still_pending is what was pending at entry, and each verdict's count is what
   the ledger gained.
   */
  lemma {:induction false} CountedExplains(rows: seq<LedgerRow>, now: int, wait: Patience, e: Evidence)
    requires WellJudged(rows)
    ensures CountsExplain(Counted(rows, now, wait, e), Tally(rows), Tally(Judged(rows, now, wait, e)))
  {
    if rows != [] {
      var front, row := rows[..|rows| - 1], rows[|rows| - 1];
      assert row in rows;
      CountedExplains(front, now, wait, e);
      JudgedAppend(rows, now, wait, e);
      CountsStep(Counted(front, now, wait, e), Tally(front), Tally(Judged(front, now, wait, e)), row, now,
        Verdict(row, now, wait, e));
    }
  }

  // ---------------------------------------------------------------------------
  // Which verdict a row gets
  // ---------------------------------------------------------------------------

  /** The row's state as the newest later reading and the window since the decision show it. */
  function StateAfter(row: LedgerRow, e: Evidence): Option<ControlState> {
    var posts := e.after(row.source, row.createdAt);
    if posts == [] then None
    else
      Some(Evaluate(RowToMeasurement(posts[0]), e.objectiveOf(row.source), TrendOf(posts), None))
  }

  /**
   A pass leaves a pending row alone if it is too young, or has no later reading and is not stale
   yet. Otherwise it is judged at `now`: recovered if and only if the later readings show another
   state, persisted if and only if they show the same, and insufficient without any.
   */
  lemma VerdictIs(rows: seq<LedgerRow>, i: nat, now: int, wait: Patience, e: Evidence)
    requires i < |rows| && rows[i].evaluatedAt.None? && rows[i].outcome.None?
    ensures |Judged(rows, now, wait, e)| == |rows|
    ensures var row, judged := rows[i], Judged(rows, now, wait, e)[i];
      var age := now - row.createdAt;
      var ripe := age >= wait.minAge && (StateAfter(row, e).Some? || age >= wait.staleAfter);
      && judged == row.(evaluatedAt := judged.evaluatedAt, outcome := judged.outcome)
      && (if ripe then judged.evaluatedAt == Some(now) && judged.outcome.Some? else judged == row)
      && (judged.outcome == Some(Recovered) <==> ripe && StateAfter(row, e) !in {None, Some(row.state)})
      && (judged.outcome == Some(Persisted) <==> ripe && StateAfter(row, e) == Some(row.state))
      && (judged.outcome == Some(InsufficientData) <==> ripe && StateAfter(row, e) == None)
  {
    JudgedAt(rows, now, wait, e);
  }
}
