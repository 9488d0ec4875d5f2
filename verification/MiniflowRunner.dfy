/**
 The MiniFlow runner (backend/miniflow/runner.py): one step with retries, exponential
 backoff and a circuit breaker, and a whole workflow with poison propagation.

 What a step's callable does on its n-th attempt is an arbitrary function: it succeeds,
 fails transiently or fails critically.
 */
module MiniflowRunner {
  import opened Common
  import opened DependencyWaves
  import opened MiniflowModel

  datatype Outcome = Success | Retried | CircuitOpen | CriticalFailure

  datatype Attempt = Succeeds | FailsTransiently(message: string) | FailsCritically(message: string)

  datatype AuditOutcome = AuditSuccess | AuditTransient | AuditCircuitOpen | AuditCritical

  datatype AuditEntry = AuditEntry(step: string, attempt: int, outcome: AuditOutcome, error: Option<string>)

  class AuditLog {
    var entries: seq<AuditEntry>

    constructor ()
      ensures entries == []
    {
      entries := [];
    }

    method Record(step: string, attempt: int, outcome: AuditOutcome, error: Option<string>)
      modifies this
      ensures entries == old(entries) + [AuditEntry(step, attempt, outcome, error)]
    {
      entries := entries + [AuditEntry(step, attempt, outcome, error)];
    }
  }

  class CircuitBreaker {
    const threshold: int
    var failures: nat

    constructor (threshold: int)
      ensures this.threshold == threshold && failures == 0
    {
      this.threshold := threshold;
      failures := 0;
    }

    method RecordFailure()
      modifies this
      ensures failures == old(failures) + 1
    {
      failures := failures + 1;
    }

    method RecordSuccess()
      modifies this
      ensures failures == 0
    {
      failures := 0;
    }

    predicate IsOpen()
      reads this
    {
      failures >= threshold
    }
  }

  ghost function Rows(audit: AuditLog?): seq<AuditEntry>
    reads audit
  {
    if audit == null then [] else audit.entries
  }

  /** Writes to the log if there is one. */
  method Note(audit: AuditLog?, step: string, attempt: int, outcome: AuditOutcome, error: Option<string>)
    modifies audit
    ensures audit != null ==> Rows(audit) == old(Rows(audit)) + [AuditEntry(step, attempt, outcome, error)]
  {
    if audit != null {
      audit.Record(step, attempt, outcome, error);
    }
  }

  // ---------------------------------------------------------------------------
  // One step
  // ---------------------------------------------------------------------------

  ghost function Failures(breaker: CircuitBreaker?): nat
    reads breaker
  {
    if breaker == null then 0 else breaker.failures
  }

  /**
   How many failures the breaker still tolerates before it opens: None without a
   breaker, otherwise threshold minus failures so far.
   */
  ghost function Allowance(breaker: CircuitBreaker?): Option<int>
    reads breaker
  {
    if breaker == null then None else Some(breaker.threshold - breaker.failures)
  }

  /** The failure of attempt n is the one that opens the breaker. */
  ghost predicate Trips(allowance: Option<int>, n: int) {
    allowance.Some? && allowance.value <= n
  }

  /** The outcome with which attempt n ends the step, or None if it is followed by a retry. */
  ghost function Verdict(run: int -> Attempt, allowance: Option<int>, maxAttempts: int, n: int): Option<Outcome> {
    match run(n)
    case Succeeds => Some(if n == 1 then Success else Retried)
    case FailsCritically(_) => Some(CriticalFailure)
    case FailsTransiently(_) =>
      if Trips(allowance, n) then Some(CircuitOpen)
      else if n < maxAttempts then None
      else Some(CriticalFailure)
  }

  /** A step that makes exactly n attempts and ends with the given outcome. */
  ghost predicate Ends(run: int -> Attempt, allowance: Option<int>, maxAttempts: int, outcome: Outcome, n: int) {
    if Trips(allowance, 0) then outcome == CircuitOpen && n == 0
    else if maxAttempts < 1 then outcome == CriticalFailure && n == maxAttempts
    else
      && 1 <= n <= maxAttempts
      && (forall j :: 1 <= j < n ==> Verdict(run, allowance, maxAttempts, j).None?)
      && Verdict(run, allowance, maxAttempts, n) == Some(outcome)
  }

  /** The audit row that attempt n leaves behind. */
  ghost function AuditRow(step: string, run: int -> Attempt, allowance: Option<int>, n: int): AuditEntry {
    match run(n)
    case Succeeds => AuditEntry(step, n, AuditSuccess, None)
    case FailsCritically(message) => AuditEntry(step, n, AuditCritical, Some(message))
    case FailsTransiently(message) =>
      AuditEntry(step, n, if Trips(allowance, n) then AuditCircuitOpen else AuditTransient, Some(message))
  }

  ghost function AuditRows(step: string, run: int -> Attempt, allowance: Option<int>, n: nat): seq<AuditEntry> {
    if n == 0 then [] else AuditRows(step, run, allowance, n - 1) + [AuditRow(step, run, allowance, n)]
  }

  /** Everything a step writes to the audit log; an open breaker leaves a single row 0. */
  ghost function StepAudit(step: string, run: int -> Attempt, allowance: Option<int>, n: int): seq<AuditEntry> {
    if Trips(allowance, 0) then [AuditEntry(step, 0, AuditCircuitOpen, None)]
    else if n < 1 then []
    else AuditRows(step, run, allowance, n)
  }

  function Pow2(n: nat): (p: nat)
    ensures p >= 1
  {
    if n == 0 then 1 else 2 * Pow2(n - 1)
  }

  /** The delay after the failure of attempt n. */
  function Backoff(base: real, n: nat): real
    requires n >= 1
  {
    base * Pow2(n - 1) as real
  }

  /** The first n backoff delays. */
  function Delays(base: real, n: nat): seq<real> {
    if n == 0 then [] else Delays(base, n - 1) + [Backoff(base, n)]
  }

  function Sum(s: seq<real>): real {
    if s == [] then 0.0 else Sum(s[..|s| - 1]) + s[|s| - 1]
  }

  lemma SumAppend(s: seq<real>, x: real)
    ensures Sum(s + [x]) == Sum(s) + x
  {}

  lemma BackoffAddsUp(base: real, half: nat)
    ensures base * (half - 1) as real + base * half as real == base * (2 * half - 1) as real
  {}

  /** The delays double, so n of them add up to base * (2^n - 1). */
  lemma {:induction false} DelaysSum(base: real, n: nat)
    ensures Sum(Delays(base, n)) == base * (Pow2(n) - 1) as real
  {
    if n > 0 {
      DelaysSum(base, n - 1);
      SumAppend(Delays(base, n - 1), Backoff(base, n));
      BackoffAddsUp(base, Pow2(n - 1));
    }
  }

  /**
   Closed form for a fresh breaker with threshold b >= 1 and m >= 1 attempts: at most
   min(b, m) attempts; a step whose attempts all fail transiently ends after min(b, m) of
   them, with an open circuit if b <= m and a critical failure otherwise; the outcome
   tells what the last attempt did, and all earlier ones failed transiently.
   */
  lemma FreshStepClosedForm(run: int -> Attempt, b: int, m: int, outcome: Outcome, n: int)
    requires b >= 1 && m >= 1 && Ends(run, Some(b), m, outcome, n)
    ensures 1 <= n <= b && n <= m
    ensures forall j :: 1 <= j < n ==> run(j).FailsTransiently?
    ensures run(n).Succeeds? <==> outcome == Success || outcome == Retried
    ensures outcome == Success ==> n == 1
    ensures outcome == Retried ==> n > 1
    ensures run(n).FailsTransiently? ==>
      n == (if b <= m then b else m) && outcome == (if b <= m then CircuitOpen else CriticalFailure)
    ensures run(n).FailsCritically? ==> outcome == CriticalFailure
  {
    assert b < n ==> Verdict(run, Some(b), m, b).None?;
    forall j | 1 <= j < n
      ensures run(j).FailsTransiently?
    {
      assert Verdict(run, Some(b), m, j).None?;
    }
  }

  ghost function EndFrom(run: int -> Attempt, allowance: Option<int>, maxAttempts: int, n: int): (Outcome, int)
    requires 1 <= n <= maxAttempts
    decreases maxAttempts - n
  {
    match Verdict(run, allowance, maxAttempts, n)
    case Some(outcome) => (outcome, n)
    case None => EndFrom(run, allowance, maxAttempts, n + 1)
  }

  /** The outcome of a step and the number of attempts it takes. */
  ghost function StepEnd(run: int -> Attempt, allowance: Option<int>, maxAttempts: int): (Outcome, int) {
    if Trips(allowance, 0) then (CircuitOpen, 0)
    else if maxAttempts < 1 then (CriticalFailure, maxAttempts)
    else EndFrom(run, allowance, maxAttempts, 1)
  }

  lemma {:induction false} EndFromEnds(run: int -> Attempt, allowance: Option<int>, maxAttempts: int, n: int)
    requires 1 <= n <= maxAttempts && !Trips(allowance, 0)
    requires forall j :: 1 <= j < n ==> Verdict(run, allowance, maxAttempts, j).None?
    ensures var end := EndFrom(run, allowance, maxAttempts, n); Ends(run, allowance, maxAttempts, end.0, end.1)
    decreases maxAttempts - n
  {
    if Verdict(run, allowance, maxAttempts, n).None? {
      EndFromEnds(run, allowance, maxAttempts, n + 1);
    }
  }

  lemma StepEndIsTheEnd(run: int -> Attempt, allowance: Option<int>, maxAttempts: int, outcome: Outcome, n: int)
    ensures Ends(run, allowance, maxAttempts, outcome, n) <==> (outcome, n) == StepEnd(run, allowance, maxAttempts)
  {
    var end := StepEnd(run, allowance, maxAttempts);
    if !Trips(allowance, 0) && maxAttempts >= 1 {
      EndFromEnds(run, allowance, maxAttempts, 1);
    }
    if Ends(run, allowance, maxAttempts, outcome, n) {
      EndsIsFunctional(run, allowance, maxAttempts, outcome, n, end.0, end.1);
    }
  }

  /** A step ends in one way only: outcome and number of attempts are determined. */
  lemma EndsIsFunctional(run: int -> Attempt, a: Option<int>, m: int, o: Outcome, n: int, o': Outcome, n': int)
    requires Ends(run, a, m, o, n) && Ends(run, a, m, o', n')
    ensures o == o' && n == n'
  {}

  /**
   The audit of a step, row by row. It numbers the attempts from 1; every attempt before the last
   left a transient row with its message, and the last row says how the step ended.
   */
  lemma StepAuditRows(step: string, run: int -> Attempt, allowance: Option<int>, maxAttempts: int,
                      outcome: Outcome, n: int)
    requires Ends(run, allowance, maxAttempts, outcome, n) && n >= 1
    ensures var rows := StepAudit(step, run, allowance, n);
      && |rows| == n
      && (forall i :: 0 <= i < n ==> rows[i].step == step && rows[i].attempt == i + 1)
      && (forall i :: 0 <= i < n - 1 ==>
            && run(i + 1).FailsTransiently?
            && rows[i] == AuditEntry(step, i + 1, AuditTransient, Some(run(i + 1).message)))
      && rows[n - 1] == match run(n)
        case Succeeds => AuditEntry(step, n, AuditSuccess, None)
        case FailsCritically(message) => AuditEntry(step, n, AuditCritical, Some(message))
        case FailsTransiently(message) =>
          AuditEntry(step, n, if outcome == CircuitOpen then AuditCircuitOpen else AuditTransient, Some(message))
  {
    forall j | 1 <= j < n
      ensures run(j).FailsTransiently? && !Trips(allowance, j)
    {
      assert Verdict(run, allowance, maxAttempts, j).None?;
    }
    AuditRowsAt(step, run, allowance, n);
  }

  lemma {:induction false} AuditRowsAt(step: string, run: int -> Attempt, allowance: Option<int>, n: nat)
    ensures |AuditRows(step, run, allowance, n)| == n
    ensures forall i :: 0 <= i < n ==> AuditRows(step, run, allowance, n)[i] == AuditRow(step, run, allowance, i + 1)
  {
    if n > 0 {
      AuditRowsAt(step, run, allowance, n - 1);
    }
  }

  /** Without an attempt there is one row, numbered 0, if the breaker was open, and none if no attempt is allowed. */
  lemma NoAttemptAudit(
    step: string, run: int -> Attempt, allowance: Option<int>, maxAttempts: int, outcome: Outcome, n: int
  )
    requires Ends(run, allowance, maxAttempts, outcome, n) && n < 1
    ensures var open := allowance.Some? && allowance.value <= 0;
      && StepAudit(step, run, allowance, n) == (if open then [AuditEntry(step, 0, AuditCircuitOpen, None)] else [])
      && outcome == if open then CircuitOpen else CriticalFailure
  {}

  /** Without a breaker only the limit on attempts ends a step whose attempts all fail transiently. */
  lemma NoBreakerClosedForm(run: int -> Attempt, m: int, outcome: Outcome, n: int)
    requires m >= 1 && Ends(run, None, m, outcome, n)
    ensures 1 <= n <= m && forall j :: 1 <= j < n ==> run(j).FailsTransiently?
    ensures run(n).Succeeds? ==> outcome == if n == 1 then Success else Retried
    ensures run(n).FailsTransiently? ==> n == m
    ensures !run(n).Succeeds? ==> outcome == CriticalFailure
  {
    forall j | 1 <= j < n
      ensures run(j).FailsTransiently?
    {
      assert Verdict(run, None, m, j).None?;
    }
  }

  /** execute_step. The delays actually slept come back in order. */
  method ExecuteStep(step: string, run: int -> Attempt, breaker: CircuitBreaker?, audit: AuditLog?,
                     maxAttempts: int, baseDelay: real)
    returns (outcome: Outcome, attempts: int, slept: seq<real>)
    modifies breaker, audit
    ensures Ends(run, old(Allowance(breaker)), maxAttempts, outcome, attempts)
    ensures audit != null ==>
      Rows(audit) == old(Rows(audit)) + StepAudit(step, run, old(Allowance(breaker)), attempts)
    ensures slept == Delays(baseDelay, if attempts < 1 then 0 else attempts - 1)
    ensures breaker != null && attempts >= 1 ==>
      breaker.failures == if run(attempts).Succeeds? then 0 else old(Failures(breaker)) + attempts
    ensures breaker != null && attempts < 1 ==> breaker.failures == old(Failures(breaker))
  {
    slept := [];
    ghost var allowance := Allowance(breaker);
    if breaker != null && breaker.IsOpen() {
      Note(audit, step, 0, AuditCircuitOpen, None);
      return CircuitOpen, 0, slept;
    }
    ghost var before := Rows(audit);
    ghost var failed := Failures(breaker);
    var attempt := 1;
    while attempt <= maxAttempts
      invariant if maxAttempts < 1 then attempt == 1 else 1 <= attempt <= maxAttempts
      invariant forall j :: 1 <= j < attempt ==> Verdict(run, allowance, maxAttempts, j).None?
      invariant audit != null ==> Rows(audit) == before + AuditRows(step, run, allowance, attempt - 1)
      invariant breaker != null ==> breaker.failures == failed + attempt - 1
      invariant slept == Delays(baseDelay, attempt - 1)
      decreases maxAttempts - attempt
    {
      match run(attempt)
      case FailsCritically(message) =>
        if breaker != null {
          breaker.RecordFailure();
        }
        Note(audit, step, attempt, AuditCritical, Some(message));
        return CriticalFailure, attempt, slept;
      case FailsTransiently(message) =>
        if breaker != null {
          breaker.RecordFailure();
          if breaker.IsOpen() {
            Note(audit, step, attempt, AuditCircuitOpen, Some(message));
            return CircuitOpen, attempt, slept;
          }
        }
        Note(audit, step, attempt, AuditTransient, Some(message));
        if attempt == maxAttempts {
          return CriticalFailure, attempt, slept;
        }
        slept := slept + [Backoff(baseDelay, attempt)];
        attempt := attempt + 1;
      case Succeeds =>
        if breaker != null {
          breaker.RecordSuccess();
        }
        Note(audit, step, attempt, AuditSuccess, None);
        return if attempt == 1 then Success else Retried, attempt, slept;
    }
    return CriticalFailure, maxAttempts, slept;
  }

  // ---------------------------------------------------------------------------
  // A whole workflow
  // ---------------------------------------------------------------------------

  datatype StepResult = StepResult(name: string, outcome: Outcome, attempts: int)

  datatype RunResult = RunResult(stepResults: seq<StepResult>, skipped: seq<string>)

  predicate Good(outcome: Outcome) {
    outcome == Success || outcome == Retried
  }

  /** RunResult.success */
  predicate Succeeded(res: RunResult) {
    forall r <- res.stepResults :: Good(r.outcome)
  }

  /** What the callable of one step does, attempt by attempt. */
  function Of(run: (string, int) -> Attempt, name: string): int -> Attempt {
    n => run(name, n)
  }

  ghost predicate Valid(steps: seq<Step>) {
    UniqueNames(steps) && KnownDependencies(steps) && Acyclic(Dependencies(steps))
  }

  /** The names of the executed steps. */
  ghost function Ran(rs: seq<StepResult>): set<string> {
    if rs == [] then {} else Ran(rs[..|rs| - 1]) + {rs[|rs| - 1].name}
  }

  /** The names of the executed steps that ended with one of the given outcomes. */
  ghost function RanWith(rs: seq<StepResult>, outcomes: set<Outcome>): set<string> {
    if rs == [] then {}
    else
      var last := rs[|rs| - 1];
      RanWith(rs[..|rs| - 1], outcomes) + if last.outcome in outcomes then {last.name} else {}
  }

  ghost function Executed(res: RunResult): set<string> {
    Ran(res.stepResults)
  }

  ghost function RanWell(res: RunResult): set<string> {
    RanWith(res.stepResults, {Success, Retried})
  }

  /** The steps that ended with an open circuit. */
  ghost function Broken(res: RunResult): set<string> {
    RanWith(res.stepResults, {CircuitOpen})
  }

  ghost function Poisoned(res: RunResult): set<string> {
    Skipped(res) + Broken(res)
  }

  ghost function Critical(res: RunResult): set<string> {
    RanWith(res.stepResults, {CriticalFailure})
  }

  ghost function Skipped(res: RunResult): set<string> {
    Elements(res.skipped)
  }

  ghost function Elements(names: seq<string>): set<string> {
    if names == [] then {} else Elements(names[..|names| - 1]) + {names[|names| - 1]}
  }

  lemma ResultsGrow(rs: seq<StepResult>, result: StepResult)
    ensures Ran(rs + [result]) == Ran(rs) + {result.name}
    ensures forall os ::
      RanWith(rs + [result], os) == RanWith(rs, os) + if result.outcome in os then {result.name} else {}
    ensures NamesOf(rs + [result]) == NamesOf(rs) + [result.name]
  {}

  lemma SkippedGrow(names: seq<string>, n: string)
    ensures Elements(names + [n]) == Elements(names) + {n}
  {}

  lemma {:induction false} RanMember(rs: seq<StepResult>, r: StepResult)
    requires r in rs
    ensures r.name in Ran(rs) && forall os :: r.outcome in os ==> r.name in RanWith(rs, os)
  {
    if r != rs[|rs| - 1] {
      assert rs == rs[..|rs| - 1] + [rs[|rs| - 1]];
      RanMember(rs[..|rs| - 1], r);
    }
  }

  lemma {:induction false} RanWithMember(rs: seq<StepResult>, os: set<Outcome>, n: string)
    requires n in RanWith(rs, os)
    ensures exists r :: r in rs && r.name == n && r.outcome in os
  {
    var last := rs[|rs| - 1];
    if n in RanWith(rs[..|rs| - 1], os) {
      RanWithMember(rs[..|rs| - 1], os, n);
      var r :| r in rs[..|rs| - 1] && r.name == n && r.outcome in os;
      assert r in rs;
    } else {
      assert last in rs;
    }
  }

  lemma {:induction false} OutcomesCover(rs: seq<StepResult>)
    ensures Ran(rs) == RanWith(rs, {Success, Retried}) + RanWith(rs, {CircuitOpen}) + RanWith(rs, {CriticalFailure})
  {
    if rs != [] {
      OutcomesCover(rs[..|rs| - 1]);
      var o := rs[|rs| - 1].outcome;
      assert o == Success || o == Retried || o == CircuitOpen || o == CriticalFailure;
    }
  }

  /** How far the run got in the order. */
  ghost function Reached(res: RunResult): nat {
    |res.stepResults| + |res.skipped|
  }

  /** The names in the order that belong to a set. */
  ghost function Select(order: seq<Step>, names: set<string>): seq<string> {
    if order == [] then []
    else
      var last := order[|order| - 1].name;
      Select(order[..|order| - 1], names) + if last in names then [last] else []
  }

  ghost function NamesOf(rs: seq<StepResult>): seq<string> {
    if rs == [] then [] else NamesOf(rs[..|rs| - 1]) + [rs[|rs| - 1].name]
  }

  ghost function AuditOf(run: (string, int) -> Attempt, threshold: int, rs: seq<StepResult>): seq<AuditEntry> {
    if rs == [] then []
    else
      var last := rs[|rs| - 1];
      AuditOf(run, threshold, rs[..|rs| - 1])
      + StepAudit(last.name, Of(run, last.name), Some(threshold), last.attempts)
  }

  /** How many rows the steps leave in the log: one per attempt, or one for a breaker that is open at once. */
  ghost function RowsIn(rs: seq<StepResult>, threshold: int): nat {
    if rs == [] then 0
    else
      var attempts := rs[|rs| - 1].attempts;
      RowsIn(rs[..|rs| - 1], threshold) + if threshold <= 0 then 1 else if attempts >= 1 then attempts else 0
  }

  lemma {:induction false} AuditLength(run: (string, int) -> Attempt, threshold: int, rs: seq<StepResult>)
    ensures |AuditOf(run, threshold, rs)| == RowsIn(rs, threshold)
  {
    if rs != [] {
      var last := rs[|rs| - 1];
      AuditLength(run, threshold, rs[..|rs| - 1]);
      if last.attempts >= 1 {
        AuditRowsAt(last.name, Of(run, last.name), Some(threshold), last.attempts);
      }
    }
  }

  lemma {:induction false} AuditPrefix(run: (string, int) -> Attempt, threshold: int, rs: seq<StepResult>, k: nat)
    requires k <= |rs|
    ensures AuditOf(run, threshold, rs[..k]) <= AuditOf(run, threshold, rs)
  {
    if k == |rs| {
      assert rs[..k] == rs;
    } else {
      assert rs[..|rs| - 1][..k] == rs[..k];
      AuditPrefix(run, threshold, rs[..|rs| - 1], k);
    }
  }

  /** The log of a run is cut into one block per executed step, in the order of execution: that step's audit. */
  lemma AuditInBlocks(run: (string, int) -> Attempt, threshold: int, rs: seq<StepResult>, k: nat)
    requires k < |rs|
    ensures |AuditOf(run, threshold, rs)| == RowsIn(rs, threshold)
    ensures RowsIn(rs[..k], threshold) <= RowsIn(rs[..k + 1], threshold) <= RowsIn(rs, threshold)
    ensures AuditOf(run, threshold, rs)[RowsIn(rs[..k], threshold)..RowsIn(rs[..k + 1], threshold)]
         == StepAudit(rs[k].name, Of(run, rs[k].name), Some(threshold), rs[k].attempts)
  {
    AuditLength(run, threshold, rs);
    AuditLength(run, threshold, rs[..k]);
    AuditLength(run, threshold, rs[..k + 1]);
    AuditPrefix(run, threshold, rs, k + 1);
    assert rs[..k + 1][..k] == rs[..k];
    var block := StepAudit(rs[k].name, Of(run, rs[k].name), Some(threshold), rs[k].attempts);
    assert AuditOf(run, threshold, rs[..k + 1]) == AuditOf(run, threshold, rs[..k]) + block;
    hide AuditOf, RowsIn, StepAudit;
    LaterBlock(AuditOf(run, threshold, rs), AuditOf(run, threshold, rs[..k]), block);
  }

  lemma LaterBlock<T>(all: seq<T>, front: seq<T>, block: seq<T>)
    requires front + block <= all
    ensures all[|front|..|front| + |block|] == block
  {
    assert (front + block)[|front|..] == block;
  }

  /** A node of the given set lies on some dependency chain into n (possibly n itself). */
  ghost predicate Blocked(g: Graph<string>, broken: set<string>, n: string) {
    exists p: seq<string> :: ChainTo(g, p, n) && p[0] in broken
  }

  /** A node of the given set lies among the transitive dependencies of n. */
  ghost predicate BlockedUpstream(g: Graph<string>, broken: set<string>, n: string) {
    exists d :: DependsOn(g, n, d) && Blocked(g, broken, d)
  }

  /** One of the first k steps is called n. */
  ghost predicate Among(order: seq<Step>, k: nat, n: string)
    requires k <= |order|
  {
    exists j :: 0 <= j < k && order[j].name == n
  }

  /** The order mentions every node once, and dependencies first. */
  ghost predicate TopologicalFor(order: seq<Step>, g: Graph<string>) {
    && UniqueNames(order)
    && (forall i :: 0 <= i < |order| ==> order[i].name in g)
    && (forall i, d :: 0 <= i < |order| && DependsOn(g, order[i].name, d) ==> Among(order, i, d))
    && (forall i, d :: 0 <= i < |order| ==> (DependsOn(g, order[i].name, d) <==> d in order[i].dependsOn))
  }

  /** The first k steps split into two lists, each in order, whose members the two sets are. */
  ghost predicate SplitInto(order: seq<Step>, k: nat, names: seq<string>, members: set<string>,
                            names': seq<string>, members': set<string>)
    requires k <= |order|
  {
    && members !! members'
    && (forall n :: n in members + members' <==> Among(order, k, n))
    && names == Select(order[..k], members)
    && names' == Select(order[..k], members')
  }

  /** Of the first k steps exactly those are skipped that have a broken step upstream. */
  ghost predicate SkipsMatch(order: seq<Step>, g: Graph<string>, skipped: set<string>, broken: set<string>, k: nat)
    requires k <= |order|
  {
    forall i :: 0 <= i < k ==> (order[i].name in skipped <==> BlockedUpstream(g, broken, order[i].name))
  }

  ghost predicate DependenciesIn(g: Graph<string>, executed: set<string>, good: set<string>) {
    forall n, d :: n in executed && DependsOn(g, n, d) ==> d in good
  }

  /**
   How a run treats its order. The reached prefix splits into executed and skipped steps,
   both listed in order; a reached step is skipped exactly when a step with an open
   circuit is among its transitive dependencies; a step runs only after all its
   dependencies ran well.
   */
  ghost predicate Splits(order: seq<Step>, g: Graph<string>, res: RunResult) {
    && Reached(res) <= |order|
    && SplitInto(order, Reached(res), NamesOf(res.stepResults), Executed(res), res.skipped, Skipped(res))
    && SkipsMatch(order, g, Skipped(res), Broken(res), Reached(res))
    && DependenciesIn(g, Executed(res), RanWell(res))
  }

  /** Every executed step ended as the retry loop with a fresh breaker prescribes. */
  ghost predicate EachEnds(run: (string, int) -> Attempt, threshold: int, maxAttempts: int, rs: seq<StepResult>) {
    forall i :: 0 <= i < |rs| ==>
      Ends(Of(run, rs[i].name), Some(threshold), maxAttempts, rs[i].outcome, rs[i].attempts)
  }

  /** Nothing runs after a critical failure, and nothing else stops a run early. */
  ghost predicate StopsOnlyWhenCritical(order: seq<Step>, res: RunResult) {
    && (forall i :: 0 <= i < |res.stepResults| && res.stepResults[i].outcome == CriticalFailure ==>
          && i == |res.stepResults| - 1
          && 0 < Reached(res) <= |order|
          && order[Reached(res) - 1].name == res.stepResults[i].name)
    && (Reached(res) < |order| ==>
          res.stepResults != [] && res.stepResults[|res.stepResults| - 1].outcome == CriticalFailure)
  }

  lemma BlockedOrUpstream(g: Graph<string>, broken: set<string>, n: string)
    requires n in g
    ensures Blocked(g, broken, n) <==> n in broken || BlockedUpstream(g, broken, n)
  {
    if n in broken {
      assert ChainTo(g, [n], n);
    }
    if BlockedUpstream(g, broken, n) {
      var d :| DependsOn(g, n, d) && Blocked(g, broken, d);
      var p: seq<string> :| ChainTo(g, p, d) && p[0] in broken;
      ExtendChain(g, p, d, n);
      assert (p + [n])[0] == p[0];
    }
    if Blocked(g, broken, n) && n !in broken {
      var p: seq<string> :| ChainTo(g, p, n) && p[0] in broken;
      assert DependsOn(g, p[|p| - 1], p[|p| - 1 - 1]);
      ShorterChain(g, p);
      assert p[..|p| - 1][0] in broken;
    }
  }

  lemma ShorterChain(g: Graph<string>, p: seq<string>)
    requires Chain(g, p) && |p| > 1
    ensures ChainTo(g, p[..|p| - 1], p[|p| - 2])
  {}

  /** A chain into an early step starts at an early step. */
  lemma {:induction false} ChainStaysEarly(order: seq<Step>, g: Graph<string>, p: seq<string>, i: nat)
    requires TopologicalFor(order, g) && Chain(g, p)
    requires i <= |order| && Among(order, i, p[|p| - 1])
    ensures Among(order, i, p[0])
  {
    if |p| > 1 {
      var j :| 0 <= j < i && order[j].name == p[|p| - 1];
      assert DependsOn(g, p[|p| - 1], p[|p| - 1 - 1]);
      assert Among(order, j, p[|p| - 2]);
      ShorterChain(g, p);
      ChainStaysEarly(order, g, p[..|p| - 1], i);
    }
  }

  /** What happens at position i cannot block a step before it. */
  lemma LaterStepsDoNotBlock(order: seq<Step>, g: Graph<string>, broken: set<string>, i: nat, n: string)
    requires TopologicalFor(order, g) && i < |order| && Among(order, i, n)
    ensures Blocked(g, broken + {order[i].name}, n) <==> Blocked(g, broken, n)
  {
    if Blocked(g, broken + {order[i].name}, n) {
      var p: seq<string> :| ChainTo(g, p, n) && p[0] in broken + {order[i].name};
      ChainStaysEarly(order, g, p, i);
      var j :| 0 <= j < i && order[j].name == p[0];
      assert order[j].name != order[i].name;
    }
    if Blocked(g, broken, n) {
      var p: seq<string> :| ChainTo(g, p, n) && p[0] in broken;
      assert p[0] in broken + {order[i].name};
    }
  }

  /**
   Loop invariant of run_workflow in terms of sets: of the first k steps, good ones ran
   well, broken ones ended with an open circuit, the others were skipped.
   */
  ghost predicate Settled(order: seq<Step>, g: Graph<string>, k: nat, good: set<string>, broken: set<string>,
                          skipped: set<string>)
    requires k <= |order|
  {
    && (forall n :: n in good + broken + skipped <==> Among(order, k, n))
    && good !! skipped && broken !! skipped
    && SkipsMatch(order, g, skipped, broken, k)
    && DependenciesIn(g, good + broken, good)
  }

  lemma {:induction false} SelectIgnoresOthers(order: seq<Step>, k: nat, names: set<string>, x: string)
    requires k <= |order| && !Among(order, k, x)
    ensures Select(order[..k], names + {x}) == Select(order[..k], names)
  {
    if k > 0 {
      SelectIgnoresOthers(order, k - 1, names, x);
      assert order[..k][..k - 1] == order[..k - 1];
    }
  }

  lemma SelectNext(order: seq<Step>, i: nat, names: set<string>)
    requires i < |order|
    ensures Select(order[..i + 1], names)
         == Select(order[..i], names) + if order[i].name in names then [order[i].name] else []
  {
    assert order[..i + 1][..i] == order[..i];
  }

  lemma NameIsNew(order: seq<Step>, k: nat)
    requires UniqueNames(order) && k < |order|
    ensures !Among(order, k, order[k].name)
    ensures forall n :: Among(order, k + 1, n) <==> Among(order, k, n) || n == order[k].name
  {}

  /** The next step goes to the end of one of the two lists. */
  lemma SplitNext(order: seq<Step>, k: nat, names: seq<string>, members: set<string>,
                  names': seq<string>, members': set<string>)
    requires UniqueNames(order) && k < |order| && SplitInto(order, k, names, members, names', members')
    ensures SplitInto(order, k + 1, names + [order[k].name], members + {order[k].name}, names', members')
  {
    NameIsNew(order, k);
    SelectIgnoresOthers(order, k, members, order[k].name);
    SelectNext(order, k, members + {order[k].name});
    SelectNext(order, k, members');
  }

  lemma SplitFlip(order: seq<Step>, k: nat, names: seq<string>, members: set<string>,
                  names': seq<string>, members': set<string>)
    requires k <= |order| && SplitInto(order, k, names, members, names', members')
    ensures SplitInto(order, k, names', members', names, members)
  {}

  /** The poisoned steps are those that are broken or have a broken step upstream. */
  lemma PoisonedIffBlocked(order: seq<Step>, g: Graph<string>, skipped: set<string>, broken: set<string>,
                           k: nat, n: string)
    requires k <= |order| && (forall i :: 0 <= i < |order| ==> order[i].name in g)
    requires SkipsMatch(order, g, skipped, broken, k) && Among(order, k, n)
    ensures n in skipped || n in broken <==> Blocked(g, broken, n)
  {
    var i :| 0 <= i < k && order[i].name == n;
    BlockedOrUpstream(g, broken, n);
  }

  /** The step at k has a broken step upstream exactly if one of its dependencies is poisoned. */
  lemma NextMatches(order: seq<Step>, g: Graph<string>, skipped: set<string>, broken: set<string>, k: nat)
    requires TopologicalFor(order, g) && k < |order| && SkipsMatch(order, g, skipped, broken, k)
    ensures forall d :: DependsOn(g, order[k].name, d) ==> (d in skipped || d in broken <==> Blocked(g, broken, d))
  {
    forall d | DependsOn(g, order[k].name, d)
      ensures d in skipped || d in broken <==> Blocked(g, broken, d)
    {
      assert Among(order, k, d);
      PoisonedIffBlocked(order, g, skipped, broken, k, d);
    }
  }

  /** If the step at k then turns out broken, the verdicts so far stay right. */
  lemma BreakMatches(order: seq<Step>, g: Graph<string>, skipped: set<string>, broken: set<string>, k: nat)
    requires TopologicalFor(order, g) && k < |order| && SkipsMatch(order, g, skipped, broken, k + 1)
    ensures SkipsMatch(order, g, skipped, broken + {order[k].name}, k + 1)
  {
    forall j | 0 <= j <= k
      ensures BlockedUpstream(g, broken + {order[k].name}, order[j].name) <==> BlockedUpstream(g, broken, order[j].name)
    {
      forall d | DependsOn(g, order[j].name, d)
        ensures Blocked(g, broken + {order[k].name}, d) <==> Blocked(g, broken, d)
      {
        assert Among(order, j, d);
        var m :| 0 <= m < j && order[m].name == d;
        assert order[m].name == d;
        LaterStepsDoNotBlock(order, g, broken, k, d);
      }
    }
  }

  /** A step with a poisoned dependency is skipped, and skipping it is right. */
  lemma SkipSettles(order: seq<Step>, g: Graph<string>, k: nat, good: set<string>, broken: set<string>,
                    skipped: set<string>, d: string)
    requires TopologicalFor(order, g) && k < |order| && Settled(order, g, k, good, broken, skipped)
    requires DependsOn(g, order[k].name, d) && (d in skipped || d in broken)
    ensures Settled(order, g, k + 1, good, broken, skipped + {order[k].name})
  {
    NameIsNew(order, k);
    NextMatches(order, g, skipped, broken, k);
    assert BlockedUpstream(g, broken, order[k].name);
    SkipsMatchGrows(order, g, skipped, broken, k);
  }

  lemma SkipsMatchGrows(order: seq<Step>, g: Graph<string>, skipped: set<string>, broken: set<string>, k: nat)
    requires UniqueNames(order) && k < |order| && SkipsMatch(order, g, skipped, broken, k)
    requires BlockedUpstream(g, broken, order[k].name)
    ensures SkipsMatch(order, g, skipped + {order[k].name}, broken, k + 1)
  {}

  /** A step without poisoned dependencies may run: all of them ran well. */
  lemma RunSettles(order: seq<Step>, g: Graph<string>, k: nat, good: set<string>, broken: set<string>,
                   skipped: set<string>)
    requires TopologicalFor(order, g) && k < |order| && Settled(order, g, k, good, broken, skipped)
    requires forall d :: DependsOn(g, order[k].name, d) ==> d !in skipped && d !in broken
    ensures Settled(order, g, k + 1, good + {order[k].name}, broken, skipped)
    ensures Settled(order, g, k + 1, good, broken + {order[k].name}, skipped)
    ensures SkipsMatch(order, g, skipped, broken, k + 1)
    ensures DependenciesIn(g, good + broken + {order[k].name}, good)
  {
    NameIsNew(order, k);
    NextMatches(order, g, skipped, broken, k);
    BreakMatches(order, g, skipped, broken, k);
    DependenciesRan(order, g, k, good, broken, skipped);
    DependenciesGrow(g, good, broken, order[k].name);
  }

  lemma DependenciesRan(order: seq<Step>, g: Graph<string>, k: nat, good: set<string>, broken: set<string>,
                        skipped: set<string>)
    requires TopologicalFor(order, g) && k < |order|
      && (forall n :: n in good + broken + skipped <==> Among(order, k, n))
    requires forall d :: DependsOn(g, order[k].name, d) ==> d !in skipped && d !in broken
    ensures forall d :: DependsOn(g, order[k].name, d) ==> d in good
  {}

  lemma DependenciesGrow(g: Graph<string>, good: set<string>, broken: set<string>, n: string)
    requires DependenciesIn(g, good + broken, good)
    requires forall d :: DependsOn(g, n, d) ==> d in good
    ensures DependenciesIn(g, good + {n} + broken, good + {n})
    ensures DependenciesIn(g, good + (broken + {n}), good)
    ensures DependenciesIn(g, good + broken + {n}, good)
  {}

  lemma OrderIsTopological(steps: seq<Step>)
    requires Valid(steps)
    ensures TopologicalFor(Order(steps), Dependencies(steps))
  {
    var g, r := Dependencies(steps), Order(steps);
    OrderIsSortedPermutation(steps);
    forall i | 0 <= i < |r|
      ensures r[i] in steps
    {
      assert r[i] in multiset(r);
    }
    forall i | 0 <= i < |r|
      ensures forall d :: DependsOn(g, r[i].name, d) <==> d in r[i].dependsOn
    {
      DependenciesOfStep(steps, r[i]);
    }
    forall i, d | 0 <= i < |r| && DependsOn(g, r[i].name, d)
      ensures Among(r, i, d)
    {
      assert d in r[i].dependsOn;
    }
  }

  ghost predicate NeedsPoisoned(step: Step, res: RunResult) {
    exists d <- step.dependsOn :: d in Poisoned(res)
  }

  /** What the next step adds to a run. */
  ghost function NextOf(step: Step, run: int -> Attempt, threshold: int, maxAttempts: int, res: RunResult): RunResult {
    if Stopped(res) then res
    else if NeedsPoisoned(step, res) then res.(skipped := res.skipped + [step.name])
    else
      var end := StepEnd(run, Some(threshold), maxAttempts);
      res.(stepResults := res.stepResults + [StepResult(step.name, end.0, end.1)])
  }

  /** The run of the first k steps of an order. */
  ghost function RunOf(
    order: seq<Step>, run: (string, int) -> Attempt, threshold: int, maxAttempts: int, k: nat
  ): RunResult
    requires k <= |order|
  {
    if k == 0 then RunResult([], [])
    else
      NextOf(order[k - 1], Of(run, order[k - 1].name), threshold, maxAttempts,
             RunOf(order, run, threshold, maxAttempts, k - 1))
  }

  /** A run stops after a critical failure. */
  predicate Stopped(res: RunResult) {
    res.stepResults != [] && res.stepResults[|res.stepResults| - 1].outcome == CriticalFailure
  }

  lemma {:induction false} StoppedStays(order: seq<Step>, run: (string, int) -> Attempt, threshold: int,
                                        maxAttempts: int, j: nat, k: nat)
    requires j <= k <= |order| && Stopped(RunOf(order, run, threshold, maxAttempts, j))
    ensures RunOf(order, run, threshold, maxAttempts, k) == RunOf(order, run, threshold, maxAttempts, j)
    decreases k
  {
    if j < k {
      StoppedStays(order, run, threshold, maxAttempts, j, k - 1);
    }
  }

  /** What a run reports about its order, its steps and where it stopped. */
  ghost predicate Report(order: seq<Step>, g: Graph<string>, run: (string, int) -> Attempt, threshold: int,
                         maxAttempts: int, res: RunResult) {
    && Splits(order, g, res)
    && EachEnds(run, threshold, maxAttempts, res.stepResults)
    && StopsOnlyWhenCritical(order, res)
  }

  lemma EachEndsGrows(
    run: (string, int) -> Attempt, threshold: int, maxAttempts: int, rs: seq<StepResult>, result: StepResult
  )
    requires EachEnds(run, threshold, maxAttempts, rs)
    requires Ends(Of(run, result.name), Some(threshold), maxAttempts, result.outcome, result.attempts)
    ensures EachEnds(run, threshold, maxAttempts, rs + [result])
  {}

  /** Loop invariant of run_workflow, the order's side: the verdicts on the reached steps are right. */
  ghost predicate VerdictsRight(order: seq<Step>, g: Graph<string>, res: RunResult) {
    && Reached(res) <= |order|
    && Settled(order, g, Reached(res), RanWell(res), Broken(res), Skipped(res))
  }

  /** Loop invariant of run_workflow, the lists' side: executed and skipped steps are listed in order. */
  ghost predicate ListsRight(order: seq<Step>, res: RunResult) {
    && Reached(res) <= |order|
    && SplitInto(order, Reached(res), NamesOf(res.stepResults), Executed(res), res.skipped, Skipped(res))
  }

  lemma SkipVerdict(order: seq<Step>, g: Graph<string>, res: RunResult, d: string)
    requires TopologicalFor(order, g) && VerdictsRight(order, g, res) && Reached(res) < |order|
    requires d in order[Reached(res)].dependsOn && d in Skipped(res) + Broken(res)
    ensures VerdictsRight(order, g, res.(skipped := res.skipped + [order[Reached(res)].name]))
  {
    assert DependsOn(g, order[Reached(res)].name, d);
    SkipSettles(order, g, Reached(res), RanWell(res), Broken(res), Skipped(res), d);
    SkippedGrow(res.skipped, order[Reached(res)].name);
  }

  lemma SkipLists(order: seq<Step>, res: RunResult)
    requires UniqueNames(order) && ListsRight(order, res) && Reached(res) < |order|
    ensures ListsRight(order, res.(skipped := res.skipped + [order[Reached(res)].name]))
  {
    var k, names := Reached(res), NamesOf(res.stepResults);
    SplitFlip(order, k, names, Executed(res), res.skipped, Skipped(res));
    SplitNext(order, k, res.skipped, Skipped(res), names, Executed(res));
    SplitFlip(order, k + 1, res.skipped + [order[k].name], Skipped(res) + {order[k].name}, names, Executed(res));
    SkippedGrow(res.skipped, order[k].name);
  }

  lemma RunLists(order: seq<Step>, res: RunResult, result: StepResult)
    requires UniqueNames(order) && ListsRight(order, res) && Reached(res) < |order|
    requires result.name == order[Reached(res)].name
    ensures ListsRight(order, res.(stepResults := res.stepResults + [result]))
  {
    SplitNext(order, Reached(res), NamesOf(res.stepResults), Executed(res), res.skipped, Skipped(res));
    ResultsGrow(res.stepResults, result);
  }

  /** What one more result adds to the sets of names. */
  lemma SetsGrow(res: RunResult, result: StepResult)
    requires Critical(res) == {}
    ensures var next, name := res.(stepResults := res.stepResults + [result]), {result.name};
      && Reached(next) == Reached(res) + 1 && Skipped(next) == Skipped(res)
      && Executed(next) == RanWell(res) + Broken(res) + name
      && RanWell(next) == (if Good(result.outcome) then RanWell(res) + name else RanWell(res))
      && Broken(next) == (if result.outcome == CircuitOpen then Broken(res) + name else Broken(res))
      && Critical(next) == if result.outcome == CriticalFailure then name else {}
  {
    ResultsGrow(res.stepResults, result);
    OutcomesCover(res.stepResults);
    hide Ran, RanWith;
  }

  lemma RunVerdict(order: seq<Step>, g: Graph<string>, res: RunResult, result: StepResult)
    requires TopologicalFor(order, g) && VerdictsRight(order, g, res) && Reached(res) < |order|
    requires result.name == order[Reached(res)].name && Critical(res) == {}
    requires forall d <- order[Reached(res)].dependsOn :: d !in Skipped(res) && d !in Broken(res)
    ensures var next := res.(stepResults := res.stepResults + [result]);
      && SkipsMatch(order, g, Skipped(next), Broken(next), Reached(next))
      && DependenciesIn(g, Executed(next), RanWell(next))
      && (result.outcome != CriticalFailure ==> VerdictsRight(order, g, next) && Critical(next) == {})
  {
    hide RanWell, Broken, Skipped, Executed, Critical, SkipsMatch, DependenciesIn;
    RunSettles(order, g, Reached(res), RanWell(res), Broken(res), Skipped(res));
    SetsGrow(res, result);
    assert RanWell(res) + {result.name} + Broken(res) == RanWell(res) + Broken(res) + {result.name};
    assert RanWell(res) + (Broken(res) + {result.name}) == RanWell(res) + Broken(res) + {result.name};
  }

  lemma RunStopsRight(order: seq<Step>, res: RunResult, result: StepResult)
    requires Critical(res) == {} && Reached(res) < |order| && result.name == order[Reached(res)].name
    ensures result.outcome == CriticalFailure ==>
      StopsOnlyWhenCritical(order, res.(stepResults := res.stepResults + [result]))
  {
    NoCritical(res);
  }

  lemma NoCritical(res: RunResult)
    requires Critical(res) == {}
    ensures forall r <- res.stepResults :: r.outcome != CriticalFailure
  {
    forall r | r in res.stepResults
      ensures r.outcome != CriticalFailure
    {
      RanMember(res.stepResults, r);
    }
  }

  lemma VerdictsSplit(order: seq<Step>, g: Graph<string>, res: RunResult)
    requires VerdictsRight(order, g, res) && ListsRight(order, res) && Critical(res) == {}
    ensures Splits(order, g, res)
  {
    OutcomesCover(res.stepResults);
  }

  /** The whole loop invariant of run_workflow. */
  ghost predicate InProgress(order: seq<Step>, g: Graph<string>, run: (string, int) -> Attempt, threshold: int,
                             maxAttempts: int, res: RunResult) {
    && VerdictsRight(order, g, res)
    && ListsRight(order, res)
    && Critical(res) == {}
    && EachEnds(run, threshold, maxAttempts, res.stepResults)
  }

  lemma SkipNext(order: seq<Step>, g: Graph<string>, run: (string, int) -> Attempt, threshold: int,
                 maxAttempts: int, res: RunResult)
    requires TopologicalFor(order, g) && InProgress(order, g, run, threshold, maxAttempts, res)
    requires Reached(res) < |order| && exists d <- order[Reached(res)].dependsOn :: d in Poisoned(res)
    ensures InProgress(order, g, run, threshold, maxAttempts, res.(skipped := res.skipped + [order[Reached(res)].name]))
  {
    var d :| d in order[Reached(res)].dependsOn && d in Skipped(res) + Broken(res);
    SkipVerdict(order, g, res, d);
    SkipLists(order, res);
  }

  lemma RunNext(order: seq<Step>, g: Graph<string>, run: (string, int) -> Attempt, threshold: int,
                maxAttempts: int, res: RunResult, result: StepResult)
    requires TopologicalFor(order, g) && InProgress(order, g, run, threshold, maxAttempts, res)
    requires Reached(res) < |order| && result.name == order[Reached(res)].name
    requires Ends(Of(run, result.name), Some(threshold), maxAttempts, result.outcome, result.attempts)
    requires forall d <- order[Reached(res)].dependsOn :: d !in Poisoned(res)
    ensures var next := res.(stepResults := res.stepResults + [result]);
      if result.outcome == CriticalFailure then Report(order, g, run, threshold, maxAttempts, next)
      else InProgress(order, g, run, threshold, maxAttempts, next)
  {
    RunVerdict(order, g, res, result);
    RunLists(order, res, result);
    RunStopsRight(order, res, result);
    EachEndsGrows(run, threshold, maxAttempts, res.stepResults, result);
  }

  lemma RunFinished(order: seq<Step>, g: Graph<string>, run: (string, int) -> Attempt, threshold: int,
                    maxAttempts: int, res: RunResult)
    requires InProgress(order, g, run, threshold, maxAttempts, res) && Reached(res) == |order|
    ensures Report(order, g, run, threshold, maxAttempts, res)
  {
    VerdictsSplit(order, g, res);
    NoCritical(res);
  }

  /** One step of the run keeps the invariant, or ends the run with a report. */
  lemma NextOfReports(order: seq<Step>, g: Graph<string>, run: (string, int) -> Attempt, threshold: int,
                      maxAttempts: int, res: RunResult)
    requires TopologicalFor(order, g) && InProgress(order, g, run, threshold, maxAttempts, res)
    requires Reached(res) < |order| && !Stopped(res)
    ensures var step := order[Reached(res)];
      var next := NextOf(step, Of(run, step.name), threshold, maxAttempts, res);
      && Reached(next) == Reached(res) + 1
      && if Stopped(next) then Report(order, g, run, threshold, maxAttempts, next)
         else InProgress(order, g, run, threshold, maxAttempts, next)
  {
    var step := order[Reached(res)];
    if NeedsPoisoned(step, res) {
      SkipNext(order, g, run, threshold, maxAttempts, res);
    } else {
      var end := StepEnd(Of(run, step.name), Some(threshold), maxAttempts);
      StepEndIsTheEnd(Of(run, step.name), Some(threshold), maxAttempts, end.0, end.1);
      RunNext(order, g, run, threshold, maxAttempts, res, StepResult(step.name, end.0, end.1));
    }
  }

  /** After k steps the run either stopped, with its report, or is in progress. */
  ghost predicate Progressed(order: seq<Step>, g: Graph<string>, run: (string, int) -> Attempt,
                             threshold: int, maxAttempts: int, k: nat, res: RunResult)
    requires k <= |order|
  {
    if Stopped(res) then Report(order, g, run, threshold, maxAttempts, res)
    else InProgress(order, g, run, threshold, maxAttempts, res) && Reached(res) == k
  }

  lemma NextProgresses(order: seq<Step>, g: Graph<string>, run: (string, int) -> Attempt,
                       threshold: int, maxAttempts: int, k: nat, res: RunResult)
    requires TopologicalFor(order, g) && k < |order|
    requires Progressed(order, g, run, threshold, maxAttempts, k, res)
    ensures Progressed(order, g, run, threshold, maxAttempts, k + 1,
                       NextOf(order[k], Of(run, order[k].name), threshold, maxAttempts, res))
  {
    if !Stopped(res) {
      NextOfReports(order, g, run, threshold, maxAttempts, res);
    }
  }

  lemma NothingRanYet(
    order: seq<Step>, g: Graph<string>, run: (string, int) -> Attempt, threshold: int, maxAttempts: int
  )
    requires TopologicalFor(order, g)
    ensures Progressed(order, g, run, threshold, maxAttempts, 0, RunResult([], []))
  {}

  lemma {:induction false} RunOfProgresses(order: seq<Step>, g: Graph<string>, run: (string, int) -> Attempt,
                                           threshold: int, maxAttempts: int, k: nat) returns (res: RunResult)
    requires TopologicalFor(order, g) && k <= |order|
    ensures res == RunOf(order, run, threshold, maxAttempts, k)
    ensures Progressed(order, g, run, threshold, maxAttempts, k, res)
  {
    hide NextOf, Progressed, TopologicalFor;
    if k == 0 {
      res := RunResult([], []);
      NothingRanYet(order, g, run, threshold, maxAttempts);
    } else {
      var before := RunOfProgresses(order, g, run, threshold, maxAttempts, k - 1);
      NextProgresses(order, g, run, threshold, maxAttempts, k - 1, before);
      res := NextOf(order[k - 1], Of(run, order[k - 1].name), threshold, maxAttempts, before);
    }
  }

  /** Every run of a topological order reports as described by Splits, EachEnds and StopsOnlyWhenCritical. */
  lemma RunReports(order: seq<Step>, g: Graph<string>, run: (string, int) -> Attempt, threshold: int, maxAttempts: int)
    requires TopologicalFor(order, g)
    ensures Report(order, g, run, threshold, maxAttempts, RunOf(order, run, threshold, maxAttempts, |order|))
  {
    var res := RunOfProgresses(order, g, run, threshold, maxAttempts, |order|);
    if !Stopped(res) {
      RunFinished(order, g, run, threshold, maxAttempts, res);
    }
  }

  /**
   What RunResult.success means: it holds exactly when every step of the order ran and
   ended well; then nothing was skipped and nothing was left unreached.
   */
  lemma SuccessMeansAllRan(order: seq<Step>, g: Graph<string>, res: RunResult)
    requires TopologicalFor(order, g) && Splits(order, g, res) && StopsOnlyWhenCritical(order, res)
    ensures Succeeded(res) <==> forall s <- order :: s.name in RanWell(res)
    ensures Succeeded(res) ==> res.skipped == [] && Reached(res) == |order|
  {
    if Succeeded(res) {
      AllGood(res.stepResults);
      assert order[..|order|] == order;
      forall s | s in order
        ensures s.name in RanWell(res) && s.name !in Skipped(res)
      {
        var i :| 0 <= i < |order| && order[i] == s;
        assert Among(order, |order|, s.name);
        NothingBlocked(g, s.name);
      }
      NothingSelected(order, Skipped(res));
    } else {
      var r :| r in res.stepResults && !Good(r.outcome);
      BadStepIsNotGood(order, g, res, r);
    }
  }

  lemma NothingBlocked(g: Graph<string>, n: string)
    ensures !BlockedUpstream(g, {}, n)
  {}

  lemma {:induction false} AllGood(rs: seq<StepResult>)
    requires forall r <- rs :: Good(r.outcome)
    ensures RanWith(rs, {CircuitOpen}) == {} && RanWith(rs, {Success, Retried}) == Ran(rs)
  {
    if rs != [] {
      AllGood(rs[..|rs| - 1]);
    }
  }

  lemma {:induction false} NothingSelected(order: seq<Step>, names: set<string>)
    requires forall s <- order :: s.name !in names
    ensures Select(order, names) == []
  {
    if order != [] {
      NothingSelected(order[..|order| - 1], names);
    }
  }

  /** Names are listed once, so a step that went wrong is not also among those that ran well. */
  lemma BadStepIsNotGood(order: seq<Step>, g: Graph<string>, res: RunResult, r: StepResult)
    requires TopologicalFor(order, g) && Splits(order, g, res) && r in res.stepResults && !Good(r.outcome)
    ensures r.name !in RanWell(res) && exists s :: s in order && s.name == r.name
  {
    var k, rs := Reached(res), res.stepResults;
    RanMember(rs, r);
    assert Among(order, k, r.name);
    var i :| 0 <= i < k && order[i].name == r.name;
    assert order[i] in order;
    SelectDistinct(order, k, Executed(res));
    if r.name in RanWell(res) {
      RanWithMember(rs, {Success, Retried}, r.name);
      var r' :| r' in rs && r'.name == r.name && r'.outcome in {Success, Retried};
      var a :| 0 <= a < |rs| && rs[a] == r;
      var b :| 0 <= b < |rs| && rs[b] == r';
      NamesAt(rs, a);
      NamesAt(rs, b);
    }
  }

  lemma {:induction false} NamesAt(rs: seq<StepResult>, i: nat)
    requires i < |rs|
    ensures |NamesOf(rs)| == |rs| && NamesOf(rs)[i] == rs[i].name
  {
    if i < |rs| - 1 {
      NamesAt(rs[..|rs| - 1], i);
    } else if |rs| > 1 {
      NamesAt(rs[..|rs| - 1], 0);
    }
  }

  lemma {:induction false} SelectDistinct(order: seq<Step>, k: nat, names: set<string>)
    requires UniqueNames(order) && k <= |order|
    ensures Distinct(Select(order[..k], names))
    ensures forall n <- Select(order[..k], names) :: Among(order, k, n)
  {
    if k > 0 {
      SelectDistinct(order, k - 1, names);
      SelectNext(order, k - 1, names);
      NameIsNew(order, k - 1);
    }
  }

  /** run_workflow */
  method RunWorkflow(steps: seq<Step>, run: (string, int) -> Attempt, audit: AuditLog?,
                     maxAttempts: int, baseDelay: real, threshold: int)
    returns (r: Result<RunResult, OrderError>)
    modifies audit
    ensures r.Ok? <==> Valid(steps)
    ensures r.Ok? ==> r.value == RunOf(Order(steps), run, threshold, maxAttempts, |Order(steps)|)
    ensures r.Ok? ==> Report(Order(steps), Dependencies(steps), run, threshold, maxAttempts, r.value)
    ensures r.Ok? ==> Logged(audit, old(Rows(audit)), run, threshold, r.value.stepResults)
    ensures r.Err? && audit != null ==> Rows(audit) == old(Rows(audit))
  {
    var ordered := Ordered(steps);
    if ordered.Err? {
      return Err(ordered.error);
    }
    OrderIsTopological(steps);
    RunReports(ordered.value, Dependencies(steps), run, threshold, maxAttempts);
    var res := RunOrder(ordered.value, run, audit, maxAttempts, baseDelay, threshold);
    return Ok(res);
  }

  method RunOrder(order: seq<Step>, run: (string, int) -> Attempt, audit: AuditLog?,
                  maxAttempts: int, baseDelay: real, threshold: int)
    returns (res: RunResult)
    requires UniqueNames(order)
    modifies audit
    ensures res == RunOf(order, run, threshold, maxAttempts, |order|)
    ensures Logged(audit, old(Rows(audit)), run, threshold, res.stepResults)
  {
    hide NextOf, NewRows, UniqueNames;
    ghost var logged := Rows(audit);
    var breakers: map<string, CircuitBreaker> := map[];
    var poisoned: set<string> := {};
    res := RunResult([], []);
    for i := 0 to |order|
      invariant res == RunOf(order, run, threshold, maxAttempts, i) && !Stopped(res)
      invariant poisoned == Poisoned(res)
      invariant forall n <- breakers :: Among(order, i, n)
      invariant Logged(audit, logged, run, threshold, res.stepResults)
    {
      NameIsNew(order, i);
      ghost var before := res;
      res, breakers, poisoned := Advance(order[i], Of(run, order[i].name), breakers, poisoned, audit,
                                         maxAttempts, baseDelay, threshold, res);
      if audit != null {
        LogGrows(Rows(audit), logged, run, threshold, maxAttempts, order[i], before, res);
      }
      if Stopped(res) {
        StoppedStays(order, run, threshold, maxAttempts, i + 1, |order|);
        return;
      }
    }
  }

  lemma PoisonGrows(res: RunResult, result: StepResult)
    ensures Poisoned(res.(skipped := res.skipped + [result.name])) == Poisoned(res) + {result.name}
    ensures Poisoned(res.(stepResults := res.stepResults + [result]))
         == Poisoned(res) + if result.outcome == CircuitOpen then {result.name} else {}
  {}

  /** The log holds what it held before the run, followed by the rows of the given results. */
  ghost predicate Logged(audit: AuditLog?, before: seq<AuditEntry>, run: (string, int) -> Attempt,
                         threshold: int, rs: seq<StepResult>)
    reads audit
  {
    audit != null ==> Rows(audit) == before + AuditOf(run, threshold, rs)
  }

  /** Skips or runs one step; a step that runs keeps its breaker under its name. */
  method Advance(step: Step, run: int -> Attempt, breakers: map<string, CircuitBreaker>, poisoned: set<string>,
                 audit: AuditLog?, maxAttempts: int, baseDelay: real, threshold: int, res: RunResult)
    returns (res': RunResult, breakers': map<string, CircuitBreaker>, poisoned': set<string>)
    requires poisoned == Poisoned(res) && step.name !in breakers && !Stopped(res)
    modifies audit
    ensures res' == NextOf(step, run, threshold, maxAttempts, res)
    ensures !Stopped(res') ==> poisoned' == Poisoned(res')
    ensures breakers'.Keys <= breakers.Keys + {step.name}
    ensures audit != null ==> Rows(audit) == old(Rows(audit)) + NewRows(step, run, threshold, res, res')
  {
    if exists d :: d in step.dependsOn && d in poisoned {
      PoisonGrows(res, StepResult(step.name, CircuitOpen, 0));
      return res.(skipped := res.skipped + [step.name]), breakers, poisoned + {step.name};
    }
    var breaker := new CircuitBreaker(threshold);
    breakers' := breakers[step.name := breaker];
    var result := RunWithBreaker(step.name, run, breaker, audit, maxAttempts, baseDelay);
    res' := res.(stepResults := res.stepResults + [result]);
    poisoned' := if result.outcome == CircuitOpen || result.outcome == CriticalFailure
                 then poisoned + {step.name} else poisoned;
    PoisonGrows(res, result);
  }

  /** What a step writes to the log: nothing if it was skipped. */
  ghost function NewRows(
    step: Step, run: int -> Attempt, threshold: int, res: RunResult, next: RunResult
  ): seq<AuditEntry> {
    if |next.stepResults| <= |res.stepResults| then []
    else StepAudit(step.name, run, Some(threshold), next.stepResults[|res.stepResults|].attempts)
  }

  method RunWithBreaker(name: string, run: int -> Attempt, breaker: CircuitBreaker, audit: AuditLog?,
                        maxAttempts: int, baseDelay: real)
    returns (result: StepResult)
    requires breaker.failures == 0
    modifies breaker, audit
    ensures result.name == name
    ensures (result.outcome, result.attempts) == StepEnd(run, Some(breaker.threshold), maxAttempts)
    ensures audit != null ==>
      Rows(audit) == old(Rows(audit)) + StepAudit(name, run, Some(breaker.threshold), result.attempts)
  {
    var outcome, attempts, slept := ExecuteStep(name, run, breaker, audit, maxAttempts, baseDelay);
    StepEndIsTheEnd(run, Some(breaker.threshold), maxAttempts, outcome, attempts);
    result := StepResult(name, outcome, attempts);
  }

  lemma LogGrows(rows: seq<AuditEntry>, logged: seq<AuditEntry>, run: (string, int) -> Attempt, threshold: int,
                 maxAttempts: int, step: Step, res: RunResult, next: RunResult)
    requires next == NextOf(step, Of(run, step.name), threshold, maxAttempts, res)
    requires rows ==
      logged + AuditOf(run, threshold, res.stepResults) + NewRows(step, Of(run, step.name), threshold, res, next)
    ensures rows == logged + AuditOf(run, threshold, next.stepResults)
  {
    if |next.stepResults| > |res.stepResults| {
      assert next.stepResults[..|res.stepResults|] == res.stepResults;
      ConcatAssociative(logged, AuditOf(run, threshold, res.stepResults),
                        NewRows(step, Of(run, step.name), threshold, res, next));
    }
  }
}
