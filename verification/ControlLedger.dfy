/**
 The evidence ledger, its tallies and the execution gate
 (backend/control/{ledger,report,gate}.py). The ledger is a sequence that only grows at the
 end; judging a row fills in its outcome in place.
 */
module ControlLedger {
  import opened Common
  import opened ControlSensors

  datatype Outcome = Recovered | Persisted | InsufficientData

  datatype LedgerRow = LedgerRow(
    source: string, state: ControlState, action: ActionType, executed: bool, createdAt: int,
    evaluatedAt: Option<int>, outcome: Option<Outcome>
  )

  const HOUR := 3600

  datatype Mode = Advisory | Automatic

  datatype GateConfig = GateConfig(mode: Mode, minSamples: int, minRecoveryRate: real, cooldown: int, maxPerHour: int)

  // ---------------------------------------------------------------------------
  // Tallies
  // ---------------------------------------------------------------------------

  datatype Totals = Totals(total: nat, evaluated: nat, recovered: nat, persisted: nat, insufficient: nat) {
    function Pending(): int { total - evaluated }

    function RecoveryRate(): Option<real> {
      if recovered + persisted == 0 then None else Some(recovered as real / (recovered + persisted) as real)
    }
  }

  function Tallied(t: Totals, r: LedgerRow): Totals {
    Totals(t.total + 1,
           t.evaluated + (if r.evaluatedAt.Some? then 1 else 0),
           t.recovered + (if r.outcome == Some(Recovered) then 1 else 0),
           t.persisted + (if r.outcome == Some(Persisted) then 1 else 0),
           t.insufficient + (if r.outcome == Some(InsufficientData) then 1 else 0))
  }

  function Tally(rows: seq<LedgerRow>): Totals {
    if rows == [] then Totals(0, 0, 0, 0, 0) else Tallied(Tally(rows[..|rows| - 1]), rows[|rows| - 1])
  }

  /** A row has an outcome exactly if it has been evaluated. */
  ghost predicate WellJudged(rows: seq<LedgerRow>) {
    forall r <- rows :: r.outcome.Some? <==> r.evaluatedAt.Some?
  }

  /** The totals of any set of well judged rows add up. */
  lemma {:induction false} TotalsAddUp(rows: seq<LedgerRow>)
    requires WellJudged(rows)
    ensures var t := Tally(rows);
      && t.total == |rows|
      && t.evaluated == t.recovered + t.persisted + t.insufficient
      && t.total == t.Pending() + t.recovered + t.persisted + t.insufficient
      && t.Pending() >= 0
  {
    if rows != [] {
      assert rows[|rows| - 1] in rows;
      TotalsAddUp(rows[..|rows| - 1]);
      match rows[|rows| - 1].outcome
      case None =>
      case Some(o) => assert o == Recovered || o == Persisted || o == InsufficientData;
    }
  }

  /** The rows of one (state, action) bucket, in ledger order. */
  function Bucket(rows: seq<LedgerRow>, state: ControlState, action: ActionType): seq<LedgerRow> {
    if rows == [] then []
    else
      var last := rows[|rows| - 1];
      Bucket(rows[..|rows| - 1], state, action) + if last.state == state && last.action == action then [last] else []
  }

  lemma {:induction false} BucketMembers(rows: seq<LedgerRow>, state: ControlState, action: ActionType)
    ensures forall r :: r in Bucket(rows, state, action) <==> r in rows && r.state == state && r.action == action
  {
    if rows != [] {
      BucketMembers(rows[..|rows| - 1], state, action);
      assert rows == rows[..|rows| - 1] + [rows[|rows| - 1]];
    }
  }

  /** The totals add up in every bucket of a well judged ledger. */
  lemma EveryBucketAddsUp(rows: seq<LedgerRow>, state: ControlState, action: ActionType)
    requires WellJudged(rows)
    ensures var t := Tally(Bucket(rows, state, action));
      t.total == t.Pending() + t.recovered + t.persisted + t.insufficient && t.Pending() >= 0
  {
    BucketMembers(rows, state, action);
    TotalsAddUp(Bucket(rows, state, action));
  }

  /** bucket_by_state_action: one pass over the ledger fills every bucket. */
  method BucketByStateAction(rows: seq<LedgerRow>)
    returns (buckets: map<(ControlState, ActionType), seq<LedgerRow>>)
    ensures forall state, action :: (state, action) in buckets <==> Bucket(rows, state, action) != []
    ensures forall state, action :: (state, action) in buckets ==>
      buckets[(state, action)] == Bucket(rows, state, action)
  {
    buckets := map[];
    for i := 0 to |rows|
      invariant forall state, action :: (state, action) in buckets <==> Bucket(rows[..i], state, action) != []
      invariant forall state, action :: (state, action) in buckets ==>
        buckets[(state, action)] == Bucket(rows[..i], state, action)
    {
      assert rows[..i + 1][..i] == rows[..i];
      var key := (rows[i].state, rows[i].action);
      buckets := buckets[key := (if key in buckets then buckets[key] else []) + [rows[i]]];
    }
    assert rows[..|rows|] == rows;
  }

  // ---------------------------------------------------------------------------
  // The gate
  // ---------------------------------------------------------------------------

  datatype GateResult =
    | Allow
    | KillSwitch | NotAutomatic | BelowMinSamples | BelowMinRecoveryRate
    | CooldownActive | HourlyCapExhausted | UnresolvedInFlight

  function LatestExecuted(rows: seq<LedgerRow>, source: string, action: ActionType): Option<int> {
    if rows == [] then None
    else
      var before, r := LatestExecuted(rows[..|rows| - 1], source, action), rows[|rows| - 1];
      if !(r.source == source && r.action == action && r.executed) then before
      else if before.Some? && before.value > r.createdAt then before
      else Some(r.createdAt)
  }

  function ExecutedSince(rows: seq<LedgerRow>, t: int): nat {
    if rows == [] then 0
    else
      var r := rows[|rows| - 1];
      ExecutedSince(rows[..|rows| - 1], t) + if r.executed && r.createdAt >= t then 1 else 0
  }

  predicate InFlight(rows: seq<LedgerRow>, source: string, action: ActionType, state: ControlState) {
    exists r <- rows :: r.source == source && r.action == action && r.state == state && r.executed
      && r.evaluatedAt.None?
  }

  /** evaluate_gate: the first condition that fails names the result. */
  function EvaluateGate(rows: seq<LedgerRow>, killed: bool, source: string, action: ActionType, state: ControlState,
                        now: int, cfg: GateConfig): GateResult {
    var bucket := Tally(Bucket(rows, state, action));
    var latest := LatestExecuted(rows, source, action);
    if killed then KillSwitch
    else if cfg.mode != Automatic then NotAutomatic
    else if bucket.evaluated < cfg.minSamples then BelowMinSamples
    else if bucket.RecoveryRate().None? || bucket.RecoveryRate().value < cfg.minRecoveryRate then BelowMinRecoveryRate
    else if latest.Some? && now - latest.value < cfg.cooldown then CooldownActive
    else if ExecutedSince(rows, now - HOUR) >= cfg.maxPerHour then HourlyCapExhausted
    else if InFlight(rows, source, action, state) then UnresolvedInFlight
    else Allow
  }

  // ---------------------------------------------------------------------------
  // What the gate asks of the ledger, row by row
  // ---------------------------------------------------------------------------

  ghost function Where(rows: seq<LedgerRow>, p: LedgerRow -> bool): set<nat> {
    set i | 0 <= i < |rows| && p(rows[i])
  }

  function IsJudged(state: ControlState, action: ActionType): LedgerRow -> bool {
    (r: LedgerRow) => r.state == state && r.action == action && r.evaluatedAt.Some?
  }

  function HasVerdict(state: ControlState, action: ActionType, o: Outcome): LedgerRow -> bool {
    (r: LedgerRow) => r.state == state && r.action == action && r.outcome == Some(o)
  }

  function IsExecutedFrom(since: int): LedgerRow -> bool {
    (r: LedgerRow) => r.executed && r.createdAt >= since
  }

  ghost predicate EnoughSamples(rows: seq<LedgerRow>, state: ControlState, action: ActionType, cfg: GateConfig) {
    |Where(rows, IsJudged(state, action))| >= cfg.minSamples
  }

  /** Of the rows that recovered or persisted there are some, and the share that recovered is large enough. */
  ghost predicate EnoughRecovery(rows: seq<LedgerRow>, state: ControlState, action: ActionType, cfg: GateConfig) {
    var recovered := |Where(rows, HasVerdict(state, action, Recovered))|;
    var persisted := |Where(rows, HasVerdict(state, action, Persisted))|;
    recovered + persisted > 0 && recovered as real >= cfg.minRecoveryRate * (recovered + persisted) as real
  }

  ghost predicate CooledDown(rows: seq<LedgerRow>, source: string, action: ActionType, now: int, cfg: GateConfig) {
    forall r <- rows :: r.source == source && r.action == action && r.executed ==> now - r.createdAt >= cfg.cooldown
  }

  ghost predicate BelowCap(rows: seq<LedgerRow>, now: int, cfg: GateConfig) {
    |Where(rows, IsExecutedFrom(now - 3600))| < cfg.maxPerHour
  }

  ghost predicate NoneUnjudged(rows: seq<LedgerRow>, source: string, action: ActionType, state: ControlState) {
    forall r <- rows :: r.source == source && r.action == action && r.state == state && r.executed ==>
      r.evaluatedAt.Some?
  }

  lemma WhereGrows(rows: seq<LedgerRow>, p: LedgerRow -> bool)
    requires rows != []
    ensures |Where(rows, p)| == |Where(rows[..|rows| - 1], p)| + if p(rows[|rows| - 1]) then 1 else 0
  {
    var n := |rows| - 1;
    assert Where(rows, p) == Where(rows[..n], p) + if p(rows[n]) then {n} else {};
  }

  lemma NowhereAtFirst(p: LedgerRow -> bool)
    ensures Where([], p) == {}
  {}

  lemma BucketGrows(rows: seq<LedgerRow>, state: ControlState, action: ActionType)
    requires rows != []
    ensures var r, before := rows[|rows| - 1], Tally(Bucket(rows[..|rows| - 1], state, action));
      Tally(Bucket(rows, state, action)) ==
        if r.state == state && r.action == action then Tallied(before, r) else before
  {
    var front := Bucket(rows[..|rows| - 1], state, action);
    AppendedPrefix(front, rows[|rows| - 1]);
    assert front + [] == front;
  }

  lemma {:induction false} BucketCounts(rows: seq<LedgerRow>, state: ControlState, action: ActionType)
    ensures var t := Tally(Bucket(rows, state, action));
      && t.evaluated == |Where(rows, IsJudged(state, action))|
      && t.recovered == |Where(rows, HasVerdict(state, action, Recovered))|
      && t.persisted == |Where(rows, HasVerdict(state, action, Persisted))|
  {
    if rows == [] {
      NowhereAtFirst(IsJudged(state, action));
      NowhereAtFirst(HasVerdict(state, action, Recovered));
      NowhereAtFirst(HasVerdict(state, action, Persisted));
    } else {
      hide Where, Tally, Bucket;
      BucketCounts(rows[..|rows| - 1], state, action);
      WhereGrows(rows, IsJudged(state, action));
      WhereGrows(rows, HasVerdict(state, action, Recovered));
      WhereGrows(rows, HasVerdict(state, action, Persisted));
      BucketGrows(rows, state, action);
    }
  }

  lemma {:induction false} ExecutedCounts(rows: seq<LedgerRow>, since: int)
    ensures ExecutedSince(rows, since) == |Where(rows, IsExecutedFrom(since))|
  {
    if rows != [] {
      ExecutedCounts(rows[..|rows| - 1], since);
      WhereGrows(rows, IsExecutedFrom(since));
    }
  }

  lemma {:induction false} LatestIsARow(rows: seq<LedgerRow>, source: string, action: ActionType) returns (i: nat)
    requires LatestExecuted(rows, source, action).Some?
    ensures i < |rows| && rows[i].source == source && rows[i].action == action && rows[i].executed
    ensures LatestExecuted(rows, source, action) == Some(rows[i].createdAt)
  {
    var n := |rows| - 1;
    if LatestExecuted(rows, source, action) == LatestExecuted(rows[..n], source, action) {
      i := LatestIsARow(rows[..n], source, action);
    } else {
      i := n;
    }
  }

  lemma CooledDownIff(rows: seq<LedgerRow>, source: string, action: ActionType, now: int, cfg: GateConfig)
    ensures var latest := LatestExecuted(rows, source, action);
      CooledDown(rows, source, action, now, cfg) <==> latest.None? || now - latest.value >= cfg.cooldown
  {
    if LatestExecuted(rows, source, action).Some? {
      var i := LatestIsARow(rows, source, action);
      assert rows[i] in rows;
    }
    forall i | 0 <= i < |rows| && rows[i].source == source && rows[i].action == action && rows[i].executed
      ensures LatestExecuted(rows, source, action).Some?
      ensures rows[i].createdAt <= LatestExecuted(rows, source, action).value
    {
      LatestIsLatest(rows, source, action, i);
    }
  }

  lemma RateIsShare(t: Totals, rate: real)
    ensures t.RecoveryRate().Some? && t.RecoveryRate().value >= rate <==>
      t.recovered + t.persisted > 0 && t.recovered as real >= rate * (t.recovered + t.persisted) as real
  {
    if t.recovered + t.persisted > 0 {
      QuotientAtLeast(t.recovered as real, (t.recovered + t.persisted) as real, rate);
    }
  }

  lemma QuotientAtLeast(x: real, y: real, rate: real)
    requires y > 0.0
    ensures x / y >= rate <==> x >= rate * y
  {
    assert x / y * y == x;
    if x / y >= rate {
      assert (x / y - rate) * y >= 0.0;
    } else {
      assert (rate - x / y) * y > 0.0;
    }
  }

  lemma EnoughRecoveryIff(rows: seq<LedgerRow>, state: ControlState, action: ActionType, cfg: GateConfig)
    ensures var rate := Tally(Bucket(rows, state, action)).RecoveryRate();
      EnoughRecovery(rows, state, action, cfg) <==> rate.Some? && rate.value >= cfg.minRecoveryRate
  {
    hide Tally, Bucket, Where, Totals.RecoveryRate;
    BucketCounts(rows, state, action);
    RateIsShare(Tally(Bucket(rows, state, action)), cfg.minRecoveryRate);
  }

  /**
   The gate's answer, from the rows themselves. It allows an execution if and only if all of its
   conditions hold, and refuses with the first that does not, in this order.
   */
  lemma GateAnswers(rows: seq<LedgerRow>, killed: bool, source: string, action: ActionType, state: ControlState,
                    now: int, cfg: GateConfig)
    ensures EvaluateGate(rows, killed, source, action, state, now, cfg) ==
      if killed then KillSwitch
      else if cfg.mode == Advisory then NotAutomatic
      else if !EnoughSamples(rows, state, action, cfg) then BelowMinSamples
      else if !EnoughRecovery(rows, state, action, cfg) then BelowMinRecoveryRate
      else if !CooledDown(rows, source, action, now, cfg) then CooldownActive
      else if !BelowCap(rows, now, cfg) then HourlyCapExhausted
      else if !NoneUnjudged(rows, source, action, state) then UnresolvedInFlight
      else Allow
  {
    hide Tally, Bucket, Where, LatestExecuted, ExecutedSince, EnoughRecovery, CooledDown, Totals.RecoveryRate;
    BucketCounts(rows, state, action);
    EnoughRecoveryIff(rows, state, action, cfg);
    CooledDownIff(rows, source, action, now, cfg);
    ExecutedCounts(rows, now - HOUR);
  }

  lemma GateAllowsIff(rows: seq<LedgerRow>, killed: bool, source: string, action: ActionType, state: ControlState,
                      now: int, cfg: GateConfig)
    ensures EvaluateGate(rows, killed, source, action, state, now, cfg) == Allow <==>
      && !killed && cfg.mode == Automatic
      && EnoughSamples(rows, state, action, cfg) && EnoughRecovery(rows, state, action, cfg)
      && CooledDown(rows, source, action, now, cfg)
      && BelowCap(rows, now, cfg)
      && NoneUnjudged(rows, source, action, state)
  {
    GateAnswers(rows, killed, source, action, state, now, cfg);
  }

  // ---------------------------------------------------------------------------
  // What the gate keeps, over every history of the ledger
  // ---------------------------------------------------------------------------

  /** Executed through the gate; auto-resume rows are executed without it. */
  predicate Gated(r: LedgerRow) {
    r.executed && r.action != Resume
  }

  function GatedInHour(rows: seq<LedgerRow>, t: int): nat {
    if rows == [] then 0
    else
      var r := rows[|rows| - 1];
      GatedInHour(rows[..|rows| - 1], t) + if Gated(r) && t <= r.createdAt <= t + HOUR then 1 else 0
  }

  /** Any one-hour window holds at most the hourly cap of gated executions. */
  ghost predicate WithinCap(rows: seq<LedgerRow>, cap: int) {
    forall t :: GatedInHour(rows, t) <= if cap > 0 then cap else 0
  }

  /** Both executed through the gate, for one source and action. */
  predicate SameTarget(r: LedgerRow, q: LedgerRow) {
    Gated(r) && Gated(q) && r.source == q.source && r.action == q.action
  }

  /** Two gated executions of one (source, action) are at least the cooldown apart. */
  ghost predicate Spaced(rows: seq<LedgerRow>, cooldown: int) {
    forall i, j :: 0 <= i < j < |rows| && SameTarget(rows[i], rows[j]) ==>
      rows[j].createdAt - rows[i].createdAt >= cooldown
  }

  /** At most one gated row per (source, action, state) is unjudged. */
  ghost predicate OneInFlight(rows: seq<LedgerRow>) {
    forall i, j :: 0 <= i < j < |rows| && SameTarget(rows[i], rows[j]) && rows[i].state == rows[j].state ==>
      rows[i].evaluatedAt.Some? || rows[j].evaluatedAt.Some?
  }

  ghost predicate Governed(rows: seq<LedgerRow>, cfg: GateConfig) {
    WithinCap(rows, cfg.maxPerHour) && Spaced(rows, cfg.cooldown) && OneInFlight(rows)
  }

  lemma {:induction false} LatestIsLatest(rows: seq<LedgerRow>, source: string, action: ActionType, i: nat)
    requires i < |rows| && rows[i].source == source && rows[i].action == action && rows[i].executed
    ensures LatestExecuted(rows, source, action).Some?
    ensures rows[i].createdAt <= LatestExecuted(rows, source, action).value
  {
    if i < |rows| - 1 {
      LatestIsLatest(rows[..|rows| - 1], source, action, i);
    }
  }

  lemma {:induction false} GatedAmongExecuted(rows: seq<LedgerRow>, t: int, since: int)
    requires since <= t
    ensures GatedInHour(rows, t) <= ExecutedSince(rows, since)
  {
    if rows != [] {
      GatedAmongExecuted(rows[..|rows| - 1], t, since);
    }
  }

  lemma AppendedPrefix(rows: seq<LedgerRow>, r: LedgerRow)
    ensures (rows + [r])[..|rows|] == rows
  {}

  /** A row that was not executed through the gate disturbs none of the three. */
  lemma UngatedKeepsGoverned(rows: seq<LedgerRow>, r: LedgerRow, cfg: GateConfig)
    requires Governed(rows, cfg) && !Gated(r)
    ensures Governed(rows + [r], cfg)
  {}

  /** A row that the gate allowed at `now` and that was written at or after `now` keeps all three. */
  lemma GatedKeepsGoverned(rows: seq<LedgerRow>, r: LedgerRow, now: int, cfg: GateConfig)
    requires Governed(rows, cfg) && r.executed && now <= r.createdAt
    requires EvaluateGate(rows, false, r.source, r.action, r.state, now, cfg) == Allow
    ensures Governed(rows + [r], cfg)
  {
    CapKept(rows, r, now, cfg);
    SpacingKept(rows, r, now, cfg);
    assert !InFlight(rows, r.source, r.action, r.state);
  }

  lemma CapKept(rows: seq<LedgerRow>, r: LedgerRow, now: int, cfg: GateConfig)
    requires WithinCap(rows, cfg.maxPerHour) && now <= r.createdAt && ExecutedSince(rows, now - HOUR) < cfg.maxPerHour
    ensures WithinCap(rows + [r], cfg.maxPerHour)
  {
    AppendedPrefix(rows, r);
    forall t
      ensures GatedInHour(rows + [r], t) <= cfg.maxPerHour
    {
      assert GatedInHour(rows, t) <= cfg.maxPerHour;
      if r.createdAt <= t + HOUR {
        GatedAmongExecuted(rows, t, now - HOUR);
      }
    }
  }

  lemma SpacingKept(rows: seq<LedgerRow>, r: LedgerRow, now: int, cfg: GateConfig)
    requires Spaced(rows, cfg.cooldown) && now <= r.createdAt
    requires var latest := LatestExecuted(rows, r.source, r.action); latest.Some? ==> now - latest.value >= cfg.cooldown
    ensures Spaced(rows + [r], cfg.cooldown)
  {
    forall i | 0 <= i < |rows| && Gated(rows[i]) && rows[i].source == r.source && rows[i].action == r.action
      ensures r.createdAt - rows[i].createdAt >= cfg.cooldown
    {
      LatestIsLatest(rows, r.source, r.action, i);
    }
  }

  /** Later rows are the earlier ones with some outcomes filled in; nothing is judged twice. */
  ghost predicate JudgedFrom(before: seq<LedgerRow>, after: seq<LedgerRow>) {
    |before| == |after| && forall i :: 0 <= i < |before| ==>
      && after[i].(evaluatedAt := before[i].evaluatedAt, outcome := before[i].outcome) == before[i]
      && (before[i].evaluatedAt.Some? ==> after[i] == before[i])
  }

  lemma {:induction false} JudgingKeepsCounts(before: seq<LedgerRow>, after: seq<LedgerRow>, t: int)
    requires JudgedFrom(before, after)
    ensures GatedInHour(before, t) == GatedInHour(after, t)
  {
    if before != [] {
      JudgingKeepsCounts(before[..|before| - 1], after[..|after| - 1], t);
    }
  }

  lemma JudgingKeepsGoverned(before: seq<LedgerRow>, after: seq<LedgerRow>, cfg: GateConfig)
    requires Governed(before, cfg) && JudgedFrom(before, after)
    ensures Governed(after, cfg)
  {
    forall t
      ensures GatedInHour(before, t) == GatedInHour(after, t)
    {
      JudgingKeepsCounts(before, after, t);
    }
  }

  // ---------------------------------------------------------------------------
  // Which executions the evidence can ever justify
  // ---------------------------------------------------------------------------

  /** Where a row's (state, action) can come from: a suggestion, an auto-resume, or a justified execution. */
  ghost predicate Explained(r: LedgerRow) {
    if !r.executed then r.action in SuggestActions(r.state)
    else
      || (r.state == Paused && r.action == Resume)
      || (r.state == RateLimited && r.action == IncreaseInterval)
      || (r.state in {SchemaDrift, Dead, Degraded} && r.action == RequireReview)
  }

  ghost predicate AllExplained(rows: seq<LedgerRow>) {
    forall r <- rows :: Explained(r)
  }

  /**
   A suggestion reaches the gate under its resolved name while its evidence is filed under
   its suggested name. So from a ledger of explained rows the gate allows only
   increase_interval for rate limiting and require_review for drift, death and degradation,
   and never a pause; even without a minimum of samples it asks for a recovery rate.
   */
  lemma GateAllowsOnlyUnaliased(rows: seq<LedgerRow>, killed: bool, source: string, suggested: ActionType,
                                state: ControlState, now: int, cfg: GateConfig)
    requires AllExplained(rows) && suggested in SuggestActions(state)
    requires EvaluateGate(rows, killed, source, ResolveActionType(suggested).0, state, now, cfg) == Allow
    ensures ResolveActionType(suggested).0 == suggested
    ensures (state == RateLimited && suggested == IncreaseInterval)
         || (state in {SchemaDrift, Dead, Degraded} && suggested == RequireReview)
  {
    var action := ResolveActionType(suggested).0;
    var bucket := Bucket(rows, state, action);
    assert Tally(bucket).RecoveryRate().Some? ==> bucket != [];
    BucketMembers(rows, state, action);
    assert bucket[0] in bucket;
    assert Explained(bucket[0]);
  }
}
