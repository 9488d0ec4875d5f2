/**
 The control cycle (backend/control/{ledger,actuator,cycle,cycle_task}.py): every tick decides
 for each enabled source, records the suggestions, executes what the gate allows, resumes
 expired pauses and judges ripe rows, in one transaction.
 */
module ControlCycle {
  import opened Common
  import opened ControlSensors
  import opened ControlLedger
  import opened ControlOutcomes
  import opened ControlActuator
  import opened Decimal

  datatype Source = Source(id: string, enabled: bool, pausedUntil: Option<int>, reviewRequired: bool)

  datatype Schedule = Schedule(source: string, enabled: bool, cron: string)

  datatype Plane = Plane(ledger: seq<LedgerRow>, sources: seq<Source>, schedules: seq<Schedule>)

  datatype Settings = Settings(
    gate: GateConfig, dedup: int, factor: real, maxMinutes: int, pauseTtl: int, wait: Patience
  )

  datatype Reading = Reading(measurement: Measurement, trend: Option<Trend>, system: SystemContext)

  /**
   Everything a tick meets outside the database: the clock, each source's sensor reading,
   whether its best-effort recording succeeds, the kill switch at each gate, the stamp of the
   ledger row written at each position, and the evidence of the outcome pass.
   */
  datatype Tick = Tick(
    now: int, read: string -> Option<Reading>, records: string -> bool, clock: string -> int,
    killed: (nat, ActionType) -> bool, stamp: nat -> int, evidence: Evidence, commits: bool
  )

  /** Rows written during a tick carry a time at or after the tick's own. */
  ghost predicate Timely(t: Tick) {
    forall k :: t.now <= t.stamp(k)
  }

  // ---------------------------------------------------------------------------
  // Recording suggestions
  // ---------------------------------------------------------------------------

  function LatestRow(rows: seq<LedgerRow>, source: string, action: ActionType): Option<LedgerRow> {
    if rows == [] then None
    else
      var before, r := LatestRow(rows[..|rows| - 1], source, action), rows[|rows| - 1];
      if r.source != source || r.action != action then before
      else if before.Some? && before.value.createdAt > r.createdAt then before
      else Some(r)
  }

  predicate Repeats(
    rows: seq<LedgerRow>, source: string, action: ActionType, state: ControlState, clock: int, dedup: int
  ) {
    var latest := LatestRow(rows, source, action);
    latest.Some? && latest.value.state == state && clock - latest.value.createdAt < dedup
  }

  function Recorded(rows: seq<LedgerRow>, source: string, state: ControlState, actions: seq<ActionType>,
                    t: Tick, dedup: int): seq<LedgerRow>
    decreases |actions|
  {
    if actions == [] then rows
    else
      var row := LedgerRow(source, state, actions[0], false, t.stamp(|rows|), None, None);
      var next := if Repeats(rows, source, actions[0], state, t.clock(source), dedup) then rows else rows + [row];
      Recorded(next, source, state, actions[1..], t, dedup)
  }

  /** Times in the ledger do not decrease, and the tick's rows are younger than the window. */
  ghost predicate Recent(rows: seq<LedgerRow>, source: string, t: Tick, dedup: int) {
    && (forall j, k :: 0 <= j < |rows| <= k ==> rows[j].createdAt <= t.stamp(k))
    && (forall j: nat, k: nat :: j <= k ==> t.stamp(j) <= t.stamp(k))
    && (forall k :: t.clock(source) - t.stamp(k) < dedup)
  }

  lemma LatestAppend(rows: seq<LedgerRow>, r: LedgerRow, source: string, action: ActionType)
    ensures LatestRow(rows + [r], source, action)
         == if r.source != source || r.action != action then LatestRow(rows, source, action)
            else if LatestRow(rows, source, action).Some?
              && LatestRow(rows, source, action).value.createdAt > r.createdAt
            then LatestRow(rows, source, action) else Some(r)
  {
    AppendedPrefix(rows, r);
  }

  lemma {:induction false} LatestIsARow(rows: seq<LedgerRow>, source: string, action: ActionType)
    ensures LatestRow(rows, source, action).Some? ==> LatestRow(rows, source, action).value in rows
  {
    if rows != [] {
      LatestIsARow(rows[..|rows| - 1], source, action);
    }
  }

  /** The latest of the rows of a (source, action): of those with the latest time the one written last. */
  ghost predicate IsLatest(rows: seq<LedgerRow>, source: string, action: ActionType, i: nat) {
    && i < |rows| && rows[i].source == source && rows[i].action == action
    && forall j :: 0 <= j < |rows| && rows[j].source == source && rows[j].action == action ==>
         rows[j].createdAt < rows[i].createdAt || (rows[j].createdAt == rows[i].createdAt && j <= i)
  }

  lemma {:induction false} SomeRowIsLatest(rows: seq<LedgerRow>, source: string, action: ActionType, i: nat)
    requires i < |rows| && rows[i].source == source && rows[i].action == action
    ensures LatestRow(rows, source, action).Some?
  {
    if i < |rows| - 1 {
      SomeRowIsLatest(rows[..|rows| - 1], source, action, i);
    }
  }

  lemma {:induction false} LatestRowAt(rows: seq<LedgerRow>, source: string, action: ActionType) returns (i: nat)
    requires LatestRow(rows, source, action).Some?
    ensures IsLatest(rows, source, action, i) && LatestRow(rows, source, action) == Some(rows[i])
  {
    var n := |rows| - 1;
    var front, r := rows[..n], rows[n];
    var before := LatestRow(front, source, action);
    i := n;
    if before.Some? {
      var k := LatestRowAt(front, source, action);
      if !(r.source == source && r.action == action && before.value.createdAt <= r.createdAt) {
        i := k;
      }
      assert forall j :: 0 <= j < n ==> rows[j] == front[j];
    } else {
      forall j | 0 <= j < n && rows[j].source == source
        ensures rows[j].action != action
      {
        if rows[j].action == action {
          SomeRowIsLatest(front, source, action, j);
        }
      }
    }
  }

  /** The latest row suppresses a suggestion of the same state while it is younger than the window. */
  ghost predicate Suppresses(
    rows: seq<LedgerRow>, source: string, state: ControlState, action: ActionType, clock: int, dedup: int, i: nat
  ) {
    IsLatest(rows, source, action, i) && rows[i].state == state && clock - rows[i].createdAt < dedup
  }

  /** A suggestion is recorded if and only if no row suppresses it. */
  lemma RecordedUnlessSuppressed(
    rows: seq<LedgerRow>, source: string, state: ControlState, action: ActionType, t: Tick, dedup: int
  )
    ensures Recorded(rows, source, state, [action], t, dedup) ==
      if exists i: nat :: Suppresses(rows, source, state, action, t.clock(source), dedup, i) then rows
      else rows + [LedgerRow(source, state, action, false, t.stamp(|rows|), None, None)]
  {
    assert [action][1..] == [];
    if LatestRow(rows, source, action).Some? {
      var k := LatestRowAt(rows, source, action);
      if Repeats(rows, source, action, state, t.clock(source), dedup) {
        assert Suppresses(rows, source, state, action, t.clock(source), dedup, k);
      }
    }
    if i: nat :| Suppresses(rows, source, state, action, t.clock(source), dedup, i) {
      SomeRowIsLatest(rows, source, action, i);
      var k := LatestRowAt(rows, source, action);
      assert k == i;
    }
  }

  /** A recorded suggestion repeats the latest row of its (source, action). */
  lemma RecordedRepeats(
    rows: seq<LedgerRow>, source: string, state: ControlState, action: ActionType, t: Tick, dedup: int
  )
    requires Recent(rows, source, t, dedup)
    ensures var row := LedgerRow(source, state, action, false, t.stamp(|rows|), None, None);
      Repeats(rows + [row], source, action, state, t.clock(source), dedup) && Recent(rows + [row], source, t, dedup)
  {
    var row := LedgerRow(source, state, action, false, t.stamp(|rows|), None, None);
    LatestAppend(rows, row, source, action);
    LatestIsARow(rows, source, action);
  }

  /** Recording keeps every suggestion that already repeats, and makes its own ones repeat. */
  lemma {:induction false} RecordedAllRepeat(
    rows: seq<LedgerRow>, source: string, state: ControlState, actions: seq<ActionType>, t: Tick, dedup: int,
    a: ActionType
  )
    requires Recent(rows, source, t, dedup)
    requires a in actions || Repeats(rows, source, a, state, t.clock(source), dedup)
    ensures Repeats(Recorded(rows, source, state, actions, t, dedup), source, a, state, t.clock(source), dedup)
    decreases |actions|
  {
    if actions != [] {
      var row := LedgerRow(source, state, actions[0], false, t.stamp(|rows|), None, None);
      RecordedRepeats(rows, source, state, actions[0], t, dedup);
      LatestAppend(rows, row, source, a);
      var next := if Repeats(rows, source, actions[0], state, t.clock(source), dedup) then rows else rows + [row];
      assert a == actions[0] || a in actions[1..] || Repeats(rows, source, a, state, t.clock(source), dedup);
      RecordedAllRepeat(next, source, state, actions[1..], t, dedup, a);
    }
  }

  lemma {:induction false} RepeatsAddNothing(
    rows: seq<LedgerRow>, source: string, state: ControlState, actions: seq<ActionType>, t: Tick, dedup: int
  )
    requires forall a <- actions :: Repeats(rows, source, a, state, t.clock(source), dedup)
    ensures Recorded(rows, source, state, actions, t, dedup) == rows
    decreases |actions|
  {
    if actions != [] {
      assert actions[0] in actions;
      RepeatsAddNothing(rows, source, state, actions[1..], t, dedup);
    }
  }

  /**
   Polling does not spam the ledger: while the rows of a recording are younger than the dedup
   window, recording the same suggestions again adds nothing.
   */
  lemma RecordingAgainAddsNothing(rows: seq<LedgerRow>, source: string, state: ControlState, actions: seq<ActionType>,
                                  t: Tick, dedup: int)
    requires Recent(rows, source, t, dedup)
    ensures var once := Recorded(rows, source, state, actions, t, dedup);
      Recorded(once, source, state, actions, t, dedup) == once
  {
    var once := Recorded(rows, source, state, actions, t, dedup);
    forall a | a in actions
      ensures Repeats(once, source, a, state, t.clock(source), dedup)
    {
      RecordedAllRepeat(rows, source, state, actions, t, dedup, a);
    }
    RepeatsAddNothing(once, source, state, actions, t, dedup);
  }

  // ---------------------------------------------------------------------------
  // Executing actions
  // ---------------------------------------------------------------------------

  function WidenedSchedule(s: Schedule, source: string, cfg: Settings): Schedule {
    if s.source != source || !s.enabled then s
    else
      match ParseStepMinutes(s.cron)
      case None => s
      case Some(minutes) =>
        var widened := WidenedMinutes(minutes, cfg.factor, cfg.maxMinutes);
        if widened == minutes then s else s.(cron := PrintStepMinutes(widened))
  }

  function Widened(schedules: seq<Schedule>, source: string, cfg: Settings): seq<Schedule> {
    if schedules == [] then []
    else
      var last := |schedules| - 1;
      Widened(schedules[..last], source, cfg) + [WidenedSchedule(schedules[last], source, cfg)]
  }

  /** The widened number, when the schedule is an enabled step schedule of the source. */
  function StepOf(s: Schedule, source: string): Option<nat> {
    if s.source == source && s.enabled then ParseStepMinutes(s.cron) else None
  }

  /**
   Widening keeps every schedule readable and touches no other: an enabled step schedule of
   the source becomes the step schedule with the widened number, the rest stay as they were.
   */
  lemma WideningKeepsStepSchedules(schedules: seq<Schedule>, source: string, cfg: Settings, k: nat)
    requires k < |schedules| && cfg.maxMinutes >= 1
    ensures |Widened(schedules, source, cfg)| == |schedules|
    ensures var before, after := schedules[k], Widened(schedules, source, cfg)[k];
      && after.source == before.source && after.enabled == before.enabled
      && (StepOf(before, source).None? ==> after == before)
      && (StepOf(before, source).Some? ==>
            ParseStepMinutes(after.cron) ==
              Some(WidenedMinutes(StepOf(before, source).value, cfg.factor, cfg.maxMinutes)))
  {
    WidenedAt(schedules, source, cfg);
    if StepOf(schedules[k], source).Some? {
      var n := WidenedMinutes(StepOf(schedules[k], source).value, cfg.factor, cfg.maxMinutes);
      ParsePrintRoundTrip(n);
    }
  }

  function Applied(p: Plane, i: nat, action: ActionType, now: int, cfg: Settings): Plane
    requires i < |p.sources|
  {
    var s := p.sources[i];
    match action
    case IncreaseInterval => p.(schedules := Widened(p.schedules, s.id, cfg))
    case Pause => p.(sources := p.sources[i := s.(enabled := false, pausedUntil := Some(now + cfg.pauseTtl))])
    case _ => p.(sources := p.sources[i := s.(reviewRequired := true)])
  }

  /** What an executed action does to the one source: a pause with its term, or the review flag; nothing else. */
  lemma AppliedIs(p: Plane, i: nat, action: ActionType, now: int, cfg: Settings)
    requires i < |p.sources|
    ensures var q, s := Applied(p, i, action, now, cfg), p.sources[i];
      && q.ledger == p.ledger && |q.sources| == |p.sources|
      && (forall k :: 0 <= k < |p.sources| && k != i ==> q.sources[k] == p.sources[k])
      && q.sources[i] ==
           Source(s.id, s.enabled && action != Pause,
                  if action == Pause then Some(now + cfg.pauseTtl) else s.pausedUntil,
                  s.reviewRequired || action !in {Pause, IncreaseInterval})
      && (action != IncreaseInterval ==> q.schedules == p.schedules)
      && (action == IncreaseInterval ==> q.schedules == Widened(p.schedules, s.id, cfg))
  {}

  predicate Allows(p: Plane, i: nat, state: ControlState, suggested: ActionType, t: Tick, cfg: Settings)
    requires i < |p.sources|
  {
    var action := ResolveActionType(suggested).0;
    EvaluateGate(p.ledger, t.killed(i, suggested), p.sources[i].id, action, state, t.now, cfg.gate) == Allow
  }

  function ExecutedRow(p: Plane, i: nat, state: ControlState, suggested: ActionType, t: Tick): LedgerRow
    requires i < |p.sources|
  {
    LedgerRow(p.sources[i].id, state, ResolveActionType(suggested).0, true, t.stamp(|p.ledger|), None, None)
  }

  /** One suggestion: gate, then actuator, then ledger row; nothing at all if the gate blocks. */
  function Acted(p: Plane, i: nat, state: ControlState, suggested: ActionType, t: Tick, cfg: Settings): (q: Plane)
    requires i < |p.sources|
    ensures |q.sources| == |p.sources|
  {
    if !Allows(p, i, state, suggested, t, cfg) then p
    else
      Applied(p, i, ResolveActionType(suggested).0, t.now, cfg).(
        ledger := p.ledger + [ExecutedRow(p, i, state, suggested, t)])
  }

  function ActedAll(p: Plane, i: nat, state: ControlState, actions: seq<ActionType>, t: Tick, cfg: Settings): (q: Plane)
    requires i < |p.sources|
    ensures |q.sources| == |p.sources|
    decreases |actions|
  {
    if actions == [] then p
    else Acted(ActedAll(p, i, state, actions[..|actions| - 1], t, cfg), i, state, actions[|actions| - 1], t, cfg)
  }

  // ---------------------------------------------------------------------------
  // One tick
  // ---------------------------------------------------------------------------

  function StateOf(r: Reading, objective: Objective): ControlState {
    Evaluate(r.measurement, objective, r.trend, Some(r.system))
  }

  /** One enabled source's turn: decide, record the suggestions, act on each. */
  function Decided(p: Plane, i: nat, t: Tick, cfg: Settings): (q: Plane)
    requires i < |p.sources|
    ensures |q.sources| == |p.sources|
  {
    var id := p.sources[i].id;
    if !p.sources[i].enabled || t.read(id).None? then p
    else
      var state := StateOf(t.read(id).value, t.evidence.objectiveOf(id));
      var actions := SuggestActions(state);
      var q := if t.records(id) then p.(ledger := Recorded(p.ledger, id, state, actions, t, cfg.dedup)) else p;
      ActedAll(q, i, state, actions, t, cfg)
  }

  /** After the turns of the first n sources. */
  function DecidedUpTo(p: Plane, n: nat, t: Tick, cfg: Settings): (q: Plane)
    requires n <= |p.sources|
    ensures |q.sources| == |p.sources|
  {
    if n == 0 then p else Decided(DecidedUpTo(p, n - 1, t, cfg), n - 1, t, cfg)
  }

  function DecidedAll(p: Plane, t: Tick, cfg: Settings): (q: Plane)
    ensures |q.sources| == |p.sources|
  {
    DecidedUpTo(p, |p.sources|, t, cfg)
  }

  predicate Expired(s: Source, now: int) {
    s.pausedUntil.Some? && s.pausedUntil.value <= now
  }

  function ResumedSource(s: Source, now: int): Source {
    if Expired(s, now) then s.(enabled := true, pausedUntil := None) else s
  }

  function ResumedSources(sources: seq<Source>, now: int): seq<Source> {
    if sources == [] then []
    else ResumedSources(sources[..|sources| - 1], now) + [ResumedSource(sources[|sources| - 1], now)]
  }

  /** An expired pause is lifted: the source is on again and has no term; every other source stays as it is. */
  lemma ResumedIs(sources: seq<Source>, now: int, i: nat)
    requires i < |sources|
    ensures |ResumedSources(sources, now)| == |sources|
    ensures var s := sources[i];
      ResumedSources(sources, now)[i] ==
        if s.pausedUntil.Some? && s.pausedUntil.value <= now then Source(s.id, true, None, s.reviewRequired) else s
  {
    ResumedAt(sources, now);
  }

  /** The ledger after the rows for the expired pauses, in source order. */
  function WithResumes(rows: seq<LedgerRow>, sources: seq<Source>, t: Tick): seq<LedgerRow> {
    if sources == [] then rows
    else
      var before, s := WithResumes(rows, sources[..|sources| - 1], t), sources[|sources| - 1];
      if Expired(s, t.now) then before + [LedgerRow(s.id, Paused, Resume, true, t.stamp(|before|), None, None)]
      else before
  }

  function AutoResumed(p: Plane, t: Tick): Plane {
    p.(ledger := WithResumes(p.ledger, p.sources, t), sources := ResumedSources(p.sources, t.now))
  }

  function TickBody(p: Plane, t: Tick, cfg: Settings): Plane {
    var q := AutoResumed(DecidedAll(p, t, cfg), t);
    q.(ledger := Judged(q.ledger, t.now, cfg.wait, t.evidence))
  }

  /** A tick commits all of its work or, after any exception, none of it. */
  function Ticked(p: Plane, t: Tick, cfg: Settings): Plane {
    if t.commits then TickBody(p, t, cfg) else p
  }

  function Run(p: Plane, ticks: seq<Tick>, cfg: Settings): Plane {
    if ticks == [] then p else Ticked(Run(p, ticks[..|ticks| - 1], cfg), ticks[|ticks| - 1], cfg)
  }

  // ---------------------------------------------------------------------------
  // What every tick keeps of the ledger
  // ---------------------------------------------------------------------------

  /** Rate, spacing and in-flight limits, honest verdicts, and only justified rows. */
  ghost predicate Kept(rows: seq<LedgerRow>, gate: GateConfig) {
    && Governed(rows, gate)
    && WellJudged(rows)
    && AllPersistSoundly(rows)
    && AllExplained(rows)
  }

  lemma AppendKeeps(rows: seq<LedgerRow>, r: LedgerRow, gate: GateConfig)
    requires Kept(rows, gate) && Governed(rows + [r], gate)
    requires r.evaluatedAt.None? && r.outcome.None?
    requires Explained(r)
    ensures Kept(rows + [r], gate)
  {}

  lemma {:induction false} RecordedKeeps(
    rows: seq<LedgerRow>, source: string, state: ControlState, actions: seq<ActionType>, t: Tick, cfg: Settings
  )
    requires Kept(rows, cfg.gate) && forall a <- actions :: a in SuggestActions(state)
    ensures Kept(Recorded(rows, source, state, actions, t, cfg.dedup), cfg.gate)
    decreases |actions|
  {
    if actions != [] {
      var row := LedgerRow(source, state, actions[0], false, t.stamp(|rows|), None, None);
      UngatedKeepsGoverned(rows, row, cfg.gate);
      AppendKeeps(rows, row, cfg.gate);
      var next := if Repeats(rows, source, actions[0], state, t.clock(source), cfg.dedup) then rows else rows + [row];
      RecordedKeeps(next, source, state, actions[1..], t, cfg);
    }
  }

  lemma ActedKeeps(p: Plane, i: nat, state: ControlState, suggested: ActionType, t: Tick, cfg: Settings)
    requires i < |p.sources| && Kept(p.ledger, cfg.gate) && Timely(t) && suggested in SuggestActions(state)
    ensures Kept(Acted(p, i, state, suggested, t, cfg).ledger, cfg.gate)
  {
    if Allows(p, i, state, suggested, t, cfg) {
      var row := ExecutedRow(p, i, state, suggested, t);
      assert t.now <= t.stamp(|p.ledger|);
      assert !t.killed(i, suggested);
      GatedKeepsGoverned(p.ledger, row, t.now, cfg.gate);
      GateAllowsOnlyUnaliased(p.ledger, false, row.source, suggested, state, t.now, cfg.gate);
      AppendKeeps(p.ledger, row, cfg.gate);
    }
  }

  lemma {:induction false} ActedAllKeeps(
    p: Plane, i: nat, state: ControlState, actions: seq<ActionType>, t: Tick, cfg: Settings
  )
    requires i < |p.sources| && Kept(p.ledger, cfg.gate) && Timely(t)
    requires forall a <- actions :: a in SuggestActions(state)
    ensures Kept(ActedAll(p, i, state, actions, t, cfg).ledger, cfg.gate)
    decreases |actions|
  {
    if actions != [] {
      var front, last := actions[..|actions| - 1], actions[|actions| - 1];
      assert last in actions;
      ActedAllKeeps(p, i, state, front, t, cfg);
      ActedKeeps(ActedAll(p, i, state, front, t, cfg), i, state, last, t, cfg);
    }
  }

  lemma DecidedKeeps(p: Plane, i: nat, t: Tick, cfg: Settings)
    requires i < |p.sources| && Kept(p.ledger, cfg.gate) && Timely(t)
    ensures Kept(Decided(p, i, t, cfg).ledger, cfg.gate)
  {
    var id := p.sources[i].id;
    if p.sources[i].enabled && t.read(id).Some? {
      var state := StateOf(t.read(id).value, t.evidence.objectiveOf(id));
      var actions := SuggestActions(state);
      RecordedKeeps(p.ledger, id, state, actions, t, cfg);
      var q := if t.records(id) then p.(ledger := Recorded(p.ledger, id, state, actions, t, cfg.dedup)) else p;
      ActedAllKeeps(q, i, state, actions, t, cfg);
    }
  }

  lemma {:induction false} DecidedUpToKeeps(p: Plane, n: nat, t: Tick, cfg: Settings)
    requires n <= |p.sources| && Kept(p.ledger, cfg.gate) && Timely(t)
    ensures Kept(DecidedUpTo(p, n, t, cfg).ledger, cfg.gate)
  {
    hide Decided;
    if n > 0 {
      DecidedUpToKeeps(p, n - 1, t, cfg);
      DecidedKeeps(DecidedUpTo(p, n - 1, t, cfg), n - 1, t, cfg);
    }
  }

  lemma {:induction false} ResumesKeep(rows: seq<LedgerRow>, sources: seq<Source>, t: Tick, gate: GateConfig)
    requires Kept(rows, gate)
    ensures Kept(WithResumes(rows, sources, t), gate)
  {
    if sources != [] {
      var before, s := WithResumes(rows, sources[..|sources| - 1], t), sources[|sources| - 1];
      ResumesKeep(rows, sources[..|sources| - 1], t, gate);
      var row := LedgerRow(s.id, Paused, Resume, true, t.stamp(|before|), None, None);
      UngatedKeepsGoverned(before, row, gate);
      AppendKeeps(before, row, gate);
    }
  }

  lemma JudgedKeeps(rows: seq<LedgerRow>, t: Tick, cfg: Settings)
    requires Kept(rows, cfg.gate)
    ensures Kept(Judged(rows, t.now, cfg.wait, t.evidence), cfg.gate)
  {
    var after := Judged(rows, t.now, cfg.wait, t.evidence);
    JudgedOnce(rows, t.now, cfg.wait, t.evidence);
    JudgingKeepsGoverned(rows, after, cfg.gate);
    JudgedPersistSoundly(rows, t.now, cfg.wait, t.evidence);
    ExplainedStays(rows, after);
  }

  lemma ExplainedStays(before: seq<LedgerRow>, after: seq<LedgerRow>)
    requires AllExplained(before) && JudgedFrom(before, after)
    ensures AllExplained(after)
  {
    forall r | r in after
      ensures Explained(r)
    {
      var i :| 0 <= i < |after| && after[i] == r;
      assert before[i] in before && Explained(before[i]);
    }
  }

  lemma TickKeeps(p: Plane, t: Tick, cfg: Settings)
    requires Kept(p.ledger, cfg.gate) && Timely(t)
    ensures Kept(Ticked(p, t, cfg).ledger, cfg.gate)
  {
    var q := DecidedAll(p, t, cfg);
    DecidedUpToKeeps(p, |p.sources|, t, cfg);
    ResumesKeep(q.ledger, q.sources, t, cfg.gate);
    JudgedKeeps(WithResumes(q.ledger, q.sources, t), t, cfg);
  }

  /**
   Over every sequence of ticks, from any ledger that already complies (an empty one does):
   every one-hour window holds at most the cap of gated executions, two gated executions of
   one (source, action) are at least the cooldown apart, at most one gated row per
   (source, action, state) is unjudged, every outcome has its time, no blocked_by_odp row is
   judged persisted, and every executed row is (rate_limited, increase_interval),
   (schema_drift | dead | degraded, require_review) or an auto-resume.
   */
  lemma {:induction false} RunKeeps(p: Plane, ticks: seq<Tick>, cfg: Settings)
    requires Kept(p.ledger, cfg.gate) && forall t <- ticks :: Timely(t)
    ensures Kept(Run(p, ticks, cfg).ledger, cfg.gate)
  {
    if ticks != [] {
      assert ticks[|ticks| - 1] in ticks;
      RunKeeps(p, ticks[..|ticks| - 1], cfg);
      TickKeeps(Run(p, ticks[..|ticks| - 1], cfg), ticks[|ticks| - 1], cfg);
    }
  }

  lemma EmptyLedgerComplies(gate: GateConfig)
    ensures Kept([], gate)
  {}

  // ---------------------------------------------------------------------------
  // The ledger only grows, and each row is judged at most once
  // ---------------------------------------------------------------------------

  /** Later is the earlier ledger, some of its pending rows judged, with rows added at its end. */
  ghost predicate Extends(before: seq<LedgerRow>, after: seq<LedgerRow>) {
    |before| <= |after| && JudgedFrom(before, after[..|before|])
  }

  lemma ExtendsTransitive(a: seq<LedgerRow>, b: seq<LedgerRow>, c: seq<LedgerRow>)
    requires Extends(a, b) && Extends(b, c)
    ensures Extends(a, c)
  {}

  lemma PrefixTransitive(a: seq<LedgerRow>, b: seq<LedgerRow>, c: seq<LedgerRow>)
    requires a <= b && b <= c
    ensures a <= c
  {}

  lemma PrefixExtends(a: seq<LedgerRow>, b: seq<LedgerRow>)
    requires a <= b
    ensures Extends(a, b)
  {}

  lemma {:induction false} RecordedExtends(
    rows: seq<LedgerRow>, source: string, state: ControlState, actions: seq<ActionType>, t: Tick, dedup: int
  )
    ensures rows <= Recorded(rows, source, state, actions, t, dedup)
    decreases |actions|
  {
    if actions != [] {
      var row := LedgerRow(source, state, actions[0], false, t.stamp(|rows|), None, None);
      var next := if Repeats(rows, source, actions[0], state, t.clock(source), dedup) then rows else rows + [row];
      RecordedExtends(next, source, state, actions[1..], t, dedup);
    }
  }

  lemma {:induction false} ActedAllExtends(
    p: Plane, i: nat, state: ControlState, actions: seq<ActionType>, t: Tick, cfg: Settings
  )
    requires i < |p.sources|
    ensures p.ledger <= ActedAll(p, i, state, actions, t, cfg).ledger
    decreases |actions|
  {
    if actions != [] {
      ActedAllExtends(p, i, state, actions[..|actions| - 1], t, cfg);
    }
  }

  lemma {:induction false} DecidedUpToExtends(p: Plane, n: nat, t: Tick, cfg: Settings)
    requires n <= |p.sources|
    ensures p.ledger <= DecidedUpTo(p, n, t, cfg).ledger
  {
    hide Decided;
    if n > 0 {
      var q := DecidedUpTo(p, n - 1, t, cfg);
      DecidedUpToExtends(p, n - 1, t, cfg);
      DecidedExtends(q, n - 1, t, cfg);
      PrefixTransitive(p.ledger, q.ledger, Decided(q, n - 1, t, cfg).ledger);
    }
  }

  lemma DecidedExtends(p: Plane, i: nat, t: Tick, cfg: Settings)
    requires i < |p.sources|
    ensures p.ledger <= Decided(p, i, t, cfg).ledger
  {
    var id := p.sources[i].id;
    if p.sources[i].enabled && t.read(id).Some? {
      var state := StateOf(t.read(id).value, t.evidence.objectiveOf(id));
      var actions := SuggestActions(state);
      RecordedExtends(p.ledger, id, state, actions, t, cfg.dedup);
      var q := if t.records(id) then p.(ledger := Recorded(p.ledger, id, state, actions, t, cfg.dedup)) else p;
      ActedAllExtends(q, i, state, actions, t, cfg);
    }
  }

  lemma {:induction false} ResumesExtend(rows: seq<LedgerRow>, sources: seq<Source>, t: Tick)
    ensures rows <= WithResumes(rows, sources, t)
  {
    if sources != [] {
      ResumesExtend(rows, sources[..|sources| - 1], t);
    }
  }

  lemma TickExtends(p: Plane, t: Tick, cfg: Settings)
    ensures Extends(p.ledger, Ticked(p, t, cfg).ledger)
  {
    PrefixExtends(p.ledger, p.ledger);
    if t.commits {
      var q := DecidedAll(p, t, cfg);
      var rows := WithResumes(q.ledger, q.sources, t);
      DecidedUpToExtends(p, |p.sources|, t, cfg);
      ResumesExtend(q.ledger, q.sources, t);
      PrefixExtends(p.ledger, rows);
      JudgedAt(rows, t.now, cfg.wait, t.evidence);
      var after := Judged(rows, t.now, cfg.wait, t.evidence);
      assert after[..|rows|] == after;
      ExtendsTransitive(p.ledger, rows, after);
    }
  }

  /** Over every sequence of ticks no row is lost, moved or rewritten, and a verdict never changes. */
  lemma {:induction false} RunExtends(p: Plane, ticks: seq<Tick>, cfg: Settings)
    ensures Extends(p.ledger, Run(p, ticks, cfg).ledger)
  {
    if ticks == [] {
      PrefixExtends(p.ledger, p.ledger);
    } else {
      var q := Run(p, ticks[..|ticks| - 1], cfg);
      RunExtends(p, ticks[..|ticks| - 1], cfg);
      TickExtends(q, ticks[|ticks| - 1], cfg);
      ExtendsTransitive(p.ledger, q.ledger, Run(p, ticks, cfg).ledger);
    }
  }

  // ---------------------------------------------------------------------------
  // Advisory mode and the kill switch
  // ---------------------------------------------------------------------------

  /** The tick runs in advisory mode, or the kill switch is engaged at every gate. */
  ghost predicate Restrained(t: Tick, cfg: Settings) {
    cfg.gate.mode != Automatic || forall i, a :: t.killed(i, a)
  }

  lemma {:induction false} RestrainedActsNot(
    p: Plane, i: nat, state: ControlState, actions: seq<ActionType>, t: Tick, cfg: Settings
  )
    requires i < |p.sources| && Restrained(t, cfg)
    ensures ActedAll(p, i, state, actions, t, cfg) == p
    decreases |actions|
  {
    if actions != [] {
      RestrainedActsNot(p, i, state, actions[..|actions| - 1], t, cfg);
      assert !Allows(p, i, state, actions[|actions| - 1], t, cfg);
    }
  }

  lemma RestrainedDecides(p: Plane, i: nat, t: Tick, cfg: Settings)
    requires i < |p.sources| && Restrained(t, cfg)
    ensures Decided(p, i, t, cfg) == p.(ledger := Decided(p, i, t, cfg).ledger)
  {
    var id := p.sources[i].id;
    if p.sources[i].enabled && t.read(id).Some? {
      var state := StateOf(t.read(id).value, t.evidence.objectiveOf(id));
      var actions := SuggestActions(state);
      var q := if t.records(id) then p.(ledger := Recorded(p.ledger, id, state, actions, t, cfg.dedup)) else p;
      RestrainedActsNot(q, i, state, actions, t, cfg);
    }
  }

  lemma {:induction false} RestrainedDecidesUpTo(p: Plane, n: nat, t: Tick, cfg: Settings)
    requires n <= |p.sources| && Restrained(t, cfg)
    ensures DecidedUpTo(p, n, t, cfg).sources == p.sources
    ensures DecidedUpTo(p, n, t, cfg).schedules == p.schedules
  {
    hide Decided;
    if n > 0 {
      RestrainedDecidesUpTo(p, n - 1, t, cfg);
      RestrainedDecides(DecidedUpTo(p, n - 1, t, cfg), n - 1, t, cfg);
    }
  }

  lemma {:induction false} ResumedAt(sources: seq<Source>, now: int)
    ensures |ResumedSources(sources, now)| == |sources|
    ensures forall i :: 0 <= i < |sources| ==> ResumedSources(sources, now)[i] == ResumedSource(sources[i], now)
  {
    if sources != [] {
      ResumedAt(sources[..|sources| - 1], now);
    }
  }

  /**
   "Never mutates a source or schedule" in advisory mode or under the kill switch: false. The
   tick leaves every schedule alone, and leaves the sources alone if and only if no pause has
   expired; then the expired ones, and only those, are enabled again.
   */
  lemma RestrainedTickMutatesIff(p: Plane, t: Tick, cfg: Settings)
    requires Restrained(t, cfg) && t.commits
    ensures Ticked(p, t, cfg).schedules == p.schedules
    ensures Ticked(p, t, cfg).sources == ResumedSources(p.sources, t.now)
    ensures Ticked(p, t, cfg).sources == p.sources <==> forall s <- p.sources :: !Expired(s, t.now)
  {
    RestrainedDecidesUpTo(p, |p.sources|, t, cfg);
    ResumedAt(p.sources, t.now);
    var after := ResumedSources(p.sources, t.now);
    if forall s <- p.sources :: !Expired(s, t.now) {
      assert forall i :: 0 <= i < |p.sources| ==> p.sources[i] in p.sources && after[i] == p.sources[i];
    } else {
      var s :| s in p.sources && Expired(s, t.now);
      var i :| 0 <= i < |p.sources| && p.sources[i] == s;
      assert after[i].pausedUntil.None?;
    }
  }

  // ---------------------------------------------------------------------------
  // The pause that never happens
  // ---------------------------------------------------------------------------

  /** Every source is on or off, and paused or not, as it was. */
  ghost predicate SamePauses(before: seq<Source>, after: seq<Source>) {
    |before| == |after| && forall i :: 0 <= i < |before| ==>
      after[i].enabled == before[i].enabled && after[i].pausedUntil == before[i].pausedUntil
  }

  lemma ActedPausesNone(p: Plane, i: nat, state: ControlState, suggested: ActionType, t: Tick, cfg: Settings)
    requires i < |p.sources| && Kept(p.ledger, cfg.gate) && suggested in SuggestActions(state)
    ensures SamePauses(p.sources, Acted(p, i, state, suggested, t, cfg).sources)
  {
    if Allows(p, i, state, suggested, t, cfg) {
      GateAllowsOnlyUnaliased(p.ledger, t.killed(i, suggested), p.sources[i].id, suggested, state, t.now, cfg.gate);
    }
  }

  lemma {:induction false} ActedAllPausesNone(p: Plane, i: nat, state: ControlState, actions: seq<ActionType>,
                                              t: Tick, cfg: Settings)
    requires i < |p.sources| && Kept(p.ledger, cfg.gate) && Timely(t)
    requires forall a <- actions :: a in SuggestActions(state)
    ensures SamePauses(p.sources, ActedAll(p, i, state, actions, t, cfg).sources)
    decreases |actions|
  {
    if actions != [] {
      var front, last := actions[..|actions| - 1], actions[|actions| - 1];
      var q := ActedAll(p, i, state, front, t, cfg);
      assert last in actions;
      ActedAllPausesNone(p, i, state, front, t, cfg);
      ActedAllKeeps(p, i, state, front, t, cfg);
      ActedPausesNone(q, i, state, last, t, cfg);
      SamePausesTransitive(p.sources, q.sources, ActedAll(p, i, state, actions, t, cfg).sources);
    }
  }

  lemma SamePausesTransitive(a: seq<Source>, b: seq<Source>, c: seq<Source>)
    requires SamePauses(a, b) && SamePauses(b, c)
    ensures SamePauses(a, c)
  {}

  lemma DecidedPausesNone(p: Plane, i: nat, t: Tick, cfg: Settings)
    requires i < |p.sources| && Kept(p.ledger, cfg.gate) && Timely(t)
    ensures SamePauses(p.sources, Decided(p, i, t, cfg).sources)
  {
    var id := p.sources[i].id;
    if p.sources[i].enabled && t.read(id).Some? {
      var state := StateOf(t.read(id).value, t.evidence.objectiveOf(id));
      var actions := SuggestActions(state);
      RecordedKeeps(p.ledger, id, state, actions, t, cfg);
      var r := if t.records(id) then p.(ledger := Recorded(p.ledger, id, state, actions, t, cfg.dedup)) else p;
      ActedAllPausesNone(r, i, state, actions, t, cfg);
    }
  }

  lemma {:induction false} DecidedUpToPausesNone(p: Plane, n: nat, t: Tick, cfg: Settings)
    requires n <= |p.sources| && Kept(p.ledger, cfg.gate) && Timely(t)
    ensures SamePauses(p.sources, DecidedUpTo(p, n, t, cfg).sources)
  {
    hide Decided;
    if n > 0 {
      DecidedUpToPausesNone(p, n - 1, t, cfg);
      DecidedUpToKeeps(p, n - 1, t, cfg);
      var q := DecidedUpTo(p, n - 1, t, cfg);
      DecidedPausesNone(q, n - 1, t, cfg);
      SamePausesTransitive(p.sources, q.sources, DecidedUpTo(p, n, t, cfg).sources);
    }
  }

  /** No source is switched off and no pause is set. */
  ghost predicate NonePaused(before: seq<Source>, after: seq<Source>) {
    |before| == |after| && forall i :: 0 <= i < |before| ==>
      && (before[i].enabled ==> after[i].enabled)
      && (after[i].pausedUntil.None? || after[i].pausedUntil == before[i].pausedUntil)
  }

  /**
   The evidence for a pause is filed under pause_source and pause_low_priority, and the gate
   asks for pause. So from a compliant ledger automatic mode never pauses a source, whatever
   the sensors say: no tick disables one or sets a TTL.
   */
  lemma NoTickPauses(p: Plane, t: Tick, cfg: Settings)
    requires Kept(p.ledger, cfg.gate) && Timely(t)
    ensures NonePaused(p.sources, Ticked(p, t, cfg).sources)
  {
    if t.commits {
      var q := DecidedAll(p, t, cfg);
      DecidedUpToPausesNone(p, |p.sources|, t, cfg);
      ResumedAt(q.sources, t.now);
    }
  }

  lemma {:induction false} NoRunPauses(p: Plane, ticks: seq<Tick>, cfg: Settings)
    requires Kept(p.ledger, cfg.gate) && forall t <- ticks :: Timely(t)
    ensures NonePaused(p.sources, Run(p, ticks, cfg).sources)
  {
    if ticks != [] {
      assert ticks[|ticks| - 1] in ticks;
      var q := Run(p, ticks[..|ticks| - 1], cfg);
      NoRunPauses(p, ticks[..|ticks| - 1], cfg);
      RunKeeps(p, ticks[..|ticks| - 1], cfg);
      NoTickPauses(q, ticks[|ticks| - 1], cfg);
    }
  }

  // ---------------------------------------------------------------------------
  // Ticks amid everything else
  // ---------------------------------------------------------------------------

  /**
   Between ticks operators may edit sources and schedules at will, pauses included, and the
   control-state endpoint may file a state's suggestions (backend/control/service.py:219-243).
   */
  datatype Happening =
    | TickHappens(tick: Tick)
    | Edited(sources: seq<Source>, schedules: seq<Schedule>)
    | Advised(source: string, state: ControlState, at: Tick)

  function Happened(p: Plane, h: Happening, cfg: Settings): Plane {
    match h
    case TickHappens(t) => Ticked(p, t, cfg)
    case Edited(sources, schedules) => p.(sources := sources, schedules := schedules)
    case Advised(source, state, at) =>
      p.(ledger := Recorded(p.ledger, source, state, SuggestActions(state), at, cfg.dedup))
  }

  lemma EditsAnything(p: Plane, sources: seq<Source>, schedules: seq<Schedule>, cfg: Settings)
    ensures Happened(p, Edited(sources, schedules), cfg) == Plane(p.ledger, sources, schedules)
  {}

  function RunAmid(p: Plane, hs: seq<Happening>, cfg: Settings): Plane {
    if hs == [] then p else Happened(RunAmid(p, hs[..|hs| - 1], cfg), hs[|hs| - 1], cfg)
  }

  ghost predicate TimelyTicks(hs: seq<Happening>) {
    forall h <- hs :: h.TickHappens? ==> Timely(h.tick)
  }

  /** Whatever is edited or filed in between, the ledger keeps all that RunKeeps promises of it. */
  lemma {:induction false} AmidKeeps(p: Plane, hs: seq<Happening>, cfg: Settings)
    requires Kept(p.ledger, cfg.gate) && TimelyTicks(hs)
    ensures Kept(RunAmid(p, hs, cfg).ledger, cfg.gate)
  {
    if hs != [] {
      var q, h := RunAmid(p, hs[..|hs| - 1], cfg), hs[|hs| - 1];
      assert h in hs;
      AmidKeeps(p, hs[..|hs| - 1], cfg);
      match h
      case TickHappens(t) => TickKeeps(q, t, cfg);
      case Edited(_, _) =>
      case Advised(source, state, at) => RecordedKeeps(q.ledger, source, state, SuggestActions(state), at, cfg);
    }
  }

  /** And still no tick switches a source off or sets a pause. */
  lemma NoTickAmidPauses(p: Plane, hs: seq<Happening>, cfg: Settings, i: nat)
    requires Kept(p.ledger, cfg.gate) && TimelyTicks(hs) && i < |hs| && hs[i].TickHappens?
    ensures NonePaused(RunAmid(p, hs[..i], cfg).sources, RunAmid(p, hs[..i + 1], cfg).sources)
  {
    assert hs[..i + 1][..i] == hs[..i] && hs[i] in hs;
    AmidKeeps(p, hs[..i], cfg);
    NoTickPauses(RunAmid(p, hs[..i], cfg), hs[i].tick, cfg);
  }

  // ---------------------------------------------------------------------------
  // Resumes: where they come from, and the hourly cap
  // ---------------------------------------------------------------------------

  /** The sources whose pause has expired. */
  function ExpiredCount(sources: seq<Source>, now: int): nat {
    if sources == [] then 0
    else ExpiredCount(sources[..|sources| - 1], now) + if Expired(sources[|sources| - 1], now) then 1 else 0
  }

  function PauseCount(sources: seq<Source>): nat {
    if sources == [] then 0
    else PauseCount(sources[..|sources| - 1]) + if sources[|sources| - 1].pausedUntil.Some? then 1 else 0
  }

  predicate IsResume(r: LedgerRow) {
    r.executed && r.action == Resume
  }

  function ResumeCount(rows: seq<LedgerRow>): nat {
    if rows == [] then 0 else ResumeCount(rows[..|rows| - 1]) + if IsResume(rows[|rows| - 1]) then 1 else 0
  }

  lemma {:induction false} SamePausesCount(a: seq<Source>, b: seq<Source>, now: int)
    requires SamePauses(a, b)
    ensures ExpiredCount(a, now) == ExpiredCount(b, now) && PauseCount(a) == PauseCount(b)
  {
    if a != [] {
      SamePausesCount(a[..|a| - 1], b[..|b| - 1], now);
    }
  }

  lemma {:induction false} ResumedCount(sources: seq<Source>, now: int)
    ensures PauseCount(ResumedSources(sources, now)) + ExpiredCount(sources, now) == PauseCount(sources)
  {
    if sources != [] {
      var front := sources[..|sources| - 1];
      ResumedCount(front, now);
      var after := ResumedSources(front, now);
      assert (after + [ResumedSource(sources[|sources| - 1], now)])[..|after|] == after;
    }
  }

  /** The tick's resumes add one executed row for each expired pause, within the hour. */
  lemma {:induction false} ResumeRows(rows: seq<LedgerRow>, sources: seq<Source>, t: Tick, since: int)
    requires Timely(t) && since <= t.now
    ensures ExecutedSince(WithResumes(rows, sources, t), since) ==
      ExecutedSince(rows, since) + ExpiredCount(sources, t.now)
    ensures ResumeCount(WithResumes(rows, sources, t)) == ResumeCount(rows) + ExpiredCount(sources, t.now)
    ensures |WithResumes(rows, sources, t)| == |rows| + ExpiredCount(sources, t.now)
  {
    if sources != [] {
      var before, s := WithResumes(rows, sources[..|sources| - 1], t), sources[|sources| - 1];
      ResumeRows(rows, sources[..|sources| - 1], t, since);
      assert t.now <= t.stamp(|before|);
      AppendedPrefix(before, LedgerRow(s.id, Paused, Resume, true, t.stamp(|before|), None, None));
    }
  }

  lemma {:induction false} JudgedCounts(rows: seq<LedgerRow>, now: int, wait: Patience, e: Evidence, since: int)
    ensures ExecutedSince(Judged(rows, now, wait, e), since) == ExecutedSince(rows, since)
    ensures ResumeCount(Judged(rows, now, wait, e)) == ResumeCount(rows)
  {
    if rows != [] {
      var front, last := rows[..|rows| - 1], rows[|rows| - 1];
      JudgedCounts(front, now, wait, e, since);
      AppendedPrefix(Judged(front, now, wait, e), JudgedRow(last, now, wait, e));
    }
  }

  /** What the decisions of a tick may do to the counts: execute within the cap, and never resume. */
  ghost predicate WithinCapFrom(before: seq<LedgerRow>, after: seq<LedgerRow>, since: int, cap: int) {
    && ExecutedSince(before, since) <= ExecutedSince(after, since)
    && (ExecutedSince(after, since) == ExecutedSince(before, since) || ExecutedSince(after, since) <= cap)
    && ResumeCount(after) == ResumeCount(before)
  }

  lemma {:induction false} RecordedWithinCap(rows: seq<LedgerRow>, source: string, state: ControlState,
                                             actions: seq<ActionType>, t: Tick, dedup: int, since: int)
    ensures ExecutedSince(Recorded(rows, source, state, actions, t, dedup), since) == ExecutedSince(rows, since)
    ensures ResumeCount(Recorded(rows, source, state, actions, t, dedup)) == ResumeCount(rows)
    decreases |actions|
  {
    if actions != [] {
      var row := LedgerRow(source, state, actions[0], false, t.stamp(|rows|), None, None);
      AppendedPrefix(rows, row);
      var next := if Repeats(rows, source, actions[0], state, t.clock(source), dedup) then rows else rows + [row];
      RecordedWithinCap(next, source, state, actions[1..], t, dedup, since);
    }
  }

  lemma ActedWithinCap(p: Plane, i: nat, state: ControlState, suggested: ActionType, t: Tick, cfg: Settings)
    requires i < |p.sources|
    ensures WithinCapFrom(p.ledger, Acted(p, i, state, suggested, t, cfg).ledger, t.now - HOUR, cfg.gate.maxPerHour)
  {
    AppendedPrefix(p.ledger, ExecutedRow(p, i, state, suggested, t));
  }

  lemma {:induction false} ActedAllWithinCap(p: Plane, i: nat, state: ControlState, actions: seq<ActionType>,
                                             t: Tick, cfg: Settings)
    requires i < |p.sources|
    ensures WithinCapFrom(p.ledger, ActedAll(p, i, state, actions, t, cfg).ledger, t.now - HOUR, cfg.gate.maxPerHour)
    decreases |actions|
  {
    hide Acted;
    if actions != [] {
      var front := actions[..|actions| - 1];
      ActedAllWithinCap(p, i, state, front, t, cfg);
      ActedWithinCap(ActedAll(p, i, state, front, t, cfg), i, state, actions[|actions| - 1], t, cfg);
    }
  }

  lemma DecidedWithinCap(p: Plane, i: nat, t: Tick, cfg: Settings)
    requires i < |p.sources|
    ensures WithinCapFrom(p.ledger, Decided(p, i, t, cfg).ledger, t.now - HOUR, cfg.gate.maxPerHour)
  {
    hide ActedAll;
    var id := p.sources[i].id;
    if p.sources[i].enabled && t.read(id).Some? {
      var state := StateOf(t.read(id).value, t.evidence.objectiveOf(id));
      var actions := SuggestActions(state);
      RecordedWithinCap(p.ledger, id, state, actions, t, cfg.dedup, t.now - HOUR);
      var q := if t.records(id) then p.(ledger := Recorded(p.ledger, id, state, actions, t, cfg.dedup)) else p;
      ActedAllWithinCap(q, i, state, actions, t, cfg);
    }
  }

  lemma {:induction false} DecidedUpToWithinCap(p: Plane, n: nat, t: Tick, cfg: Settings)
    requires n <= |p.sources|
    ensures WithinCapFrom(p.ledger, DecidedUpTo(p, n, t, cfg).ledger, t.now - HOUR, cfg.gate.maxPerHour)
  {
    hide Decided;
    if n > 0 {
      DecidedUpToWithinCap(p, n - 1, t, cfg);
      DecidedWithinCap(DecidedUpTo(p, n - 1, t, cfg), n - 1, t, cfg);
    }
  }

  lemma {:induction false} RestrainedExecutesNothing(p: Plane, n: nat, t: Tick, cfg: Settings, since: int)
    requires n <= |p.sources| && Restrained(t, cfg)
    ensures ExecutedSince(DecidedUpTo(p, n, t, cfg).ledger, since) == ExecutedSince(p.ledger, since)
  {
    hide Decided;
    if n > 0 {
      RestrainedExecutesNothing(p, n - 1, t, cfg, since);
      RestrainedExecutes(DecidedUpTo(p, n - 1, t, cfg), n - 1, t, cfg, since);
    }
  }

  lemma RestrainedExecutes(p: Plane, i: nat, t: Tick, cfg: Settings, since: int)
    requires i < |p.sources| && Restrained(t, cfg)
    ensures ExecutedSince(Decided(p, i, t, cfg).ledger, since) == ExecutedSince(p.ledger, since)
  {
    var id := p.sources[i].id;
    if p.sources[i].enabled && t.read(id).Some? {
      var state := StateOf(t.read(id).value, t.evidence.objectiveOf(id));
      var actions := SuggestActions(state);
      RecordedWithinCap(p.ledger, id, state, actions, t, cfg.dedup, since);
      var q := if t.records(id) then p.(ledger := Recorded(p.ledger, id, state, actions, t, cfg.dedup)) else p;
      RestrainedActsNot(q, i, state, actions, t, cfg);
    }
  }

  /** What a tick adds to the executions of the last hour: its own, and one for each expired pause. */
  lemma TickExecutions(p: Plane, t: Tick, cfg: Settings, since: int)
    requires t.commits && Timely(t) && since <= t.now
    ensures var q := DecidedAll(p, t, cfg);
      && ExecutedSince(Ticked(p, t, cfg).ledger, since) ==
        ExecutedSince(q.ledger, since) + ExpiredCount(q.sources, t.now)
      && ResumeCount(Ticked(p, t, cfg).ledger) == ResumeCount(q.ledger) + ExpiredCount(q.sources, t.now)
      && PauseCount(Ticked(p, t, cfg).sources) + ExpiredCount(q.sources, t.now) == PauseCount(q.sources)
  {
    hide DecidedAll;
    var q := DecidedAll(p, t, cfg);
    ResumeRows(q.ledger, q.sources, t, since);
    ResumedCount(q.sources, t.now);
    JudgedCounts(WithResumes(q.ledger, q.sources, t), t.now, cfg.wait, t.evidence, since);
  }

  /**
   Resumes count against the hourly cap but do not ask it. From a compliant ledger a tick
   leaves more executions in its hour than the cap allows if and only if those after its
   decisions and the expired pauses together exceed it. The decisions themselves never push
   the count over the cap. So what can be counted before the tick decides it both ways for a
   restrained one, which executes nothing itself; for any other it is enough that the count and
   the expired pauses exceed the cap, and one of the two must already be out of bounds.
   */
  lemma TickExceedsCapIff(p: Plane, t: Tick, cfg: Settings)
    requires t.commits && Timely(t) && Kept(p.ledger, cfg.gate)
    ensures var since, cap := t.now - HOUR, cfg.gate.maxPerHour;
      var decided := ExecutedSince(DecidedAll(p, t, cfg).ledger, since);
      && (ExecutedSince(Ticked(p, t, cfg).ledger, since) > cap <==> decided + ExpiredCount(p.sources, t.now) > cap)
      && ExecutedSince(p.ledger, since) <= decided
      && (decided > cap ==> decided == ExecutedSince(p.ledger, since))
    ensures var since, cap := t.now - HOUR, cfg.gate.maxPerHour;
      var before, expired := ExecutedSince(p.ledger, since), ExpiredCount(p.sources, t.now);
      && (before + expired > cap ==> ExecutedSince(Ticked(p, t, cfg).ledger, since) > cap)
      && (ExecutedSince(Ticked(p, t, cfg).ledger, since) > cap ==> before > cap || expired > 0)
      && (Restrained(t, cfg) ==> (ExecutedSince(Ticked(p, t, cfg).ledger, since) > cap <==> before + expired > cap))
  {
    if Restrained(t, cfg) {
      RestrainedExecutesNothing(p, |p.sources|, t, cfg, t.now - HOUR);
    }
    TickExecutions(p, t, cfg, t.now - HOUR);
    DecidedUpToPausesNone(p, |p.sources|, t, cfg);
    SamePausesCount(p.sources, DecidedAll(p, t, cfg).sources, t.now);
    DecidedUpToWithinCap(p, |p.sources|, t, cfg);
  }

  /** n sources, all switched off by a pause until the given time. */
  function PausedSources(n: nat, until: int): (sources: seq<Source>)
    ensures |sources| == n
    ensures forall i :: 0 <= i < n ==> sources[i] == Source(PrintNat(i), false, Some(until), false)
  {
    if n == 0 then [] else PausedSources(n - 1, until) + [Source(PrintNat(n - 1), false, Some(until), false)]
  }

  lemma {:induction false} AllPausesExpire(n: nat, until: int, now: int)
    requires until <= now
    ensures ExpiredCount(PausedSources(n, until), now) == n
  {
    if n > 0 {
      AllPausesExpire(n - 1, until, now);
      assert PausedSources(n, until)[..n - 1] == PausedSources(n - 1, until);
    }
  }

  lemma PausedSourcesDiffer(n: nat, until: int, i: nat, j: nat)
    requires i < j < n
    ensures PausedSources(n, until)[i].id != PausedSources(n, until)[j].id
  {
    PrintedDigitsParse(i);
    PrintedDigitsParse(j);
  }

  lemma {:induction false} DisabledDecideNothing(p: Plane, n: nat, t: Tick, cfg: Settings)
    requires n <= |p.sources| && forall i :: 0 <= i < |p.sources| ==> !p.sources[i].enabled
    ensures DecidedUpTo(p, n, t, cfg) == p
  {
    if n > 0 {
      DisabledDecideNothing(p, n - 1, t, cfg);
    }
  }

  /** A tick over sources that are all switched off only resumes. */
  lemma DisabledTick(p: Plane, t: Tick, cfg: Settings)
    requires t.commits && Timely(t) && forall i :: 0 <= i < |p.sources| ==> !p.sources[i].enabled
    ensures var after, expired := Ticked(p, t, cfg).ledger, ExpiredCount(p.sources, t.now);
      && |after| == |p.ledger| + expired
      && ResumeCount(after) == ResumeCount(p.ledger) + expired
      && ExecutedSince(after, t.now - HOUR) == ExecutedSince(p.ledger, t.now - HOUR) + expired
  {
    hide Decided;
    DisabledDecideNothing(p, |p.sources|, t, cfg);
    TickExecutions(p, t, cfg, t.now - HOUR);
    ResumeRows(p.ledger, p.sources, t, t.now - HOUR);
    JudgedAt(WithResumes(p.ledger, p.sources, t), t.now, cfg.wait, t.evidence);
  }

  /** With the cap used up in the last hour the gate refuses every action. */
  ghost predicate RefusesAll(rows: seq<LedgerRow>, now: int, gate: GateConfig) {
    forall killed, source, action, state :: EvaluateGate(rows, killed, source, action, state, now, gate) != Allow
  }

  lemma FullHourRefusesAll(rows: seq<LedgerRow>, now: int, gate: GateConfig)
    requires ExecutedSince(rows, now - HOUR) >= gate.maxPerHour
    ensures RefusesAll(rows, now, gate)
  {}

  /**
   For every n: from n different sources whose pauses have expired and an empty ledger, one
   tick writes n resume rows, whatever the cap; and once n has reached the cap the gate
   refuses every action.
   */
  lemma ResumesAreNotCapped(n: nat, until: int, t: Tick, cfg: Settings)
    requires t.commits && Timely(t) && until <= t.now
    ensures forall i, j :: 0 <= i < j < n ==> PausedSources(n, until)[i].id != PausedSources(n, until)[j].id
    ensures var after := Ticked(Plane([], PausedSources(n, until), []), t, cfg).ledger;
      && |after| == n && ResumeCount(after) == n && ExecutedSince(after, t.now - HOUR) == n
      && (cfg.gate.maxPerHour <= n ==> RefusesAll(after, t.now, cfg.gate))
  {
    hide Ticked, RefusesAll;
    var p := Plane([], PausedSources(n, until), []);
    AllPausesExpire(n, until, t.now);
    forall i, j | 0 <= i < j < n
      ensures PausedSources(n, until)[i].id != PausedSources(n, until)[j].id
    {
      PausedSourcesDiffer(n, until, i, j);
    }
    DisabledTick(p, t, cfg);
    if cfg.gate.maxPerHour <= n {
      FullHourRefusesAll(Ticked(p, t, cfg).ledger, t.now, cfg.gate);
    }
  }

  lemma TickTurnsPausesIntoResumes(p: Plane, t: Tick, cfg: Settings)
    requires Kept(p.ledger, cfg.gate) && Timely(t)
    ensures ResumeCount(Ticked(p, t, cfg).ledger) + PauseCount(Ticked(p, t, cfg).sources)
         == ResumeCount(p.ledger) + PauseCount(p.sources)
  {
    if t.commits {
      TickExecutions(p, t, cfg, t.now);
      DecidedUpToPausesNone(p, |p.sources|, t, cfg);
      SamePausesCount(p.sources, DecidedAll(p, t, cfg).sources, t.now);
      DecidedUpToWithinCap(p, |p.sources|, t, cfg);
    }
  }

  /**
   Every resume comes from a pause that was there before the run: no tick makes a pause, and
   each is resumed at most once. Over every sequence of ticks from a compliant ledger the
   resume rows and the pauses still set add up to what they were. In particular a run that
   starts without a pause never writes a resume row, so expired pauses come from outside.
   */
  lemma {:induction false} ResumesComeFromPauses(p: Plane, ticks: seq<Tick>, cfg: Settings)
    requires Kept(p.ledger, cfg.gate) && forall t <- ticks :: Timely(t)
    ensures ResumeCount(Run(p, ticks, cfg).ledger) + PauseCount(Run(p, ticks, cfg).sources)
         == ResumeCount(p.ledger) + PauseCount(p.sources)
  {
    if ticks != [] {
      assert ticks[|ticks| - 1] in ticks;
      ResumesComeFromPauses(p, ticks[..|ticks| - 1], cfg);
      RunKeeps(p, ticks[..|ticks| - 1], cfg);
      TickTurnsPausesIntoResumes(Run(p, ticks[..|ticks| - 1], cfg), ticks[|ticks| - 1], cfg);
    }
  }

  /**
   The promise of advisory mode does hold where no pause was set from outside: from a
   compliant ledger and sources without a pause, a run of restrained ticks changes no source
   and no schedule and writes no resume row.
   */
  lemma {:induction false} RestrainedRunMutatesNothing(p: Plane, ticks: seq<Tick>, cfg: Settings)
    requires Kept(p.ledger, cfg.gate) && forall t <- ticks :: Timely(t) && Restrained(t, cfg)
    requires forall s <- p.sources :: s.pausedUntil.None?
    ensures Run(p, ticks, cfg).sources == p.sources && Run(p, ticks, cfg).schedules == p.schedules
    ensures ResumeCount(Run(p, ticks, cfg).ledger) == ResumeCount(p.ledger)
  {
    if ticks != [] {
      var last, q := ticks[|ticks| - 1], Run(p, ticks[..|ticks| - 1], cfg);
      assert last in ticks;
      RestrainedRunMutatesNothing(p, ticks[..|ticks| - 1], cfg);
      if last.commits {
        RestrainedTickMutatesIff(q, last, cfg);
      }
      ResumesComeFromPauses(p, ticks, cfg);
    }
  }

  // ---------------------------------------------------------------------------
  // The cycle as it runs, updating rows in place
  // ---------------------------------------------------------------------------

  /** The targets of the gated executions on record, in ledger order. */
  function GatedTargets(rows: seq<LedgerRow>): seq<(string, ActionType)> {
    if rows == [] then []
    else
      var r := rows[|rows| - 1];
      GatedTargets(rows[..|rows| - 1]) + if Gated(r) then [(r.source, r.action)] else []
  }

  lemma GatedTargetsAppend(rows: seq<LedgerRow>, r: LedgerRow)
    ensures GatedTargets(rows + [r]) == GatedTargets(rows) + if Gated(r) then [(r.source, r.action)] else []
  {}

  /** What acting on one suggestion executes. */
  function Executions(
    p: Plane, i: nat, state: ControlState, suggested: ActionType, t: Tick, cfg: Settings
  ): (e: seq<(string, ActionType)>)
    requires i < |p.sources|
    ensures |e| <= 1
  {
    if Allows(p, i, state, suggested, t, cfg) then [(p.sources[i].id, ResolveActionType(suggested).0)] else []
  }

  lemma ActedTargets(p: Plane, i: nat, state: ControlState, suggested: ActionType, t: Tick, cfg: Settings)
    requires i < |p.sources|
    ensures GatedTargets(Acted(p, i, state, suggested, t, cfg).ledger)
         == GatedTargets(p.ledger) + Executions(p, i, state, suggested, t, cfg)
  {}

  lemma {:induction false} GatedTargetsJudged(rows: seq<LedgerRow>, now: int, wait: Patience, e: Evidence)
    ensures GatedTargets(Judged(rows, now, wait, e)) == GatedTargets(rows)
  {
    if rows != [] {
      var front, last := rows[..|rows| - 1], rows[|rows| - 1];
      GatedTargetsJudged(front, now, wait, e);
      GatedTargetsAppend(Judged(front, now, wait, e), JudgedRow(last, now, wait, e));
    }
  }

  datatype CycleResult = CycleResult(
    seen: nat, executions: seq<(string, ActionType)>, blocked: nat, resumed: seq<string>, outcomes: OutcomeCounts
  )

  /** The database as one control-cycle session sees and changes it. */
  class ControlStore {
    var ledger: seq<LedgerRow>
    var sources: seq<Source>
    var schedules: seq<Schedule>

    constructor (p: Plane)
      ensures View() == p
    {
      ledger, sources, schedules := p.ledger, p.sources, p.schedules;
    }

    function View(): Plane
      reads this
    {
      Plane(ledger, sources, schedules)
    }

    /** record_advisory_actions */
    method RecordAdvisoryActions(source: string, state: ControlState, actions: seq<ActionType>, t: Tick, dedup: int)
      returns (written: nat)
      modifies this`ledger
      ensures ledger == Recorded(old(ledger), source, state, actions, t, dedup)
      ensures |ledger| == |old(ledger)| + written
      ensures GatedTargets(ledger) == old(GatedTargets(ledger))
    {
      written := 0;
      for i := 0 to |actions|
        invariant Recorded(ledger, source, state, actions[i..], t, dedup) ==
          Recorded(old(ledger), source, state, actions, t, dedup)
        invariant |ledger| == |old(ledger)| + written
        invariant GatedTargets(ledger) == old(GatedTargets(ledger))
      {
        assert actions[i..][1..] == actions[i + 1..];
        if Repeats(ledger, source, actions[i], state, t.clock(source), dedup) {
          continue;
        }
        var row := LedgerRow(source, state, actions[i], false, t.stamp(|ledger|), None, None);
        GatedTargetsAppend(ledger, row);
        ledger := ledger + [row];
        written := written + 1;
      }
    }

    /** _apply_increase_interval */
    method ApplyIncreaseInterval(source: string, cfg: Settings)
      modifies this`schedules
      ensures schedules == Widened(old(schedules), source, cfg)
    {
      hide ParseStepMinutes, WidenedMinutes, PrintStepMinutes;
      for k := 0 to |schedules|
        invariant |schedules| == |old(schedules)|
        invariant forall j :: 0 <= j < k ==> schedules[j] == WidenedSchedule(old(schedules)[j], source, cfg)
        invariant forall j :: k <= j < |schedules| ==> schedules[j] == old(schedules)[j]
      {
        var s := schedules[k];
        if s.source == source && s.enabled {
          var minutes := ParseStepMinutes(s.cron);
          if minutes.Some? {
            var widened := WidenedMinutes(minutes.value, cfg.factor, cfg.maxMinutes);
            if widened != minutes.value {
              schedules := schedules[k := s.(cron := PrintStepMinutes(widened))];
            }
          }
        }
      }
      WidenedAt(old(schedules), source, cfg);
    }

    /** execute_action */
    method ExecuteAction(i: nat, suggested: ActionType, now: int, cfg: Settings) returns (executed: ActionType)
      requires i < |sources|
      modifies this`sources, this`schedules
      ensures executed == ResolveActionType(suggested).0
      ensures View() == Applied(old(View()), i, executed, now, cfg)
    {
      executed := ResolveActionType(suggested).0;
      if executed == IncreaseInterval {
        ApplyIncreaseInterval(sources[i].id, cfg);
      } else if executed == Pause {
        sources := sources[i := sources[i].(enabled := false, pausedUntil := Some(now + cfg.pauseTtl))];
      } else {
        sources := sources[i := sources[i].(reviewRequired := true)];
      }
    }

    /** One suggestion: evaluate_gate, then execute_action and record_executed_action if it allows. */
    method ActOn(i: nat, state: ControlState, suggested: ActionType, t: Tick, cfg: Settings)
      returns (executed: seq<(string, ActionType)>)
      requires i < |sources|
      modifies this
      ensures View() == Acted(old(View()), i, state, suggested, t, cfg)
      ensures executed == Executions(old(View()), i, state, suggested, t, cfg)
    {
      hide EvaluateGate;
      if !Allows(View(), i, state, suggested, t, cfg) {
        return [];
      }
      var row := ExecutedRow(View(), i, state, suggested, t);
      var action := ExecuteAction(i, suggested, t.now, cfg);
      ledger := ledger + [row];
      return [(row.source, action)];
    }

    /** The inner loop of the cycle: every suggestion of one source, in order. */
    method ActOnAll(i: nat, state: ControlState, actions: seq<ActionType>, t: Tick, cfg: Settings)
      returns (executions: seq<(string, ActionType)>, blocked: nat)
      requires i < |sources|
      modifies this
      ensures View() == ActedAll(old(View()), i, state, actions, t, cfg)
      ensures |executions| + blocked == |actions|
      ensures GatedTargets(ledger) == old(GatedTargets(ledger)) + executions
    {
      hide Acted;
      executions, blocked := [], 0;
      for k := 0 to |actions|
        invariant |sources| == |old(sources)|
        invariant View() == ActedAll(old(View()), i, state, actions[..k], t, cfg)
        invariant |executions| + blocked == k
        invariant GatedTargets(ledger) == old(GatedTargets(ledger)) + executions
      {
        assert actions[..k + 1][..k] == actions[..k];
        ActedTargets(View(), i, state, actions[k], t, cfg);
        var done := ActOn(i, state, actions[k], t, cfg);
        ConcatAssociative(old(GatedTargets(ledger)), executions, done);
        executions := executions + done;
        if done == [] {
          blocked := blocked + 1;
        }
      }
      assert actions[..|actions|] == actions;
    }

    /** One source's turn in the outer loop. */
    method DecideFor(i: nat, t: Tick, cfg: Settings)
      returns (executions: seq<(string, ActionType)>, blocked: nat, seen: nat)
      requires i < |sources|
      modifies this
      ensures View() == Decided(old(View()), i, t, cfg)
      ensures |executions| + blocked == seen
      ensures GatedTargets(ledger) == old(GatedTargets(ledger)) + executions
    {
      var id := sources[i].id;
      var reading := t.read(id);
      if !sources[i].enabled || reading.None? {
        return [], 0, 0;
      }
      var state := StateOf(reading.value, t.evidence.objectiveOf(id));
      var actions := SuggestActions(state);
      if t.records(id) {
        var _ := RecordAdvisoryActions(id, state, actions, t, cfg.dedup);
      }
      executions, blocked := ActOnAll(i, state, actions, t, cfg);
      seen := |actions|;
    }

    /** auto_resume_expired_pauses, then one ledger row per resumed source */
    method AutoResume(t: Tick) returns (resumed: seq<string>)
      modifies this`sources, this`ledger
      ensures View() == AutoResumed(old(View()), t)
      ensures |ledger| == |old(ledger)| + |resumed|
    {
      resumed := [];
      for i := 0 to |sources|
        invariant |sources| == |old(sources)|
        invariant forall j :: 0 <= j < i ==> sources[j] == ResumedSource(old(sources)[j], t.now)
        invariant forall j :: i <= j < |sources| ==> sources[j] == old(sources)[j]
        invariant ledger == WithResumes(old(ledger), old(sources)[..i], t)
        invariant |ledger| == |old(ledger)| + |resumed|
      {
        assert old(sources)[..i + 1][..i] == old(sources)[..i];
        var s := sources[i];
        if Expired(s, t.now) {
          ledger := ledger + [LedgerRow(s.id, Paused, Resume, true, t.stamp(|ledger|), None, None)];
          resumed := resumed + [s.id];
          sources := sources[i := s.(enabled := true, pausedUntil := None)];
        }
      }
      assert old(sources)[..|sources|] == old(sources);
      ResumedAt(old(sources), t.now);
    }

    /** evaluate_pending_outcomes */
    method EvaluatePendingOutcomes(now: int, wait: Patience, e: Evidence) returns (counts: OutcomeCounts)
      modifies this`ledger
      ensures ledger == Judged(old(ledger), now, wait, e)
      ensures counts == Counted(old(ledger), now, wait, e)
    {
      counts := NO_OUTCOMES;
      for i := 0 to |ledger|
        invariant |ledger| == |old(ledger)|
        invariant forall j :: 0 <= j < i ==> ledger[j] == JudgedRow(old(ledger)[j], now, wait, e)
        invariant forall j :: i <= j < |ledger| ==> ledger[j] == old(ledger)[j]
        invariant counts == Counted(old(ledger)[..i], now, wait, e)
      {
        assert old(ledger)[..i + 1][..i] == old(ledger)[..i];
        var row := ledger[i];
        if row.evaluatedAt.None? {
          var verdict := Verdict(row, now, wait, e);
          counts := CountVerdict(counts, verdict);
          if verdict.Some? {
            ledger := ledger[i := row.(outcome := verdict, evaluatedAt := Some(now))];
          }
        }
      }
      assert old(ledger)[..|ledger|] == old(ledger);
      JudgedAt(old(ledger), now, wait, e);
    }

    /** The outer loop of the cycle. */
    method DecideForAll(t: Tick, cfg: Settings)
      returns (executions: seq<(string, ActionType)>, blocked: nat, seen: nat)
      modifies this
      ensures View() == DecidedAll(old(View()), t, cfg)
      ensures |executions| + blocked == seen
      ensures GatedTargets(ledger) == old(GatedTargets(ledger)) + executions
    {
      hide Decided;
      seen, executions, blocked := 0, [], 0;
      ghost var targets := GatedTargets(ledger);
      for i := 0 to |sources|
        invariant |sources| == |old(sources)|
        invariant View() == DecidedUpTo(old(View()), i, t, cfg)
        invariant |executions| + blocked == seen
        invariant GatedTargets(ledger) == targets + executions
      {
        var done, refused, suggested := DecideFor(i, t, cfg);
        ConcatAssociative(targets, executions, done);
        executions, blocked, seen := executions + done, blocked + refused, seen + suggested;
      }
    }

    /**
     run_control_cycle_once: the whole tick, with a report that accounts for every suggestion
     and for every gated row written.
     */
    method RunControlCycleOnce(t: Tick, cfg: Settings) returns (result: CycleResult)
      modifies this
      ensures View() == TickBody(old(View()), t, cfg)
      ensures |result.executions| + result.blocked == result.seen
      ensures GatedTargets(ledger) == old(GatedTargets(ledger)) + result.executions
    {
      var executions, blocked, seen := DecideForAll(t, cfg);
      GatedTargetsResumed(ledger, sources, t);
      var resumed := AutoResume(t);
      GatedTargetsJudged(ledger, t.now, cfg.wait, t.evidence);
      var outcomes := EvaluatePendingOutcomes(t.now, cfg.wait, t.evidence);
      result := CycleResult(seen, executions, blocked, resumed, outcomes);
    }

    /** _tick: commit, or roll everything back. */
    method RunTick(t: Tick, cfg: Settings)
      modifies this
      ensures View() == Ticked(old(View()), t, cfg)
    {
      var saved := View();
      var _ := RunControlCycleOnce(t, cfg);
      if !t.commits {
        ledger, sources, schedules := saved.ledger, saved.sources, saved.schedules;
      }
    }
  }

  lemma {:induction false} WidenedAt(schedules: seq<Schedule>, source: string, cfg: Settings)
    ensures |Widened(schedules, source, cfg)| == |schedules|
    ensures forall k :: 0 <= k < |schedules| ==>
      Widened(schedules, source, cfg)[k] == WidenedSchedule(schedules[k], source, cfg)
  {
    if schedules != [] {
      WidenedAt(schedules[..|schedules| - 1], source, cfg);
    }
  }

  lemma {:induction false} GatedTargetsResumed(rows: seq<LedgerRow>, sources: seq<Source>, t: Tick)
    ensures GatedTargets(WithResumes(rows, sources, t)) == GatedTargets(rows)
  {
    if sources != [] {
      var before, s := WithResumes(rows, sources[..|sources| - 1], t), sources[|sources| - 1];
      GatedTargetsResumed(rows, sources[..|sources| - 1], t);
      GatedTargetsAppend(before, LedgerRow(s.id, Paused, Resume, true, t.stamp(|before|), None, None));
    }
  }
}
