/**
 A confirmation taken apart (backend/control/agent_control.py:581-613): it loads the target and
 checks the version in one read, and writes later in the same transaction. The write goes by
 primary key and carries the columns that differ from what was loaded, so edits committed in
 between are not seen. The proposal itself is locked.
 */
module AgentControlSplit {
  import opened Common
  import opened AgentControl

  /** A column is written only if its new value differs from the loaded one. */
  function Column<T(==)>(loaded: T, wanted: T, present: T): T {
    if wanted == loaded then present else wanted
  }

  function WantedCron(row: Schedule, args: Args): string {
    if "cron_expression" in args then Text(args["cron_expression"]) else row.cron
  }

  function WantedModel(row: Provider, args: Args): Option<string> {
    if "default_model" in args then Some(Text(args["default_model"])) else row.model
  }

  function WantedEnabled(enabled: bool, args: Args): bool {
    if "enabled" in args then Truthy(args["enabled"]) else enabled
  }

  /** What an action decided on the rows of `seen` writes into the store s; 500 if its target has gone. */
  function Written(seen: Store, s: Store, action: Action, args: Args, now: int): Result<Store, Code>
    requires Perform(seen, action, args, now).Ok?
  {
    match action
    case ToggleSource =>
      var id := IdArg(args, "source_id");
      var loaded, wanted := seen.sources[id].enabled, Truthy(Get(args, "enabled"));
      if id !in s.sources then Err(500)
      else if wanted == loaded then Ok(s)
      else Ok(s.(sources := s.sources[id := s.sources[id].(enabled := wanted, updatedAt := now)]))
    case TriggerTask =>
      var id := IdArg(args, "source_id");
      if id !in s.sources then Err(500) else Ok(s.(tasks := s.tasks + [id]))
    case UpdateSchedule =>
      var id := IdArg(args, "schedule_id");
      var loaded := seen.schedules[id];
      var cron, enabled := WantedCron(loaded, args), WantedEnabled(loaded.enabled, args);
      if id !in s.schedules then Err(500)
      else if cron == loaded.cron && enabled == loaded.enabled then Ok(s)
      else
        var row := s.schedules[id];
        var present := Column(loaded.enabled, enabled, row.enabled);
        Ok(s.(schedules := s.schedules[id := Schedule(Column(loaded.cron, cron, row.cron), present, now)]))
    case UpdateProvider =>
      var id := IdArg(args, "provider_id");
      var loaded := seen.providers[id];
      var model, enabled := WantedModel(loaded, args), WantedEnabled(loaded.enabled, args);
      if model == loaded.model && enabled == loaded.enabled then Ok(s)
      else if id !in s.providers then Err(500)
      else
        var row := s.providers[id];
        var present := Column(loaded.enabled, enabled, row.enabled);
        Ok(s.(providers := s.providers[id := Provider(Column(loaded.model, model, row.model), present, now)]))
  }

  /** The effect is on the row of the recorded version if the target has it at the write. */
  predicate LandsOnRecord(s: Store, p: Proposal) {
    CurrentVersion(s, p.action, p.args) == Some(p.target)
  }

  /** Then it is exactly what one atomic step does there: the loaded row and the present one agree. */
  lemma OnRecordIsAtomic(seen: Store, s: Store, p: Proposal, now: int)
    requires LandsOnRecord(seen, p) && Perform(seen, p.action, p.args, now).Ok?
    requires LandsOnRecord(s, p)
    ensures Written(seen, s, p.action, p.args, now) == Perform(s, p.action, p.args, now)
  {}

  /** Whatever happened to its target, a write with something to write succeeds as long as the target is there. */
  lemma WritesIff(seen: Store, s: Store, p: Proposal, now: int)
    requires LandsOnRecord(seen, p) && Perform(seen, p.action, p.args, now).Ok?
    requires p.action == UpdateProvider ==> !LeavesVersion(p)
    ensures Written(seen, s, p.action, p.args, now).Ok? <==> CurrentVersion(s, p.action, p.args).Some?
  {}

  /** A column that the proposal changes: it was asked for, with another value than the recorded one. */
  predicate Changes<T(==)>(asked: Option<T>, recorded: T) {
    asked.Some? && asked.value != recorded
  }

  function AskedTruth(args: Args): Option<bool> {
    if "enabled" in args then Some(Truthy(args["enabled"])) else None
  }

  function AskedText(args: Args, key: string): Option<string> {
    if key in args then Some(Text(args[key])) else None
  }

  /**
   So an edit in between is overwritten, where the atomic confirmation refuses: the columns that
   the proposal changes get its values, and only the others keep the edited ones. If it changes
   none nothing is written.
   */
  lemma LastWriterWins(seen: Store, s: Store, p: Proposal, now: int)
    requires LandsOnRecord(seen, p) && Perform(seen, p.action, p.args, now).Ok? && p.action == UpdateSchedule
    requires p.target.id in s.schedules
    ensures var cron, enabled := AskedText(p.args, "cron_expression"), AskedTruth(p.args);
      var newCron, newEnabled := Changes(cron, p.target.schedule.cron), Changes(enabled, p.target.schedule.enabled);
      var row := s.schedules[p.target.id];
      Written(seen, s, p.action, p.args, now) == Ok(
        if !newCron && !newEnabled then s
        else
          var left := if newEnabled then enabled.value else row.enabled;
          s.(schedules := s.schedules[p.target.id := Schedule(if newCron then cron.value else row.cron, left, now)]))
  {}

  lemma LastWriterWinsForProviders(seen: Store, s: Store, p: Proposal, now: int)
    requires LandsOnRecord(seen, p) && Perform(seen, p.action, p.args, now).Ok? && p.action == UpdateProvider
    requires p.target.id in s.providers
    ensures var model, enabled := AskedText(p.args, "default_model"), AskedTruth(p.args);
      var newModel := model.Some? && Some(model.value) != p.target.provider.model;
      var newEnabled := Changes(enabled, p.target.provider.enabled);
      var row := s.providers[p.target.id];
      Written(seen, s, p.action, p.args, now) == Ok(
        if !newModel && !newEnabled then s
        else
          var left := if newEnabled then enabled.value else row.enabled;
          s.(providers := s.providers[p.target.id := Provider(if newModel then model else row.model, left, now)]))
  {}

  // ---------------------------------------------------------------------------
  // What happens between check and write
  // ---------------------------------------------------------------------------

  function TimeOf(v: Version): int {
    match v
    case SourceVersion(_, source) => source.updatedAt
    case ScheduleVersion(_, schedule) => schedule.updatedAt
    case ProviderVersion(_, provider) => provider.updatedAt
  }

  function VersionIn(s: State, p: Proposal): Option<Version> {
    CurrentVersion(s.store, p.action, p.args)
  }

  /** The step changes or deletes the proposal's target. */
  predicate Touches(s: State, e: Event, p: Proposal)
    requires Enabled(s, e)
  {
    VersionIn(Step(s, e), p) != VersionIn(s, p)
  }

  /** A row that is changed gets a later time, and one that is deleted does not come back. */
  predicate Stamps(s: State, e: Event, p: Proposal)
    requires Enabled(s, e)
  {
    Touches(s, e, p) ==>
      && VersionIn(s, p).Some?
      && (VersionIn(Step(s, e), p).Some? ==> TimeOf(VersionIn(Step(s, e), p).value) > TimeOf(VersionIn(s, p).value))
  }

  ghost predicate StampedRun(s: State, run: seq<Event>, p: Proposal)
    requires IsRun(s, run)
    decreases |run|
  {
    run == [] || (Stamps(s, run[0], p) && StampedRun(Step(s, run[0]), run[1..], p))
  }

  ghost predicate NobodyTouches(s: State, run: seq<Event>, p: Proposal)
    requires IsRun(s, run)
    decreases |run|
  {
    run == [] || (!Touches(s, run[0], p) && NobodyTouches(Step(s, run[0]), run[1..], p))
  }

  /** The target is gone for good, or its time only moves on. */
  lemma {:induction false} TimeMovesOn(s: State, run: seq<Event>, p: Proposal)
    requires IsRun(s, run) && StampedRun(s, run, p)
    ensures VersionIn(s, p).None? ==> VersionIn(After(s, run), p).None?
    ensures VersionIn(s, p).Some? && VersionIn(After(s, run), p).Some? ==>
      TimeOf(VersionIn(After(s, run), p).value) >= TimeOf(VersionIn(s, p).value)
    decreases |run|
  {
    hide Step, CurrentVersion;
    if run != [] {
      TimeMovesOn(Step(s, run[0]), run[1..], p);
    }
  }

  /**
   Over every run of proposals, confirmations and edits between check and write: a confirmation
   that passed its check takes effect on the recorded version if and only if no step in between
   touched its target.
   */
  lemma {:induction false} SplitLandsIff(s: State, run: seq<Event>, p: Proposal)
    requires IsRun(s, run) && StampedRun(s, run, p) && LandsOnRecord(s.store, p)
    ensures LandsOnRecord(After(s, run).store, p) <==> NobodyTouches(s, run, p)
    decreases |run|
  {
    hide Step, CurrentVersion;
    if run != [] {
      TimeMovesOn(Step(s, run[0]), run[1..], p);
      if !Touches(s, run[0], p) {
        SplitLandsIff(Step(s, run[0]), run[1..], p);
      }
    }
  }
}
