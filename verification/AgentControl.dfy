/**
 Agent Control proposals (backend/control/agent_control.py): a mutation is previewed and
 recorded, then executed once on confirmation, only while its target still has the recorded
 version. Digests are modelled as the tuples they are taken of; proposal ids and versions are
 fresh names.
 */
module AgentControl {
  import opened Common

  // ---------------------------------------------------------------------------
  // Arguments
  // ---------------------------------------------------------------------------

  /** A JSON value as str() and bool() see it. */
  datatype Value = Null | Str(text: string) | Bool(b: bool) | Other(repr: string, truthy: bool)

  type Args = map<string, Value>

  function Text(v: Value): string {
    match v
    case Null => "None"
    case Str(text) => text
    case Bool(b) => if b then "True" else "False"
    case Other(repr, _) => repr
  }

  function Truthy(v: Value): bool {
    match v
    case Null => false
    case Str(text) => text != ""
    case Bool(b) => b
    case Other(_, truthy) => truthy
  }

  /** str() and bool() of a value. */
  lemma ValuesRead(v: Value, text: string)
    ensures Text(Str(text)) == text && (Truthy(Str(text)) <==> |text| > 0)
    ensures Text(Bool(true)) == "True" && Text(Bool(false)) == "False" && Truthy(Bool(true)) && !Truthy(Bool(false))
    ensures Text(Null) == "None" && !Truthy(Null)
    ensures v.Other? ==> Text(v) == v.repr && Truthy(v) == v.truthy
  {}

  function Get(args: Args, key: string): Value {
    if key in args then args[key] else Null
  }

  /** str(args.get(key, "")) */
  function IdArg(args: Args, key: string): string {
    if key in args then Text(args[key]) else ""
  }

  // ---------------------------------------------------------------------------
  // The database
  // ---------------------------------------------------------------------------

  datatype Source = Source(enabled: bool, updatedAt: int)

  datatype Schedule = Schedule(cron: string, enabled: bool, updatedAt: int)

  datatype Provider = Provider(model: Option<string>, enabled: bool, updatedAt: int)

  datatype Action = ToggleSource | TriggerTask | UpdateSchedule | UpdateProvider

  /** target_resource_version */
  datatype Version =
    | SourceVersion(id: string, source: Source)
    | ScheduleVersion(id: string, schedule: Schedule)
    | ProviderVersion(id: string, provider: Provider)

  datatype Status = Open | InProgress | Resolved

  datatype Proposal = Proposal(
    workspace: string, version: string, action: Action, args: Args, target: Version, status: Status
  )

  datatype Store = Store(
    sources: map<string, Source>, schedules: map<string, Schedule>, providers: map<string, Provider>,
    tasks: seq<string>, proposals: map<string, Proposal>
  )

  /** HTTP status codes of the refusals. */
  type Code = int

  datatype Preview = Preview(args: Args, target: Version)

  // ---------------------------------------------------------------------------
  // Previews
  // ---------------------------------------------------------------------------

  function ScheduleArgs(args: Args): Args {
    var base: Args := map["schedule_id" := Str(IdArg(args, "schedule_id"))];
    var withCron := if Get(args, "cron_expression") == Null then base
                    else base["cron_expression" := Str(Text(args["cron_expression"]))];
    if Get(args, "enabled") == Null then withCron else withCron["enabled" := Bool(Truthy(args["enabled"]))]
  }

  function ProviderArgs(args: Args): Args {
    var base: Args := map["provider_id" := Str(IdArg(args, "provider_id"))];
    var withModel := if Get(args, "default_model") == Null then base
                     else base["default_model" := Str(Text(args["default_model"]))];
    if Get(args, "enabled") == Null then withModel else withModel["enabled" := Bool(Truthy(args["enabled"]))]
  }

  /** The arguments that are previewed, recorded and later executed. */
  function Normalised(action: Action, args: Args): Args {
    match action
    case ToggleSource =>
      map["source_id" := Str(IdArg(args, "source_id")), "enabled" := Bool(Truthy(Get(args, "enabled")))]
    case TriggerTask => map["source_id" := Str(IdArg(args, "source_id"))]
    case UpdateSchedule => ScheduleArgs(args)
    case UpdateProvider => ProviderArgs(args)
  }

  function CurrentVersion(s: Store, action: Action, args: Args): Option<Version> {
    match action
    case UpdateSchedule =>
      var id := IdArg(args, "schedule_id");
      if id in s.schedules then Some(ScheduleVersion(id, s.schedules[id])) else None
    case UpdateProvider =>
      var id := IdArg(args, "provider_id");
      if id in s.providers then Some(ProviderVersion(id, s.providers[id])) else None
    case _ =>
      var id := IdArg(args, "source_id");
      if id in s.sources then Some(SourceVersion(id, s.sources[id])) else None
  }

  predicate ChangesSomething(args: Args, field: string) {
    Get(args, field) != Null || Get(args, "enabled") != Null
  }

  function Prepare(s: Store, action: Action, args: Args, validCron: string -> bool): Result<Preview, Code> {
    var target := CurrentVersion(s, action, args);
    if target.None? then Err(404)
    else if action == UpdateSchedule && Get(args, "cron_expression") != Null
            && !validCron(Text(args["cron_expression"])) then Err(400)
    else if action == UpdateSchedule && !ChangesSomething(args, "cron_expression") then Err(400)
    else if action == UpdateProvider && !ChangesSomething(args, "default_model") then Err(400)
    else Ok(Preview(Normalised(action, args), target.value))
  }

  /** Normalising is idempotent, and the normalised arguments name the same target. */
  lemma NormalisedTwice(action: Action, args: Args)
    ensures Normalised(action, Normalised(action, args)) == Normalised(action, args)
    ensures forall s: Store :: CurrentVersion(s, action, Normalised(action, args)) == CurrentVersion(s, action, args)
  {}

  // ---------------------------------------------------------------------------
  // Effects
  // ---------------------------------------------------------------------------

  /** An update that changes nothing is not written, so it leaves the row's time alone. */
  function Touched<T(==)>(rows: map<string, T>, id: string, before: T, after: T, stamped: T): map<string, T> {
    if after == before then rows else rows[id := stamped]
  }

  /** What an action does to the database; 404 for a missing target, 400 for a disabled source. */
  function Perform(s: Store, action: Action, args: Args, now: int): Result<Store, Code> {
    match action
    case ToggleSource =>
      var id := IdArg(args, "source_id");
      if id !in s.sources then Err(404)
      else
        var source := s.sources[id].(enabled := Truthy(Get(args, "enabled")));
        Ok(s.(sources := Touched(s.sources, id, s.sources[id], source, source.(updatedAt := now))))
    case TriggerTask =>
      var id := IdArg(args, "source_id");
      if id !in s.sources then Err(404)
      else if !s.sources[id].enabled then Err(400)
      else Ok(s.(tasks := s.tasks + [id]))
    case UpdateSchedule =>
      var id := IdArg(args, "schedule_id");
      if id !in s.schedules then Err(404)
      else
        var row := s.schedules[id];
        var cron := if "cron_expression" in args then Text(args["cron_expression"]) else row.cron;
        var enabled := if "enabled" in args then Truthy(args["enabled"]) else row.enabled;
        var schedule := row.(cron := cron, enabled := enabled);
        Ok(s.(schedules := Touched(s.schedules, id, row, schedule, schedule.(updatedAt := now))))
    case UpdateProvider =>
      var id := IdArg(args, "provider_id");
      if id !in s.providers then Err(404)
      else
        var row := s.providers[id];
        var model := if "default_model" in args then Some(Text(args["default_model"])) else row.model;
        var enabled := if "enabled" in args then Truthy(args["enabled"]) else row.enabled;
        var provider := row.(model := model, enabled := enabled);
        Ok(s.(providers := Touched(s.providers, id, row, provider, provider.(updatedAt := now))))
  }

  // ---------------------------------------------------------------------------
  // Proposing and confirming
  // ---------------------------------------------------------------------------

  /** What the authorisation layer answers, and what goes wrong while the action runs. */
  datatype Fault = NoFault | Raises | DispatchFails | Crashes

  datatype Env = Env(member: bool, permitted: bool, validCron: string -> bool, now: int, fault: Fault)

  datatype Confirmation = Confirmation(id: string, workspace: string, version: string, expected: Option<Action>)

  datatype Reply = Applied | Refused(code: Code) | Lost

  function Proposed(
    s: Store, id: string, workspace: string, version: string, action: Action, args: Args, e: Env
  ): Result<Store, Code> {
    if !e.member || !e.permitted then Err(403)
    else
      var preview := Prepare(s, action, args, e.validCron);
      if preview.Err? then Err(preview.error)
      else
        var proposal := Proposal(workspace, version, action, preview.value.args, preview.value.target, Open);
        Ok(s.(proposals := s.proposals[id := proposal]))
  }

  /** Why a confirmation is turned away before it changes anything. */
  function Refusal(s: Store, c: Confirmation, e: Env): Option<Code> {
    if !e.member then Some(403)
    else if c.id !in s.proposals || s.proposals[c.id].workspace != c.workspace then Some(404)
    else
      var p := s.proposals[c.id];
      if p.status != Open || p.version != c.version then Some(409)
      else if c.expected.Some? && c.expected.value != p.action then Some(409)
      else if !e.permitted then Some(403)
      else
        var preview := Prepare(s, p.action, p.args, e.validCron);
        if preview.Err? then Some(preview.error)
        else if preview.value.target != p.target then Some(409)
        else None
  }

  function WithStatus(s: Store, id: string, status: Status): Store
    requires id in s.proposals
  {
    s.(proposals := s.proposals[id := s.proposals[id].(status := status)])
  }

  /** The store and the reply after a confirmation, with every fault. */
  function Confirmed(s: Store, c: Confirmation, e: Env): (Store, Reply) {
    var refusal := Refusal(s, c, e);
    if refusal.Some? then (s, Refused(refusal.value))
    else
      var p := s.proposals[c.id];
      var done := Perform(WithStatus(s, c.id, InProgress), p.action, Normalised(p.action, p.args), e.now);
      if done.Err? then (s, Refused(done.error))
      else if e.fault == Raises then (s, Refused(500))
      // The task is committed before it is dispatched.
      else if p.action == TriggerTask && e.fault == DispatchFails then (done.value, Refused(502))
      else if p.action == TriggerTask && e.fault == Crashes then (done.value, Lost)
      else if e.fault == Crashes then (s, Lost)
      else (WithStatus(done.value, c.id, Resolved), Applied)
  }

  /** The confirmation's effect became durable. */
  predicate TakesEffect(s: Store, c: Confirmation, e: Env) {
    && Refusal(s, c, e).None?
    && Perform(WithStatus(s, c.id, InProgress), s.proposals[c.id].action,
               Normalised(s.proposals[c.id].action, s.proposals[c.id].args), e.now).Ok?
    && e.fault != Raises
    && (e.fault == Crashes ==> s.proposals[c.id].action == TriggerTask)
  }

  /**
   Without a durable effect the whole prior state is back, the open proposal included. With
   one the proposal is open no longer: it is in progress if the follow-up failed or the
   process died, and resolved otherwise.
   */
  lemma AllOrNothing(s: Store, c: Confirmation, e: Env)
    ensures !TakesEffect(s, c, e) <==> Confirmed(s, c, e).0 == s
    ensures TakesEffect(s, c, e) ==>
      && s.proposals[c.id].status == Open
      && c.id in Confirmed(s, c, e).0.proposals
      && Confirmed(s, c, e).0.proposals[c.id].status == if Confirmed(s, c, e).1 == Applied then Resolved else InProgress
    ensures Confirmed(s, c, e).1 == Applied ==> TakesEffect(s, c, e)
  {}

  lemma PerformKeepsProposals(s: Store, action: Action, args: Args, now: int)
    ensures Perform(s, action, args, now).Ok? ==> Perform(s, action, args, now).value.proposals == s.proposals
  {}

  /** The service on one session: changes become durable only by a commit, and a rollback drops them. */
  class AgentControlService {
    var durable: Store
    var session: Store

    constructor (s: Store)
      ensures durable == session == s
    {
      durable, session := s, s;
    }

    method CreateProposal(id: string, workspace: string, version: string, action: Action, args: Args, e: Env)
      returns (r: Result<Preview, Code>)
      requires session == durable
      modifies this
      ensures session == durable
      ensures match Proposed(old(durable), id, workspace, version, action, args, e)
        case Ok(after) => durable == after && r == Prepare(old(durable), action, args, e.validCron)
        case Err(code) => durable == old(durable) && r == Err(code)
    {
      if !e.member || !e.permitted {
        return Err(403);
      }
      r := Prepare(session, action, args, e.validCron);
      if r.Err? {
        return;
      }
      var p := Proposal(workspace, version, action, r.value.args, r.value.target, Open);
      session := session.(proposals := session.proposals[id := p]);
      durable := session;
    }

    method ExecuteConfirmed(c: Confirmation, e: Env) returns (reply: Reply)
      requires session == durable
      modifies this
      ensures session == durable
      ensures (durable, reply) == Confirmed(old(durable), c, e)
    {
      if !e.member {
        return Refused(403);
      }
      if c.id !in session.proposals || session.proposals[c.id].workspace != c.workspace {
        return Refused(404);
      }
      var p := session.proposals[c.id];
      if p.status != Open || p.version != c.version || (c.expected.Some? && c.expected.value != p.action) {
        return Refused(409);
      }
      if !e.permitted {
        return Refused(403);
      }
      var preview := Prepare(session, p.action, p.args, e.validCron);
      if preview.Err? {
        return Refused(preview.error);
      }
      if preview.value.target != p.target {
        return Refused(409);
      }
      session := WithStatus(session, c.id, InProgress);
      var done := Perform(session, p.action, preview.value.args, e.now);
      PerformKeepsProposals(session, p.action, preview.value.args, e.now);
      if done.Err? || e.fault == Raises {
        session := durable;
        return Refused(if done.Err? then done.error else 500);
      }
      session := done.value;
      if p.action == TriggerTask {
        durable := session;
        if e.fault == DispatchFails {
          return Refused(502);
        }
      }
      if e.fault == Crashes {
        session := durable;
        return Lost;
      }
      session := WithStatus(session, c.id, Resolved);
      durable := session;
      return Applied;
    }
  }

  // ---------------------------------------------------------------------------
  // Runs: proposals, confirmations and outside edits in any order
  // ---------------------------------------------------------------------------

  /**
   Edits may replace or delete any target. Close and Reopen are the operations inbox, which
   can resolve a proposal or set it back to open.
   */
  datatype Event =
    | Propose(id: string, workspace: string, version: string, action: Action, args: Args, env: Env)
    | Confirm(confirmation: Confirmation, env: Env)
    | Edit(sources: map<string, Source>, schedules: map<string, Schedule>, providers: map<string, Provider>)
    | Close(id: string)
    | Reopen(id: string)

  /** An effect that became durable: whose, what, with which arguments, at which version of the target. */
  datatype Entry = Entry(id: string, action: Action, args: Args, target: Option<Version>)

  datatype State = State(store: Store, log: seq<Entry>)

  predicate Enabled(s: State, e: Event) {
    match e
    case Propose(id, _, _, _, _, _) => id !in s.store.proposals
    case Close(id) => id in s.store.proposals
    case Reopen(id) => id in s.store.proposals
    case _ => true
  }

  function EntryOf(s: Store, c: Confirmation): Entry
    requires c.id in s.proposals
  {
    var p := s.proposals[c.id];
    Entry(c.id, p.action, Normalised(p.action, p.args), CurrentVersion(s, p.action, p.args))
  }

  function Step(s: State, e: Event): State
    requires Enabled(s, e)
  {
    match e
    case Propose(id, workspace, version, action, args, env) =>
      var proposed := Proposed(s.store, id, workspace, version, action, args, env);
      if proposed.Ok? then s.(store := proposed.value) else s
    case Confirm(c, env) =>
      State(Confirmed(s.store, c, env).0, if TakesEffect(s.store, c, env) then s.log + [EntryOf(s.store, c)] else s.log)
    case Edit(sources, schedules, providers) =>
      s.(store := s.store.(sources := sources, schedules := schedules, providers := providers))
    case Close(id) => s.(store := WithStatus(s.store, id, Resolved))
    case Reopen(id) => s.(store := WithStatus(s.store, id, Open))
  }

  ghost predicate IsRun(s: State, run: seq<Event>)
    decreases |run|
  {
    run == [] || (Enabled(s, run[0]) && IsRun(Step(s, run[0]), run[1..]))
  }

  ghost function After(s: State, run: seq<Event>): State
    requires IsRun(s, run)
    decreases |run|
  {
    if run == [] then s else After(Step(s, run[0]), run[1..])
  }

  function Effects(log: seq<Entry>, id: string): nat {
    if log == [] then 0 else Effects(log[..|log| - 1], id) + if log[|log| - 1].id == id then 1 else 0
  }

  function Reopenings(run: seq<Event>, id: string): nat {
    if run == [] then 0 else (if run[0] == Reopen(id) then 1 else 0) + Reopenings(run[1..], id)
  }

  /** Effects a proposal has had, and one more if it is still open to have it. */
  function Spent(s: State, id: string): nat {
    Effects(s.log, id) + if id !in s.store.proposals || s.store.proposals[id].status == Open then 1 else 0
  }

  /** Every effect is of a recorded proposal, with its previewed arguments, at its recorded version. */
  ghost predicate EntryFits(store: Store, entry: Entry) {
    && entry.id in store.proposals
    && entry.action == store.proposals[entry.id].action
    && entry.args == store.proposals[entry.id].args
    && entry.target == Some(store.proposals[entry.id].target)
  }

  ghost predicate Sound(s: State) {
    && (forall id <- s.store.proposals ::
          Normalised(s.store.proposals[id].action, s.store.proposals[id].args) == s.store.proposals[id].args)
    && (forall entry <- s.log :: EntryFits(s.store, entry))
  }

  /** A proposal's recorded content never changes, only its status. */
  ghost predicate SameContent(s: Store, t: Store) {
    forall id <- s.proposals :: id in t.proposals
      && t.proposals[id].(status := s.proposals[id].status) == s.proposals[id]
  }

  lemma ConfirmedProposals(s: Store, c: Confirmation, e: Env)
    ensures SameContent(s, Confirmed(s, c, e).0) && Confirmed(s, c, e).0.proposals.Keys == s.proposals.Keys
    ensures forall id <- s.proposals :: id != c.id ==> Confirmed(s, c, e).0.proposals[id] == s.proposals[id]
  {
    if TakesEffect(s, c, e) {
      PerformKeepsProposals(WithStatus(s, c.id, InProgress), s.proposals[c.id].action,
                            Normalised(s.proposals[c.id].action, s.proposals[c.id].args), e.now);
    } else {
      AllOrNothing(s, c, e);
    }
  }

  lemma StepContent(s: State, e: Event)
    requires Enabled(s, e)
    ensures SameContent(s.store, Step(s, e).store)
  {
    if e.Confirm? {
      ConfirmedProposals(s.store, e.confirmation, e.env);
    }
  }

  lemma ConfirmSound(s: State, c: Confirmation, env: Env)
    requires Sound(s) && TakesEffect(s.store, c, env)
    ensures EntryFits(s.store, EntryOf(s.store, c))
  {}

  lemma ProposeSound(s: State, e: Event)
    requires Sound(s) && Enabled(s, e) && e.Propose?
    ensures Sound(Step(s, e))
  {
    NormalisedTwice(e.action, e.args);
  }

  lemma StepSound(s: State, e: Event)
    requires Sound(s) && Enabled(s, e)
    ensures Sound(Step(s, e))
  {
    StepContent(s, e);
    var t := Step(s, e);
    match e
    case Propose(_, _, _, _, _, _) => ProposeSound(s, e);
    case Confirm(c, env) =>
      ConfirmedProposals(s.store, c, env);
      if TakesEffect(s.store, c, env) {
        ConfirmSound(s, c, env);
      }
      forall entry | entry in t.log
        ensures EntryFits(t.store, entry)
      {
        assert EntryFits(s.store, entry);
      }
    case _ =>
  }

  lemma StepSpends(s: State, e: Event, id: string)
    requires Enabled(s, e)
    ensures Spent(Step(s, e), id) <= Spent(s, id) + if e == Reopen(id) then 1 else 0
  {
    if e.Confirm? {
      var c := e.confirmation;
      AllOrNothing(s.store, c, e.env);
      ConfirmedProposals(s.store, c, e.env);
      if TakesEffect(s.store, c, e.env) {
        assert Step(s, e).log[..|s.log|] == s.log;
      }
    }
  }

  lemma {:induction false} RunSpends(s: State, run: seq<Event>, id: string)
    requires IsRun(s, run)
    ensures Spent(After(s, run), id) <= Spent(s, id) + Reopenings(run, id)
    decreases |run|
  {
    if run != [] {
      StepSpends(s, run[0], id);
      RunSpends(Step(s, run[0]), run[1..], id);
    }
  }

  lemma {:induction false} RunSound(s: State, run: seq<Event>)
    requires Sound(s) && IsRun(s, run)
    ensures Sound(After(s, run)) && SameContent(s.store, After(s, run).store)
    decreases |run|
  {
    if run != [] {
      StepSound(s, run[0]);
      StepContent(s, run[0]);
      RunSound(Step(s, run[0]), run[1..]);
    }
  }

  /**
   Over every mix of proposals, confirmations, faults and outside edits, from a store without
   proposals: each proposal takes effect at most once, plus once for every time the
   operations inbox reopened it; every effect uses the previewed arguments and happened while
   the target had the recorded version.
   */
  lemma EffectsAtMostOnce(store: Store, run: seq<Event>, id: string)
    requires store.proposals == map[] && IsRun(State(store, []), run)
    ensures var s := After(State(store, []), run);
      && Effects(s.log, id) <= 1 + Reopenings(run, id)
      && forall entry <- s.log :: EntryFits(s.store, entry)
  {
    RunSound(State(store, []), run);
    RunSpends(State(store, []), run, id);
  }

  /** A proposal that is no longer open has no further effect unless it is reopened. */
  lemma ClosedStaysClosed(s: State, run: seq<Event>, id: string)
    requires IsRun(s, run) && id in s.store.proposals && s.store.proposals[id].status != Open
      && Reopenings(run, id) == 0
    ensures Effects(After(s, run).log, id) == Effects(s.log, id)
  {
    RunSpends(s, run, id);
    LogGrows(s, run, id);
  }

  lemma {:induction false} LogGrows(s: State, run: seq<Event>, id: string)
    requires IsRun(s, run)
    ensures Effects(s.log, id) <= Effects(After(s, run).log, id)
    decreases |run|
  {
    if run != [] {
      assert Step(s, run[0]).log[..|s.log|] == s.log;
      LogGrows(Step(s, run[0]), run[1..], id);
    }
  }

  // ---------------------------------------------------------------------------
  // When a proposal takes effect, and when it does so again
  // ---------------------------------------------------------------------------

  /** What a confirmation needs besides an open proposal whose target is as recorded. */
  predicate Acceptable(p: Proposal, c: Confirmation, e: Env) {
    && e.member && e.permitted
    && p.workspace == c.workspace && p.version == c.version && (c.expected.Some? ==> c.expected.value == p.action)
    && (p.action == UpdateSchedule ==>
          && (Get(p.args, "cron_expression") != Null ==> e.validCron(Text(Get(p.args, "cron_expression"))))
          && ChangesSomething(p.args, "cron_expression"))
    && (p.action == UpdateProvider ==> ChangesSomething(p.args, "default_model"))
    && (p.action == TriggerTask ==> p.target.SourceVersion? && p.target.source.enabled)
    && e.fault != Raises && (e.fault == Crashes ==> p.action == TriggerTask)
  }

  /** A confirmation takes effect if and only if it is acceptable, the proposal open and its target as recorded. */
  lemma TakesEffectIff(s: Store, c: Confirmation, e: Env)
    ensures TakesEffect(s, c, e) <==>
      && c.id in s.proposals && s.proposals[c.id].status == Open
      && Acceptable(s.proposals[c.id], c, e)
      && CurrentVersion(s, s.proposals[c.id].action, s.proposals[c.id].args) == Some(s.proposals[c.id].target)
  {
    if c.id in s.proposals {
      NormalisedTwice(s.proposals[c.id].action, s.proposals[c.id].args);
    }
  }

  /** The effect leaves the target's row alone: a task, or an update to the values that it already has. */
  predicate LeavesVersion(p: Proposal) {
    match p.action
    case TriggerTask => true
    case ToggleSource => p.target.SourceVersion? && p.target.source.enabled == Truthy(Get(p.args, "enabled"))
    case UpdateSchedule =>
      && p.target.ScheduleVersion?
      && ("cron_expression" in p.args ==> p.target.schedule.cron == Text(p.args["cron_expression"]))
      && ("enabled" in p.args ==> p.target.schedule.enabled == Truthy(p.args["enabled"]))
    case UpdateProvider =>
      && p.target.ProviderVersion?
      && ("default_model" in p.args ==> p.target.provider.model == Some(Text(p.args["default_model"])))
      && ("enabled" in p.args ==> p.target.provider.enabled == Truthy(p.args["enabled"]))
  }

  lemma VersionKeptIff(s: Store, c: Confirmation, e: Env)
    requires TakesEffect(s, c, e)
    requires Normalised(s.proposals[c.id].action, s.proposals[c.id].args) == s.proposals[c.id].args
    ensures var p := s.proposals[c.id];
      CurrentVersion(Confirmed(s, c, e).0, p.action, p.args) == Some(p.target) <==> LeavesVersion(p)
  {
    TakesEffectIff(s, c, e);
  }

  /**
   Reopened after its effect, a proposal takes effect again if and only if that effect left
   the recorded version of its target and the new confirmation is acceptable. So a reopened
   task is created again, and an update that changed something is not repeated.
   */
  lemma ReopenedTakesEffectIff(s: Store, c: Confirmation, e: Env, again: Env)
    requires TakesEffect(s, c, e)
    requires Normalised(s.proposals[c.id].action, s.proposals[c.id].args) == s.proposals[c.id].args
    ensures c.id in Confirmed(s, c, e).0.proposals
    ensures TakesEffect(WithStatus(Confirmed(s, c, e).0, c.id, Open), c, again)
       <==> LeavesVersion(s.proposals[c.id]) && Acceptable(s.proposals[c.id], c, again)
  {
    hide TakesEffect, Confirmed, Acceptable, LeavesVersion;
    ConfirmedProposals(s, c, e);
    AllOrNothing(s, c, e);
    VersionKeptIff(s, c, e);
    var reopened := WithStatus(Confirmed(s, c, e).0, c.id, Open);
    TakesEffectIff(s, c, e);
    TakesEffectIff(reopened, c, again);
    assert reopened.proposals[c.id] == s.proposals[c.id];
  }

  /** In particular a task whose proposal is reopened, say after a failed dispatch, is created a second time. */
  lemma ReopeningRepeats(s: Store, c: Confirmation, e: Env, again: Env)
    requires TakesEffect(s, c, e) && s.proposals[c.id].action == TriggerTask
    requires Acceptable(s.proposals[c.id], c, again)
    ensures c.id in Confirmed(s, c, e).0.proposals
    ensures |Confirmed(WithStatus(Confirmed(s, c, e).0, c.id, Open), c, again).0.tasks| == |s.tasks| + 2
  {
    TakesEffectIff(s, c, e);
    TakesEffectIff(WithStatus(Confirmed(s, c, e).0, c.id, Open), c, again);
  }

  // ---------------------------------------------------------------------------
  // Only the target changes
  // ---------------------------------------------------------------------------

  /** Apart from proposals, the two stores agree on everything but possibly this target. */
  ghost predicate OnlyChanges(s: Store, t: Store, target: Version) {
    match target
    case SourceVersion(id, _) =>
      t.schedules == s.schedules && t.providers == s.providers && t.sources - {id} == s.sources - {id}
    case ScheduleVersion(id, _) =>
      t.sources == s.sources && t.providers == s.providers && t.tasks == s.tasks
        && t.schedules - {id} == s.schedules - {id}
    case ProviderVersion(id, _) =>
      t.sources == s.sources && t.schedules == s.schedules && t.tasks == s.tasks
        && t.providers - {id} == s.providers - {id}
  }

  /** The target is as the preview announced: the named fields have the given values, the others are kept. */
  ghost predicate AsAnnounced(s: Store, t: Store, p: Proposal) {
    match p.action
    case ToggleSource =>
      && p.target.SourceVersion? && p.target.id in t.sources
      && t.sources[p.target.id].enabled == Truthy(Get(p.args, "enabled")) && t.tasks == s.tasks
    case TriggerTask =>
      p.target.SourceVersion? && p.target.source.enabled && t.tasks == s.tasks + [p.target.id] && t.sources == s.sources
    case UpdateSchedule =>
      && p.target.ScheduleVersion? && p.target.id in t.schedules
      && t.schedules[p.target.id].cron ==
        (if "cron_expression" in p.args then Text(p.args["cron_expression"]) else p.target.schedule.cron)
      && t.schedules[p.target.id].enabled ==
        (if "enabled" in p.args then Truthy(p.args["enabled"]) else p.target.schedule.enabled)
    case UpdateProvider =>
      && p.target.ProviderVersion? && p.target.id in t.providers
      && t.providers[p.target.id].model ==
        (if "default_model" in p.args then Some(Text(p.args["default_model"])) else p.target.provider.model)
      && t.providers[p.target.id].enabled ==
        (if "enabled" in p.args then Truthy(p.args["enabled"]) else p.target.provider.enabled)
  }

  /** A confirmation that takes effect does what its recorded proposal announced. */
  lemma EffectIsAsAnnounced(s: Store, c: Confirmation, e: Env)
    requires TakesEffect(s, c, e)
    requires Normalised(s.proposals[c.id].action, s.proposals[c.id].args) == s.proposals[c.id].args
    ensures AsAnnounced(s, Confirmed(s, c, e).0, s.proposals[c.id])
  {}

  lemma OnlyTheTargetChanges(s: Store, c: Confirmation, e: Env)
    requires TakesEffect(s, c, e)
    ensures OnlyChanges(s, Confirmed(s, c, e).0, s.proposals[c.id].target)
  {
    var p := s.proposals[c.id];
    NormalisedTwice(p.action, p.args);
    assert Prepare(s, p.action, p.args, e.validCron).Ok?;
    assert CurrentVersion(s, p.action, p.args) == Some(p.target);
    assert CurrentVersion(s, p.action, Normalised(p.action, p.args)) == Some(p.target);
  }

  // ---------------------------------------------------------------------------
  // What was asked is what happens
  // ---------------------------------------------------------------------------

  /** The string an argument stands for, and the empty one without it. */
  function AskedId(args: Args, key: string): string {
    if key in args then Text(args[key]) else ""
  }

  /** The field is given: present and not null. */
  predicate Asked(args: Args, key: string) {
    key in args && args[key] != Null
  }

  /** The recorded arguments have a text, or a truth value, under the key exactly if one was asked for: that one. */
  predicate CarriesText(recorded: Args, asked: Args, key: string) {
    && (key in recorded <==> Asked(asked, key))
    && (Asked(asked, key) ==> recorded[key] == Str(Text(asked[key])))
  }

  predicate CarriesTruth(recorded: Args, asked: Args, key: string) {
    && (key in recorded <==> Asked(asked, key))
    && (Asked(asked, key) ==> recorded[key] == Bool(Truthy(asked[key])))
  }

  /** The proposal records the request: its target by id, and of its fields those that were given. */
  predicate Records(p: Proposal, action: Action, asked: Args) {
    && p.action == action
    && match action
       case ToggleSource =>
         var wanted := if "enabled" in asked then Truthy(asked["enabled"]) else false;
         p.args == map["source_id" := Str(AskedId(asked, "source_id")), "enabled" := Bool(wanted)]
       case TriggerTask => p.args == map["source_id" := Str(AskedId(asked, "source_id"))]
       case UpdateSchedule =>
         && p.args.Keys <= {"schedule_id", "cron_expression", "enabled"}
         && "schedule_id" in p.args && p.args["schedule_id"] == Str(AskedId(asked, "schedule_id"))
         && CarriesText(p.args, asked, "cron_expression") && CarriesTruth(p.args, asked, "enabled")
       case UpdateProvider =>
         && p.args.Keys <= {"provider_id", "default_model", "enabled"}
         && "provider_id" in p.args && p.args["provider_id"] == Str(AskedId(asked, "provider_id"))
         && CarriesText(p.args, asked, "default_model") && CarriesTruth(p.args, asked, "enabled")
  }

  /** The version is that of the requested target as the store has it. */
  predicate NamesTarget(s: Store, v: Version, action: Action, asked: Args) {
    match v
    case SourceVersion(id, row) =>
      && (action == ToggleSource || action == TriggerTask)
      && id == AskedId(asked, "source_id") && id in s.sources && s.sources[id] == row
    case ScheduleVersion(id, row) =>
      action == UpdateSchedule && id == AskedId(asked, "schedule_id") && id in s.schedules && s.schedules[id] == row
    case ProviderVersion(id, row) =>
      action == UpdateProvider && id == AskedId(asked, "provider_id") && id in s.providers && s.providers[id] == row
  }

  /** The targets that an action may have. */
  predicate HasTarget(s: Store, action: Action, asked: Args) {
    match action
    case UpdateSchedule => AskedId(asked, "schedule_id") in s.schedules
    case UpdateProvider => AskedId(asked, "provider_id") in s.providers
    case _ => AskedId(asked, "source_id") in s.sources
  }

  /** An update gives something, and a cron expression only if it is valid. */
  predicate AsksSomething(action: Action, asked: Args, validCron: string -> bool) {
    && (action == UpdateSchedule ==> Asked(asked, "cron_expression") || Asked(asked, "enabled"))
    && (action == UpdateProvider ==> Asked(asked, "default_model") || Asked(asked, "enabled"))
    && (action == UpdateSchedule && Asked(asked, "cron_expression") ==> validCron(Text(asked["cron_expression"])))
  }

  /**
   A request is accepted if and only if caller and content are in order and its target exists,
   and then the one new proposal is open and records the request and its target's version.
   */
  lemma RecordedAsAsked(
    s: Store, id: string, workspace: string, version: string, action: Action, asked: Args, e: Env
  )
    ensures var r := Proposed(s, id, workspace, version, action, asked, e);
      && (r.Ok? <==>
            e.member && e.permitted && HasTarget(s, action, asked) && AsksSomething(action, asked, e.validCron))
      && (r.Ok? ==>
            && id in r.value.proposals
            && var p := r.value.proposals[id];
            && Records(p, action, asked) && NamesTarget(s, p.target, action, asked)
            && p.workspace == workspace && p.version == version && p.status == Open
            && r.value == s.(proposals := s.proposals[id := p]))
  {
    NormalIsAsAsked(action, asked, Normalised(action, asked));
    hide Normalised, Records;
  }

  lemma NormalIsAsAsked(action: Action, asked: Args, recorded: Args)
    requires recorded == Normalised(action, asked)
    ensures forall p: Proposal :: p.action == action && p.args == recorded ==> Records(p, action, asked)
  {}

  /** What the request makes of a row: each field that was given has the value asked for, the others stay. */
  function AskedSchedule(row: Schedule, asked: Args): Schedule {
    row.(cron := if Asked(asked, "cron_expression") then Text(asked["cron_expression"]) else row.cron,
         enabled := if Asked(asked, "enabled") then Truthy(asked["enabled"]) else row.enabled)
  }

  function AskedProvider(row: Provider, asked: Args): Provider {
    row.(model := if Asked(asked, "default_model") then Some(Text(asked["default_model"])) else row.model,
         enabled := if Asked(asked, "enabled") then Truthy(asked["enabled"]) else row.enabled)
  }

  function AskedSource(row: Source, asked: Args): Source {
    row.(enabled := "enabled" in asked && Truthy(asked["enabled"]))
  }

  /** The row holds what was asked; its time is `now` if that changed anything. */
  predicate HoldsAsked(s: Store, t: Store, action: Action, asked: Args, now: int) {
    match action
    case ToggleSource =>
      var id := AskedId(asked, "source_id");
      && id in s.sources && id in t.sources
      && var wanted := AskedSource(s.sources[id], asked);
      && t.sources[id] == if wanted == s.sources[id] then wanted else wanted.(updatedAt := now)
    case TriggerTask => t.tasks == s.tasks + [AskedId(asked, "source_id")]
    case UpdateSchedule =>
      var id := AskedId(asked, "schedule_id");
      && id in s.schedules && id in t.schedules
      && var wanted := AskedSchedule(s.schedules[id], asked);
      && t.schedules[id] == if wanted == s.schedules[id] then wanted else wanted.(updatedAt := now)
    case UpdateProvider =>
      var id := AskedId(asked, "provider_id");
      && id in s.providers && id in t.providers
      && var wanted := AskedProvider(s.providers[id], asked);
      && t.providers[id] == if wanted == s.providers[id] then wanted else wanted.(updatedAt := now)
  }

  /**
   From request to effect: whenever a confirmation of a proposal that records the request takes
   effect, the target holds what the request asked for.
   */
  lemma ConfirmedAsAsked(s: Store, c: Confirmation, e: Env, action: Action, asked: Args)
    requires TakesEffect(s, c, e) && Records(s.proposals[c.id], action, asked)
    ensures HoldsAsked(s, Confirmed(s, c, e).0, action, asked, e.now)
  {
    var p := s.proposals[c.id];
    var begun := WithStatus(s, c.id, InProgress);
    PerformHolds(begun, p, asked, e.now);
    var done := Perform(begun, p.action, Normalised(p.action, p.args), e.now).value;
    hide Perform, Normalised, HoldsAsked;
    SameRows(s, begun, done, Confirmed(s, c, e).0, action, asked, e.now);
  }

  lemma PerformHolds(s: Store, p: Proposal, asked: Args, now: int)
    requires Records(p, p.action, asked) && Perform(s, p.action, Normalised(p.action, p.args), now).Ok?
    ensures HoldsAsked(s, Perform(s, p.action, Normalised(p.action, p.args), now).value, p.action, asked, now)
  {
    RecordedIsNormal(p, asked);
    hide Normalised;
    match p.action
    case ToggleSource => SourceHolds(s, p, asked, now);
    case TriggerTask => SourceHolds(s, p, asked, now);
    case UpdateSchedule => ScheduleHolds(s, p, asked, now);
    case UpdateProvider => ProviderHolds(s, p, asked, now);
  }

  lemma RecordedIsNormal(p: Proposal, asked: Args)
    requires Records(p, p.action, asked)
    ensures Normalised(p.action, p.args) == p.args
  {}

  lemma SourceHolds(s: Store, p: Proposal, asked: Args, now: int)
    requires Records(p, p.action, asked) && (p.action == ToggleSource || p.action == TriggerTask)
    requires Perform(s, p.action, p.args, now).Ok?
    ensures HoldsAsked(s, Perform(s, p.action, p.args, now).value, p.action, asked, now)
  {}

  lemma ScheduleHolds(s: Store, p: Proposal, asked: Args, now: int)
    requires Records(p, p.action, asked) && p.action == UpdateSchedule && Perform(s, p.action, p.args, now).Ok?
    ensures HoldsAsked(s, Perform(s, p.action, p.args, now).value, p.action, asked, now)
  {}

  lemma ProviderHolds(s: Store, p: Proposal, asked: Args, now: int)
    requires Records(p, p.action, asked) && p.action == UpdateProvider && Perform(s, p.action, p.args, now).Ok?
    ensures HoldsAsked(s, Perform(s, p.action, p.args, now).value, p.action, asked, now)
  {}

  /** Only rows and tasks matter. */
  lemma SameRows(s: Store, s': Store, t: Store, t': Store, action: Action, asked: Args, now: int)
    requires s' == s.(proposals := s'.proposals) && t' == t.(proposals := t'.proposals)
    requires HoldsAsked(s', t, action, asked, now)
    ensures HoldsAsked(s, t', action, asked, now)
  {}

  // ---------------------------------------------------------------------------
  // What is answered
  // ---------------------------------------------------------------------------

  /** The confirmation names this proposal, open and at its version, and the action it expects. */
  predicate Actionable(p: Proposal, c: Confirmation) {
    && p.status == Open && p.version == c.version
    && (c.expected.Some? ==> c.expected.value == p.action)
  }

  /** Why a request for this target is turned down: it does not exist, or asks for nothing or a bad expression. */
  function RequestCode(s: Store, action: Action, asked: Args, e: Env): Option<Code> {
    if !HasTarget(s, action, asked) then Some(404)
    else if !AsksSomething(action, asked, e.validCron) then Some(400)
    else None
  }

  lemma ProposalIsRefusedWith(
    s: Store, id: string, workspace: string, version: string, action: Action, asked: Args, e: Env
  )
    ensures var r := Proposed(s, id, workspace, version, action, asked, e);
      && (!e.member || !e.permitted ==> r == Err(403))
      && (e.member && e.permitted && RequestCode(s, action, asked, e).Some? ==>
            r == Err(RequestCode(s, action, asked, e).value))
  {}

  function RefusalCode(s: Store, p: Proposal, c: Confirmation, e: Env): Option<Code> {
    if !Actionable(p, c) then Some(409)
    else if !e.permitted then Some(403)
    else if RequestCode(s, p.action, p.args, e).Some? then RequestCode(s, p.action, p.args, e)
    else if !NamesTarget(s, p.target, p.action, p.args) then Some(409)
    else None
  }

  /**
   A confirmation is refused without a trace, with this code: not a member, no such proposal in
   the workspace, not actionable, not permitted, no valid request any more, target changed since.
   */
  lemma ConfirmationIsRefusedWith(s: Store, c: Confirmation, e: Env)
    ensures var known := c.id in s.proposals && s.proposals[c.id].workspace == c.workspace;
      var code := if !e.member then Some(403)
        else if !known then Some(404)
        else RefusalCode(s, s.proposals[c.id], c, e);
      && Refusal(s, c, e) == code
      && (code.Some? ==> Confirmed(s, c, e) == (s, Refused(code.value)))
  {}

  /**
   A confirmation that is not refused: a task of a disabled source is (400), an exception undoes
   everything, a crash before the commit does too, and otherwise the effect stays. A task is
   committed before it is dispatched, so it also stays when that fails or the process dies,
   with its proposal in progress; in all other cases the proposal is resolved.
   */
  lemma ConfirmationEndsWith(s: Store, c: Confirmation, e: Env)
    requires Refusal(s, c, e).None?
    ensures var p := s.proposals[c.id];
      var task := p.action == TriggerTask;
      var disabled := task && p.target.SourceVersion? && !p.target.source.enabled;
      var after, reply := Confirmed(s, c, e).0, Confirmed(s, c, e).1;
      && reply == (if disabled then Refused(400)
                   else if e.fault == Raises then Refused(500)
                   else if e.fault == Crashes then Lost
                   else if task && e.fault == DispatchFails then Refused(502)
                   else Applied)
      && (after == s <==> disabled || e.fault == Raises || (e.fault == Crashes && !task))
      && (after != s ==>
            && c.id in after.proposals
            && after.proposals[c.id].status == if reply == Applied then Resolved else InProgress)
  {
    NormalisedTwice(s.proposals[c.id].action, s.proposals[c.id].args);
  }

  /** The inbox opens or closes a proposal and an edit sets the rows; neither touches anything else. */
  lemma OutsideEvents(s: State, e: Event)
    requires Enabled(s, e) && (e.Reopen? || e.Close? || e.Edit?)
    ensures Step(s, e).log == s.log && Step(s, e).store.tasks == s.store.tasks
    ensures e.Edit? ==>
      Step(s, e).store == Store(e.sources, e.schedules, e.providers, s.store.tasks, s.store.proposals)
    ensures !e.Edit? ==>
      var status := if e.Reopen? then Open else Resolved;
      Step(s, e).store.proposals == s.store.proposals[e.id := s.store.proposals[e.id].(status := status)]
  {}
}
