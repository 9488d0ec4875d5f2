/**
 The centre's side of the reverse channel to edge agents (backend/ws_agent_manager.py): four
 tables of connections, futures and callbacks. A call is remembered with the state of its
 future; a call ends (its `finally` runs) after its future is settled, or when sending failed.
 */
module ReverseChannel {
  import opened Common

  type Message = string

  datatype Answer = Delivered(message: Message) | AgentDisconnected(agent: string)

  datatype Future = Waiting | Resolved(answer: Answer) | Abandoned

  datatype Kind = Collect | AgentTask

  /** socket is the connection the request was sent on. */
  datatype Call = Call(
    kind: Kind, id: string, agent: string, socket: int, future: Future, live: bool, events: seq<Message>
  )

  /** pending and tasks map a request id to the position of its call; callbacks to the owning agent. */
  datatype State = State(
    connections: map<string, int>, pending: map<string, nat>, tasks: map<string, nat>,
    callbacks: map<string, string>, calls: seq<Call>
  )

  const EMPTY := State(map[], map[], map[], map[], [])

  datatype Action =
    | Register(agent: string, socket: int)
    | Unregister(agent: string)
    | StartCollect(agent: string, id: string)
    | StartTask(agent: string, id: string)
    | Result(id: string, message: Message)
    | TaskResult(id: string, message: Message)
    | TaskEvent(id: string, message: Message)
    | GiveUp(k: nat)
    | End(k: nat)

  predicate Enabled(s: State, a: Action) {
    match a
    case StartCollect(agent, _) => agent in s.connections
    case StartTask(agent, _) => agent in s.connections
    case GiveUp(k) => k < |s.calls| && s.calls[k].live && s.calls[k].future == Waiting
    case End(k) => k < |s.calls| && s.calls[k].live
    case _ => true
  }

  /** fut.set_result, unless the future is missing or done. */
  function Settle(calls: seq<Call>, table: map<string, nat>, id: string, answer: Answer): seq<Call> {
    if id in table && table[id] < |calls| && calls[table[id]].future == Waiting
    then calls[table[id] := calls[table[id]].(future := Resolved(answer))] else calls
  }

  /** The agent's task futures, all settled. */
  function SettledFor(s: State, agent: string, n: nat): seq<Call>
    requires n <= |s.calls|
  {
    if n == 0 then []
    else
      var c := s.calls[n - 1];
      var hit := c.id in s.callbacks && s.callbacks[c.id] == agent && c.id in s.tasks && s.tasks[c.id] == n - 1
        && c.future == Waiting;
      SettledFor(s, agent, n - 1) + [if hit then c.(future := Resolved(AgentDisconnected(agent))) else c]
  }

  function OwnedBy(callbacks: map<string, string>, agent: string): set<string> {
    set id | id in callbacks && callbacks[id] == agent
  }

  function Unregistered(s: State, agent: string): State {
    s.(connections := s.connections - {agent}, callbacks := s.callbacks - OwnedBy(s.callbacks, agent),
       calls := SettledFor(s, agent, |s.calls|))
  }

  function Ended(s: State, k: nat): State
    requires k < |s.calls|
  {
    var c := s.calls[k];
    var calls := s.calls[k := c.(live := false, future := if c.future == Waiting then Abandoned else c.future)];
    if c.kind == Collect then s.(pending := s.pending - {c.id}, calls := calls)
    else s.(tasks := s.tasks - {c.id}, callbacks := s.callbacks - {c.id}, calls := calls)
  }

  function Opened(s: State, kind: Kind, agent: string, id: string): Call
    requires agent in s.connections
  {
    Call(kind, id, agent, s.connections[agent], Waiting, true, [])
  }

  function Step(s: State, a: Action): State
    requires Enabled(s, a)
  {
    match a
    case Register(agent, socket) => s.(connections := s.connections[agent := socket])
    case Unregister(agent) => Unregistered(s, agent)
    case StartCollect(agent, id) =>
      s.(pending := s.pending[id := |s.calls|], calls := s.calls + [Opened(s, Collect, agent, id)])
    case StartTask(agent, id) =>
      s.(tasks := s.tasks[id := |s.calls|], callbacks := s.callbacks[id := agent],
         calls := s.calls + [Opened(s, AgentTask, agent, id)])
    case Result(id, message) => s.(calls := Settle(s.calls, s.pending, id, Delivered(message)))
    case TaskResult(id, message) => s.(calls := Settle(s.calls, s.tasks, id, Delivered(message)))
    case TaskEvent(id, message) =>
      if id in s.callbacks && id in s.tasks && s.tasks[id] < |s.calls|
      then
        var c := s.calls[s.tasks[id]];
        s.(calls := s.calls[s.tasks[id] := c.(events := c.events + [message])])
      else s
    case GiveUp(k) => s.(calls := s.calls[k := s.calls[k].(future := Abandoned)])
    case End(k) => Ended(s, k)
  }

  /** A call in progress of this kind and id. */
  predicate InProgress(c: Call, kind: Kind, id: string) {
    c.live && c.kind == kind && c.id == id
  }

  function KindBegun(a: Action): Kind
    requires a.StartCollect? || a.StartTask?
  {
    if a.StartCollect? then Collect else AgentTask
  }

  /** A request id is not reused while a call of its kind has it. */
  ghost predicate IsFresh(s: State, a: Action) {
    && (a.StartCollect? ==> forall c <- s.calls :: !InProgress(c, Collect, a.id))
    && (a.StartTask? ==> forall c <- s.calls :: !InProgress(c, AgentTask, a.id))
  }

  ghost predicate IsRun(s: State, run: seq<Action>)
    decreases |run|
  {
    run == [] || (Enabled(s, run[0]) && IsFresh(s, run[0]) && IsRun(Step(s, run[0]), run[1..]))
  }

  ghost function After(s: State, run: seq<Action>): State
    requires IsRun(s, run)
    decreases |run|
  {
    if run == [] then s else After(Step(s, run[0]), run[1..])
  }

  // ---------------------------------------------------------------------------
  // The tables always describe exactly the calls in progress
  // ---------------------------------------------------------------------------

  ghost predicate Points(calls: seq<Call>, table: map<string, nat>, kind: Kind) {
    && (forall id <- table :: table[id] < |calls| && calls[table[id]].id == id
          && calls[table[id]].kind == kind && calls[table[id]].live)
    && (forall k :: 0 <= k < |calls| && calls[k].kind == kind && calls[k].live ==>
          calls[k].id in table && table[calls[k].id] == k)
  }

  predicate WaitingTask(c: Call) {
    c.kind == AgentTask && c.live && c.future == Waiting
  }

  /** A waiting agent task is owned by a connected agent, and its callback is registered. */
  ghost predicate Owned(s: State, k: nat)
    requires k < |s.calls|
  {
    var c := s.calls[k];
    WaitingTask(c) ==> c.agent in s.connections && c.id in s.callbacks
  }

  ghost predicate CallbacksPoint(s: State) {
    forall id <- s.callbacks :: id in s.tasks && s.tasks[id] < |s.calls|
      && s.calls[s.tasks[id]].agent == s.callbacks[id]
  }

  ghost predicate Inv(s: State) {
    && Points(s.calls, s.pending, Collect)
    && Points(s.calls, s.tasks, AgentTask)
    && CallbacksPoint(s)
    && (forall k :: 0 <= k < |s.calls| ==> Owned(s, k))
    && (forall k :: 0 <= k < |s.calls| && !s.calls[k].live ==> s.calls[k].future != Waiting)
  }

  lemma {:induction false} SettledForAt(s: State, agent: string, n: nat)
    requires n <= |s.calls|
    ensures |SettledFor(s, agent, n)| == n
    ensures forall k :: 0 <= k < n ==> var c := s.calls[k];
      SettledFor(s, agent, n)[k] ==
        if c.id in s.callbacks && s.callbacks[c.id] == agent && c.id in s.tasks && s.tasks[c.id] == k
          && c.future == Waiting
        then c.(future := Resolved(AgentDisconnected(agent))) else c
  {
    if n > 0 {
      SettledForAt(s, agent, n - 1);
    }
  }

  /** The two lists of calls differ at most in futures and events. */
  ghost predicate SameCalls(a: seq<Call>, b: seq<Call>) {
    |a| == |b| && forall k :: 0 <= k < |a| ==> b[k].(future := a[k].future, events := a[k].events) == a[k]
  }

  lemma PointsFrame(a: seq<Call>, b: seq<Call>, table: map<string, nat>, kind: Kind)
    requires Points(a, table, kind) && SameCalls(a, b)
    ensures Points(b, table, kind)
  {}

  lemma PointsExtend(a: seq<Call>, c: Call, table: map<string, nat>, kind: Kind)
    requires Points(a, table, kind) && c.live && (c.kind == kind ==> forall d <- a :: !InProgress(d, kind, c.id))
    ensures Points(a + [c], if c.kind == kind then table[c.id := |a|] else table, kind)
  {
    assert forall k :: 0 <= k < |a| ==> a[k] in a;
  }

  lemma PointsEnd(a: seq<Call>, k: nat, c: Call, table: map<string, nat>, kind: Kind)
    requires Points(a, table, kind) && k < |a| && a[k].live && !c.live && c.id == a[k].id && c.kind == a[k].kind
    ensures Points(a[k := c], if c.kind == kind then table - {c.id} else table, kind)
  {}

  lemma UnregisterSettles(s: State, agent: string, k: nat)
    requires Inv(s) && k < |s.calls|
    ensures |Unregistered(s, agent).calls| == |s.calls| && Owned(Unregistered(s, agent), k)
    ensures var c := Unregistered(s, agent).calls[k];
      !(c.kind == AgentTask && c.live && c.agent == agent && c.future == Waiting)
  {
    SettledForAt(s, agent, |s.calls|);
    assert Owned(s, k);
  }

  lemma UnregisterKeepsInv(s: State, agent: string)
    requires Inv(s)
    ensures Inv(Unregistered(s, agent))
  {
    var t := Unregistered(s, agent);
    SettledForAt(s, agent, |s.calls|);
    PointsFrame(s.calls, t.calls, s.pending, Collect);
    PointsFrame(s.calls, t.calls, s.tasks, AgentTask);
    forall k | 0 <= k < |t.calls|
      ensures Owned(t, k)
    {
      UnregisterSettles(s, agent, k);
    }
  }

  lemma EndKeepsInv(s: State, k: nat)
    requires Inv(s) && k < |s.calls| && s.calls[k].live
    ensures Inv(Ended(s, k))
  {
    var t := Ended(s, k);
    PointsEnd(s.calls, k, t.calls[k], s.pending, Collect);
    PointsEnd(s.calls, k, t.calls[k], s.tasks, AgentTask);
    forall j | 0 <= j < |t.calls|
      ensures Owned(t, j)
    {
      EndKeepsOwned(s, k, j);
    }
  }

  lemma EndKeepsOwned(s: State, k: nat, j: nat)
    requires Inv(s) && k < |s.calls| && s.calls[k].live && j < |s.calls|
    ensures Owned(Ended(s, k), j)
  {
    assert Owned(s, j);
  }

  lemma StartKeepsInv(s: State, a: Action)
    requires Inv(s) && Enabled(s, a) && IsFresh(s, a) && (a.StartCollect? || a.StartTask?)
    ensures Inv(Step(s, a))
  {
    var t := Step(s, a);
    var c := Opened(s, KindBegun(a), a.agent, a.id);
    PointsExtend(s.calls, c, s.pending, Collect);
    PointsExtend(s.calls, c, s.tasks, AgentTask);
    assert forall k :: 0 <= k < |s.calls| ==> t.calls[k] == s.calls[k];
    forall k | 0 <= k < |t.calls|
      ensures Owned(t, k)
    {
      assert k < |s.calls| ==> Owned(s, k);
    }
  }

  lemma AnswersChangeLittle(s: State, a: Action)
    requires Inv(s) && Enabled(s, a) && !a.StartCollect? && !a.StartTask? && !a.Unregister? && !a.End?
    ensures SameCalls(s.calls, Step(s, a).calls)
    ensures forall k :: 0 <= k < |s.calls| && s.calls[k].future != Waiting ==> Step(s, a).calls[k].future != Waiting
  {}

  lemma AnswersKeepInv(s: State, a: Action)
    requires Inv(s) && Enabled(s, a) && !a.StartCollect? && !a.StartTask? && !a.Unregister? && !a.End?
    ensures Inv(Step(s, a))
  {
    var t := Step(s, a);
    AnswersChangeLittle(s, a);
    PointsFrame(s.calls, t.calls, s.pending, Collect);
    PointsFrame(s.calls, t.calls, s.tasks, AgentTask);
    forall k | 0 <= k < |t.calls|
      ensures Owned(t, k)
    {
      assert Owned(s, k);
    }
  }

  lemma StepKeepsInv(s: State, a: Action)
    requires Inv(s) && Enabled(s, a) && IsFresh(s, a)
    ensures Inv(Step(s, a))
  {
    match a
    case Unregister(agent) => UnregisterKeepsInv(s, agent);
    case End(k) => EndKeepsInv(s, k);
    case StartCollect(_, _) => StartKeepsInv(s, a);
    case StartTask(_, _) => StartKeepsInv(s, a);
    case _ => AnswersKeepInv(s, a);
  }

  /**
   Over every interleaving in which no id is reused while a call of its kind has it: each table
   holds exactly the calls in progress of its kind, so no entry outlives its call, and every
   waiting agent task belongs to a connected agent.
   */
  lemma {:induction false} RunKeepsInv(run: seq<Action>, s: State)
    requires Inv(s) && IsRun(s, run)
    ensures Inv(After(s, run))
    decreases |run|
  {
    if run != [] {
      StepKeepsInv(s, run[0]);
      RunKeepsInv(run[1..], Step(s, run[0]));
    }
  }

  lemma EmptyInv()
    ensures Inv(EMPTY)
  {}

  /** When no call is in progress all three request tables are empty. */
  lemma NoEntryOutlivesItsCall(s: State)
    requires Inv(s) && forall k :: 0 <= k < |s.calls| ==> !s.calls[k].live
    ensures s.pending == map[] && s.tasks == map[] && s.callbacks == map[]
  {}

  // ---------------------------------------------------------------------------
  // Futures
  // ---------------------------------------------------------------------------

  /** What may settle a waiting call: an answer under its own id, of its own kind, or its agent leaving. */
  ghost predicate Concerns(a: Action, c: Call) {
    || (a.Result? && c.kind == Collect && a.id == c.id)
    || (a.TaskResult? && c.kind == AgentTask && a.id == c.id)
    || (a.Unregister? && c.kind == AgentTask && a.agent == c.agent)
  }

  /** What one step may do to a call. */
  ghost predicate FairStep(before: Call, after: Call, a: Action) {
    && after.id == before.id && after.kind == before.kind
    && after.agent == before.agent && after.socket == before.socket
    && (before.future != Waiting ==> after.future == before.future)
    && (before.future == Waiting && after.future.Resolved? ==> Concerns(a, before))
    && (after.events == before.events
        || (a.TaskEvent? && a.id == before.id && before.live && after.events == before.events + [a.message]))
  }

  lemma UnregisterIsFair(s: State, agent: string, k: nat)
    requires Inv(s) && k < |s.calls|
    ensures |Unregistered(s, agent).calls| == |s.calls|
      && FairStep(s.calls[k], Unregistered(s, agent).calls[k], Unregister(agent))
  {
    var c := s.calls[k];
    SettledForAt(s, agent, |s.calls|);
    if c.id in s.callbacks && c.id in s.tasks && s.tasks[c.id] == k {
      assert s.callbacks[c.id] == s.calls[s.tasks[c.id]].agent;
    }
  }

  /**
   A future that is settled stays as it is; one that becomes resolved was resolved by its own
   id or by its agent's disconnect, and events reach only the task they are addressed to.
   */
  lemma FutureStep(s: State, a: Action, k: nat)
    requires Inv(s) && Enabled(s, a) && k < |s.calls|
    ensures k < |Step(s, a).calls| && FairStep(s.calls[k], Step(s, a).calls[k], a)
  {
    if a.Unregister? {
      UnregisterIsFair(s, a.agent, k);
    } else if a.StartCollect? || a.StartTask? {
      assert Step(s, a).calls[k] == s.calls[k];
    }
  }

  /** Over every run a future is resolved at most once: its first answer is its only one. */
  lemma {:induction false} ResolvedAtMostOnce(run: seq<Action>, s: State, k: nat)
    requires Inv(s) && IsRun(s, run) && k < |s.calls| && s.calls[k].future != Waiting
    ensures k < |After(s, run).calls| && After(s, run).calls[k].future == s.calls[k].future
    decreases |run|
  {
    if run != [] {
      FutureStep(s, run[0], k);
      StepKeepsInv(s, run[0]);
      ResolvedAtMostOnce(run[1..], Step(s, run[0]), k);
    }
  }

  /** An answer for a waiting call in progress does reach it. */
  lemma AnswerArrives(s: State, k: nat, message: Message)
    requires Inv(s) && k < |s.calls| && s.calls[k].live && s.calls[k].future == Waiting
    ensures Reachable(s, k, message)
  {}

  /** A call that gives up waiting is settled for good: no answer, and no disconnect, resolves it any more. */
  lemma GivenUpStaysSilent(s: State, k: nat, a: Action)
    requires Inv(s) && Enabled(s, GiveUp(k)) && Enabled(Step(s, GiveUp(k)), a)
    ensures Step(s, GiveUp(k)) == s.(calls := s.calls[k := s.calls[k].(future := Abandoned)])
    ensures k < |Step(Step(s, GiveUp(k)), a).calls| && Step(Step(s, GiveUp(k)), a).calls[k].future == Abandoned
  {
    StepKeepsInv(s, GiveUp(k));
    FutureStep(Step(s, GiveUp(k)), a, k);
  }

  /**
   An event reaches its task if and only if the task is in progress and has not been failed by its
   agent's disconnect: its callback is still registered. It reaches no other call.
   */
  lemma EventArrivesIff(s: State, k: nat, message: Message)
    requires Inv(s) && k < |s.calls| && s.calls[k].kind == AgentTask && s.calls[k].live
    ensures var t := Step(s, TaskEvent(s.calls[k].id, message));
      && |t.calls| == |s.calls|
      && (t.calls[k] == s.calls[k].(events := s.calls[k].events + [message]) <==> s.calls[k].id in s.callbacks)
      && (t.calls[k] == s.calls[k] <==> s.calls[k].id !in s.callbacks)
      && (forall j :: 0 <= j < |s.calls| && j != k ==> t.calls[j] == s.calls[j])
      && (s.calls[k].future == Waiting ==> s.calls[k].id in s.callbacks)
  {
    assert Owned(s, k);
    assert |s.calls[k].events + [message]| != |s.calls[k].events|;
  }

  /** After an agent's disconnect none of its tasks is waiting; its collect calls are left to their timeouts. */
  lemma DisconnectLeavesNone(s: State, agent: string)
    requires Inv(s)
    ensures var t := Step(s, Unregister(agent));
      && agent !in t.connections && |t.calls| == |s.calls|
      && (forall k :: 0 <= k < |t.calls| && WaitingTask(t.calls[k]) ==> t.calls[k].agent != agent)
      && (forall k :: 0 <= k < |t.calls| && t.calls[k].kind == Collect ==> t.calls[k] == s.calls[k])
  {
    SettledForAt(s, agent, |s.calls|);
    forall k | 0 <= k < |s.calls|
      ensures var c := Unregistered(s, agent).calls[k];
        !(c.kind == AgentTask && c.live && c.agent == agent && c.future == Waiting)
    {
      UnregisterSettles(s, agent, k);
    }
  }

  /** The call is resolved when the agent answers it now. */
  predicate Reachable(s: State, k: nat, message: Message)
    requires k < |s.calls|
  {
    var id := s.calls[k].id;
    var t := Step(s, if s.calls[k].kind == Collect then Result(id, message) else TaskResult(id, message));
    k < |t.calls| && t.calls[k].future == Resolved(Delivered(message))
  }

  /**
   Freshness is exactly what is needed. A call begun under an id keeps the tables describing the
   calls in progress if and only if no call of its kind in progress has that id.
   */
  lemma StartKeepsInvIff(s: State, a: Action)
    requires Inv(s) && Enabled(s, a) && (a.StartCollect? || a.StartTask?)
    ensures Inv(Step(s, a)) <==> IsFresh(s, a)
  {
    if IsFresh(s, a) {
      StartKeepsInv(s, a);
    } else {
      var kind := KindBegun(a);
      var k :| 0 <= k < |s.calls| && InProgress(s.calls[k], kind, a.id);
      assert Step(s, a).calls[k] == s.calls[k];
    }
  }

  /** In progress and waiting, but no answer reaches it. */
  predicate Stranded(s: State, k: nat, message: Message) {
    k < |s.calls| && s.calls[k].live && s.calls[k].future == Waiting && !Reachable(s, k, message)
  }

  /**
   And it strands another call, that is, leaves one waiting that no answer reaches, if and only
   if a call of its kind is waiting under that id.
   */
  lemma ReuseStrandsIff(s: State, a: Action, message: Message)
    requires Inv(s) && Enabled(s, a) && (a.StartCollect? || a.StartTask?)
    ensures (exists k: nat :: Stranded(Step(s, a), k, message)) <==>
      exists c <- s.calls :: InProgress(c, KindBegun(a), a.id) && c.future == Waiting
  {
    var t := Step(s, a);
    if k: nat :| Stranded(t, k, message) {
      assert k < |s.calls| ==> t.calls[k] == s.calls[k];
      ReachableAfterStart(s, a, k, message);
      assert s.calls[k] in s.calls;
    }
    if c :| c in s.calls && InProgress(c, KindBegun(a), a.id) && c.future == Waiting {
      var k :| 0 <= k < |s.calls| && s.calls[k] == c;
      assert t.calls[k] == c;
      ReachableAfterStart(s, a, k, message);
      assert Stranded(t, k, message);
    }
  }

  lemma ReachableAfterStart(s: State, a: Action, k: nat, message: Message)
    requires Inv(s) && Enabled(s, a) && (a.StartCollect? || a.StartTask?)
    requires k <= |s.calls| && (k < |s.calls| ==> s.calls[k].live && s.calls[k].future == Waiting)
    ensures k < |Step(s, a).calls|
    ensures Reachable(Step(s, a), k, message) <==>
      k == |s.calls| || !InProgress(s.calls[k], KindBegun(a), a.id)
  {
    assert k < |s.calls| ==> Step(s, a).calls[k] == s.calls[k];
  }

  /** The end of a call in progress strands the new one if and only if they have kind and id in common. */
  lemma EndStrandsIff(s: State, a: Action, k: nat, message: Message)
    requires Inv(s) && Enabled(s, a) && (a.StartCollect? || a.StartTask?) && k < |s.calls| && s.calls[k].live
    ensures |Step(Step(s, a), End(k)).calls| == |s.calls| + 1
    ensures Reachable(Step(Step(s, a), End(k)), |s.calls|, message) <==>
      !InProgress(s.calls[k], KindBegun(a), a.id)
  {
    assert Step(s, a).calls[k] == s.calls[k];
  }

  /** In particular reusing the id of a waiting collect call strands it, and its end strands the new one. */
  lemma ReusedIdStrandsBoth(s: State, k: nat, agent: string, message: Message)
    requires Inv(s) && k < |s.calls| && s.calls[k].live && s.calls[k].kind == Collect && s.calls[k].future == Waiting
    requires agent in s.connections
    ensures var t := Step(s, StartCollect(agent, s.calls[k].id));
      var answered := Step(t, Result(s.calls[k].id, message));
      var ended := Step(Step(t, End(k)), Result(s.calls[k].id, message));
      && answered.calls[k].future == Waiting
      && ended.calls[|s.calls|].future == Waiting && ended.calls[|s.calls|].live
  {}

  // ---------------------------------------------------------------------------
  // Sockets
  // ---------------------------------------------------------------------------

  /**
   The tables beside the sockets that are being served, by backend/api/v1/browsers.py:458-590 or
   backend/api/v1/nodes.py:727-871, which treat registration and closing alike. `served` maps
   each of them to the agent its first message names.
   */
  datatype World = World(tables: State, served: map<int, string>)

  /**
   A socket names its agent, is registered unless the message is refused, and closes; closing
   unregisters the agent it named in either case. One that names no agent has no effect.
   */
  datatype Event =
    | Named(socket: int, agent: string)
    | Connected(socket: int)
    | Closed(socket: int)
    | Table(action: Action)

  ghost predicate Possible(w: World, e: Event) {
    match e
    case Named(socket, agent) => socket !in w.served && agent != ""
    case Connected(socket) => socket in w.served
    case Closed(socket) => socket in w.served
    case Table(a) => !a.Register? && !a.Unregister? && Enabled(w.tables, a) && IsFresh(w.tables, a)
  }

  ghost function Next(w: World, e: Event): World
    requires Possible(w, e)
  {
    match e
    case Named(socket, agent) => w.(served := w.served[socket := agent])
    case Connected(socket) => w.(tables := Step(w.tables, Register(w.served[socket], socket)))
    case Closed(socket) => World(Step(w.tables, Unregister(w.served[socket])), w.served - {socket})
    case Table(a) => w.(tables := Step(w.tables, a))
  }

  ghost predicate IsHistory(w: World, events: seq<Event>)
    decreases |events|
  {
    events == [] || (Possible(w, events[0]) && IsHistory(Next(w, events[0]), events[1..]))
  }

  ghost function Outcome(w: World, events: seq<Event>): World
    requires IsHistory(w, events)
    decreases |events|
  {
    if events == [] then w else Outcome(Next(w, events[0]), events[1..])
  }

  /** The socket is being served and named this agent. */
  predicate Serves(w: World, socket: int, agent: string) {
    socket in w.served && w.served[socket] == agent
  }

  /** Connections and waiting tasks are on sockets that are still being served, for their own agent. */
  ghost predicate WorldInv(w: World) {
    && Inv(w.tables)
    && (forall socket <- w.served :: w.served[socket] != "")
    && (forall agent <- w.tables.connections :: Serves(w, w.tables.connections[agent], agent))
    && (forall c <- w.tables.calls :: WaitingTask(c) ==> Serves(w, c.socket, c.agent))
  }

  /** A close settles the waiting tasks of the agent that the socket named, and no others. */
  lemma CloseSettles(w: World, socket: int, k: nat)
    requires WorldInv(w) && socket in w.served && k < |w.tables.calls| && WaitingTask(w.tables.calls[k])
    ensures var c := w.tables.calls[k];
      var agent := w.served[socket];
      var calls := Next(w, Closed(socket)).tables.calls;
      && |calls| == |w.tables.calls|
      && calls[k] == if c.agent == agent then c.(future := Resolved(AgentDisconnected(agent))) else c
  {
    var s := w.tables;
    var c := s.calls[k];
    SettledForAt(s, w.served[socket], |s.calls|);
    assert Owned(s, k);
    assert c.id in s.tasks && s.tasks[c.id] == k;
    assert s.callbacks[c.id] == s.calls[s.tasks[c.id]].agent;
  }

  lemma CloseKeepsWorldInv(w: World, socket: int)
    requires WorldInv(w) && socket in w.served
    ensures WorldInv(Next(w, Closed(socket)))
  {
    var s := w.tables;
    var t := Next(w, Closed(socket)).tables;
    UnregisterKeepsInv(s, w.served[socket]);
    SettledForAt(s, w.served[socket], |s.calls|);
    forall k | 0 <= k < |t.calls| && WaitingTask(t.calls[k])
      ensures Serves(Next(w, Closed(socket)), t.calls[k].socket, t.calls[k].agent)
    {
      UnregisterIsFair(s, w.served[socket], k);
      assert s.calls[k] in s.calls;
      CloseSettles(w, socket, k);
    }
  }

  lemma TableKeepsWorldInv(w: World, a: Action)
    requires WorldInv(w) && Possible(w, Table(a))
    ensures WorldInv(Next(w, Table(a)))
  {
    var s := w.tables;
    var t := Step(s, a);
    StepKeepsInv(s, a);
    hide Step, Inv;
    forall k | 0 <= k < |t.calls| && WaitingTask(t.calls[k])
      ensures Serves(w, t.calls[k].socket, t.calls[k].agent)
    {
      if k < |s.calls| {
        WaitedBefore(s, a, k);
        assert s.calls[k] in s.calls;
      } else {
        NewCall(s, a, k);
      }
    }
    TableKeepsConnections(s, a);
  }

  lemma TableKeepsConnections(s: State, a: Action)
    requires Enabled(s, a) && !a.Register? && !a.Unregister?
    ensures Step(s, a).connections == s.connections
  {}

  lemma NewCall(s: State, a: Action, k: nat)
    requires Enabled(s, a) && !a.Unregister? && |s.calls| <= k < |Step(s, a).calls|
    ensures var c := Step(s, a).calls[k];
      c.agent in s.connections && c.socket == s.connections[c.agent]
  {}

  lemma WaitedBefore(s: State, a: Action, k: nat)
    requires Inv(s) && Enabled(s, a) && !a.Unregister? && k < |s.calls|
    requires k < |Step(s, a).calls| && WaitingTask(Step(s, a).calls[k])
    ensures WaitingTask(s.calls[k])
    ensures Step(s, a).calls[k].socket == s.calls[k].socket && Step(s, a).calls[k].agent == s.calls[k].agent
  {
    FutureStep(s, a, k);
    LiveBefore(s, a, k);
  }

  /** No step revives a call. */
  lemma LiveBefore(s: State, a: Action, k: nat)
    requires Inv(s) && Enabled(s, a) && !a.Unregister? && k < |s.calls|
    ensures k < |Step(s, a).calls| && (Step(s, a).calls[k].live ==> s.calls[k].live)
  {}

  lemma NextKeepsWorldInv(w: World, e: Event)
    requires WorldInv(w) && Possible(w, e)
    ensures WorldInv(Next(w, e))
  {
    match e
    case Closed(socket) => CloseKeepsWorldInv(w, socket);
    case Table(a) => TableKeepsWorldInv(w, a);
    case Connected(socket) => StepKeepsInv(w.tables, Register(w.served[socket], socket));
    case Named(_, _) =>
  }

  /**
   Over every history of sockets and requests, each connection and each waiting agent task is
   on a socket that is still being served for its agent: nothing waits on a closed socket.
   */
  lemma {:induction false} NothingWaitsOnAClosedSocket(w: World, events: seq<Event>)
    requires WorldInv(w) && IsHistory(w, events)
    ensures WorldInv(Outcome(w, events))
    decreases |events|
  {
    if events != [] {
      NextKeepsWorldInv(w, events[0]);
      NothingWaitsOnAClosedSocket(Next(w, events[0]), events[1..]);
    }
  }

  /** The close leaves every connection on another socket as it was. */
  ghost predicate SparesConnections(w: World, socket: int)
    requires socket in w.served
  {
    var before, after := w.tables.connections, Next(w, Closed(socket)).tables.connections;
    forall agent <- before :: before[agent] != socket ==> agent in after && after[agent] == before[agent]
  }

  /** The close leaves every waiting task begun on another socket waiting. */
  ghost predicate SparesTasks(w: World, socket: int)
    requires socket in w.served
  {
    var before, after := w.tables.calls, Next(w, Closed(socket)).tables.calls;
    forall k :: 0 <= k < |before| && WaitingTask(before[k]) && before[k].socket != socket ==>
      k < |after| && after[k] == before[k]
  }

  /**
   Connections are removed by agent, not by socket. So a close spares the connections on other
   sockets if and only if its agent has no connection or has it on this very socket.
   */
  lemma CloseSparesConnectionsIff(w: World, socket: int)
    requires WorldInv(w) && socket in w.served
    ensures SparesConnections(w, socket) <==>
      (w.served[socket] in w.tables.connections ==> w.tables.connections[w.served[socket]] == socket)
  {}

  /**
   A close spares the tasks begun on other sockets if and only if its agent has none waiting
   there.
   */
  lemma CloseSparesTasksIff(w: World, socket: int)
    requires WorldInv(w) && socket in w.served
    ensures SparesTasks(w, socket) <==>
      forall c <- w.tables.calls :: WaitingTask(c) && c.agent == w.served[socket] ==> c.socket == socket
  {
    var calls := w.tables.calls;
    forall k | 0 <= k < |calls| && WaitingTask(calls[k])
      ensures var after := Next(w, Closed(socket)).tables.calls;
        |after| == |calls| && (after[k] == calls[k] <==> calls[k].agent != w.served[socket])
    {
      CloseSettles(w, socket, k);
    }
    if SparesTasks(w, socket) {
      forall c <- calls | WaitingTask(c) && c.agent == w.served[socket]
        ensures c.socket == socket
      {
        var k :| 0 <= k < |calls| && calls[k] == c;
      }
    }
  }

  lemma Unroll(w: World, e: Event, rest: seq<Event>)
    requires Possible(w, e) && IsHistory(Next(w, e), rest)
    ensures IsHistory(w, [e] + rest) && Outcome(w, [e] + rest) == Outcome(Next(w, e), rest)
  {
    assert ([e] + rest)[1..] == rest;
  }

  lemma {:induction false} ThenContinue(w: World, first: seq<Event>, more: seq<Event>)
    requires IsHistory(w, first) && IsHistory(Outcome(w, first), more)
    ensures IsHistory(w, first + more) && Outcome(w, first + more) == Outcome(Outcome(w, first), more)
    decreases |first|
  {
    if first == [] {
      assert first + more == more;
    } else {
      ThenContinue(Next(w, first[0]), first[1..], more);
      Unroll(w, first[0], first[1..] + more);
      assert first + more == [first[0]] + (first[1..] + more);
    }
  }

  function BothConnected(agent: string, first: int, second: int): seq<Event> {
    [Named(first, agent), Connected(first), Named(second, agent), Connected(second)]
  }

  lemma BothConnect(w: World, agent: string, first: int, second: int)
    requires WorldInv(w) && first !in w.served && second !in w.served && first != second && agent != ""
    ensures IsHistory(w, BothConnected(agent, first, second))
    ensures var t := Outcome(w, BothConnected(agent, first, second));
      && WorldInv(t)
      && t == World(w.tables.(connections := w.tables.connections[agent := second]),
        w.served[first := agent][second := agent])
  {
    var w1 := Next(w, Named(first, agent));
    var w2 := Next(w1, Connected(first));
    var w3 := Next(w2, Named(second, agent));
    var w4 := Next(w3, Connected(second));
    assert w4.tables.connections == w.tables.connections[agent := second];
    assert IsHistory(w4, []);
    Unroll(w3, Connected(second), []);
    Unroll(w2, Named(second, agent), [Connected(second)]);
    Unroll(w1, Connected(first), [Named(second, agent), Connected(second)]);
    Unroll(w, Named(first, agent), [Connected(first), Named(second, agent), Connected(second)]);
    NothingWaitsOnAClosedSocket(w, BothConnected(agent, first, second));
  }

  /** An agent connects, connects again and is sent a task; then its first socket closes. */
  function Reconnection(agent: string, first: int, second: int, id: string): seq<Event> {
    BothConnected(agent, first, second) + [Table(StartTask(agent, id)), Closed(first)]
  }

  /** A task is started and another socket of its agent closes. */
  lemma StartThenClose(w: World, agent: string, socket: int, id: string)
    requires WorldInv(w) && Serves(w, socket, agent) && agent in w.tables.connections
    requires forall c <- w.tables.calls :: !InProgress(c, AgentTask, id)
    ensures var events := [Table(StartTask(agent, id)), Closed(socket)];
      && IsHistory(w, events)
      && var t := Outcome(w, events);
      && t.served == w.served - {socket} && t.tables.connections == w.tables.connections - {agent}
      && |t.tables.calls| == |w.tables.calls| + 1
      && var c := t.tables.calls[|w.tables.calls|];
      && c.id == id && c.socket == w.tables.connections[agent] && c.future == Resolved(AgentDisconnected(agent))
  {
    var start := Table(StartTask(agent, id));
    var begun := Next(w, start);
    NextKeepsWorldInv(w, start);
    CloseSettles(begun, socket, |w.tables.calls|);
    assert IsHistory(Next(begun, Closed(socket)), []);
    Unroll(begun, Closed(socket), []);
    Unroll(w, start, [Closed(socket)]);
  }

  /**
   When an agent reconnects before its old socket is closed, the old one's closing removes the
   new connection and fails the task sent on it, although the new socket is still served.
   */
  lemma LateCloseDropsTheNewConnection(w: World, agent: string, first: int, second: int, id: string)
    requires WorldInv(w) && first !in w.served && second !in w.served && first != second && agent != ""
    requires forall c <- w.tables.calls :: !InProgress(c, AgentTask, id)
    ensures var events := Reconnection(agent, first, second, id);
      && IsHistory(w, events)
      && var t := Outcome(w, events);
      && Serves(t, second, agent) && agent !in t.tables.connections
      && |t.tables.calls| == |w.tables.calls| + 1
      && var c := t.tables.calls[|w.tables.calls|];
      && c.id == id && c.socket == second && c.future == Resolved(AgentDisconnected(agent))
  {
    var both := w.(served := w.served[first := agent][second := agent]);
    var connected := both.(tables := Step(both.tables, Register(agent, second)));
    BothConnect(w, agent, first, second);
    StartThenClose(connected, agent, first, id);
    ThenContinue(w, BothConnected(agent, first, second), [Table(StartTask(agent, id)), Closed(first)]);
  }

  /**
   A socket whose registration is refused after it named its agent has the same effect: the
   agent's connection is gone although it was never replaced.
   */
  lemma RefusedSocketDropsTheConnection(w: World, agent: string, socket: int)
    requires WorldInv(w) && agent in w.tables.connections && socket !in w.served
    ensures IsHistory(w, [Named(socket, agent), Closed(socket)])
    ensures var t := Outcome(w, [Named(socket, agent), Closed(socket)]);
      && agent !in t.tables.connections
      && Serves(t, w.tables.connections[agent], agent)
  {
    var named := Next(w, Named(socket, agent));
    assert IsHistory(Next(named, Closed(socket)), []);
    Unroll(named, Closed(socket), []);
    Unroll(w, Named(socket, agent), [Closed(socket)]);
  }

  // ---------------------------------------------------------------------------
  // The tables in place
  // ---------------------------------------------------------------------------

  class AgentManager {
    var connections: map<string, int>
    var pending: map<string, nat>
    var tasks: map<string, nat>
    var callbacks: map<string, string>
    var calls: seq<Call>

    function View(): State
      reads this
    {
      State(connections, pending, tasks, callbacks, calls)
    }

    constructor ()
      ensures View() == EMPTY
    {
      connections, pending, tasks, callbacks, calls := map[], map[], map[], map[], [];
    }

    /** register_connection */
    method RegisterConnection(agent: string, socket: int)
      modifies this`connections
      ensures View() == Step(old(View()), Register(agent, socket))
    {
      connections := connections[agent := socket];
    }

    /** unregister_connection */
    method UnregisterConnection(agent: string)
      requires Points(calls, tasks, AgentTask)
      modifies this
      ensures View() == Unregistered(old(View()), agent)
    {
      connections := connections - {agent};
      var dead := OwnedBy(callbacks, agent);
      calls := FailTasks(calls, tasks, dead, agent);
      callbacks := callbacks - dead;
      DisconnectedAreSettled(old(View()), agent);
    }

    /** The start of dispatch_collect, None when the agent is not connected. */
    method BeginCollect(agent: string, id: string) returns (k: Option<nat>)
      modifies this
      ensures if agent in old(connections) then
        k == Some(|old(calls)|) && View() == Step(old(View()), StartCollect(agent, id))
              else k == None && View() == old(View())
    {
      if agent !in connections {
        return None;
      }
      k := Some(|calls|);
      pending := pending[id := |calls|];
      calls := calls + [Call(Collect, id, agent, connections[agent], Waiting, true, [])];
    }

    /** resolve_response */
    method ResolveResponse(id: string, message: Message)
      modifies this`calls
      ensures View() == Step(old(View()), Result(id, message))
    {
      if id !in pending || pending[id] >= |calls| || calls[pending[id]].future != Waiting {
        return;
      }
      calls := calls[pending[id] := calls[pending[id]].(future := Resolved(Delivered(message)))];
    }

    /** resolve_agent_event: handed to the callback of the task it names, dropped when there is none */
    method ResolveAgentEvent(id: string, message: Message)
      modifies this`calls
      ensures View() == Step(old(View()), TaskEvent(id, message))
    {
      if id !in callbacks || id !in tasks || tasks[id] >= |calls| {
        return;
      }
      var c := calls[tasks[id]];
      calls := calls[tasks[id] := c.(events := c.events + [message])];
    }

    /** resolve_agent_result */
    method ResolveAgentResult(id: string, message: Message)
      modifies this`calls
      ensures View() == Step(old(View()), TaskResult(id, message))
    {
      if id !in tasks || tasks[id] >= |calls| || calls[tasks[id]].future != Waiting {
        return;
      }
      calls := calls[tasks[id] := calls[tasks[id]].(future := Resolved(Delivered(message)))];
    }

    /** The start of send_agent_task, None when the agent is not connected. */
    method BeginAgentTask(agent: string, id: string) returns (k: Option<nat>)
      modifies this
      ensures if agent in old(connections) then
        k == Some(|old(calls)|) && View() == Step(old(View()), StartTask(agent, id))
              else k == None && View() == old(View())
    {
      if agent !in connections {
        return None;
      }
      k := Some(|calls|);
      tasks := tasks[id := |calls|];
      callbacks := callbacks[id := agent];
      calls := calls + [Call(AgentTask, id, agent, connections[agent], Waiting, true, [])];
    }

    /** The `finally` of send_agent_task and dispatch_collect. */
    method EndCall(k: nat)
      requires k < |calls|
      modifies this
      ensures View() == Ended(old(View()), k)
    {
      var c := calls[k];
      if c.kind == Collect {
        pending := pending - {c.id};
      } else {
        tasks := tasks - {c.id};
        callbacks := callbacks - {c.id};
      }
      calls := calls[k := c.(live := false, future := if c.future == Waiting then Abandoned else c.future)];
    }
  }

  function DisconnectedCall(calls: seq<Call>, tasks: map<string, nat>, dead: set<string>, agent: string, k: nat): Call
    requires k < |calls|
  {
    var c := calls[k];
    if c.id in dead && c.id in tasks && tasks[c.id] == k && c.future == Waiting
    then c.(future := Resolved(AgentDisconnected(agent))) else c
  }

  /** The calls after the tasks with these ids were settled. */
  function DisconnectedAll(calls: seq<Call>, tasks: map<string, nat>, dead: set<string>, agent: string): (r: seq<Call>)
    ensures |r| == |calls|
  {
    seq(|calls|, k requires 0 <= k < |calls| => DisconnectedCall(calls, tasks, dead, agent, k))
  }

  lemma DisconnectOne(calls: seq<Call>, tasks: map<string, nat>, done: set<string>, id: string, agent: string)
    requires id !in done && Points(calls, tasks, AgentTask)
    ensures var before := DisconnectedAll(calls, tasks, done, agent);
      DisconnectedAll(calls, tasks, done + {id}, agent)
        == if id in tasks then Settle(before, tasks, id, AgentDisconnected(agent)) else before
  {}

  /** The loop of unregister_connection: settles the futures of these tasks one by one. */
  method FailTasks(
    calls: seq<Call>, tasks: map<string, nat>, dead: set<string>, agent: string
  ) returns (settled: seq<Call>)
    requires Points(calls, tasks, AgentTask)
    ensures settled == DisconnectedAll(calls, tasks, dead, agent)
  {
    ghost var done: set<string> := {};
    var rest := dead;
    settled := calls;
    while rest != {}
      invariant done !! rest && done + rest == dead
      invariant settled == DisconnectedAll(calls, tasks, done, agent)
      decreases |rest|
    {
      var id :| id in rest;
      DisconnectOne(calls, tasks, done, id, agent);
      if id in tasks {
        settled := Settle(settled, tasks, id, AgentDisconnected(agent));
      }
      rest, done := rest - {id}, done + {id};
    }
    assert done == dead;
  }

  lemma DisconnectedAreSettled(s: State, agent: string)
    ensures DisconnectedAll(s.calls, s.tasks, OwnedBy(s.callbacks, agent), agent) == SettledFor(s, agent, |s.calls|)
  {
    SettledForAt(s, agent, |s.calls|);
  }
}
