/**
 The in-process browser pool (backend/browser_pool.py:38-267). Every endpoint has a slot, a
 queue that holds its token. A routed acquire waits for one queue; an unrouted or anonymous
 acquire races a getter on the queue of every candidate, keeps the token of one finished
 getter and drops those of the others. A getter stays on the queue it began with, even when
 the endpoint is removed and added again with a new one. An acquire may be cancelled while it
 waits: a routed one then takes nothing, but nobody cancels the getters of a race.
 */
module LocalPool {
  import opened Common

  type Endpoint = string

  datatype ProfileKind = Anonymous | Authenticated

  /**
   Queues are numbered in the order they are made. slots maps an endpoint to its present queue,
   and full has the queues that hold their token.
   */
  datatype Pool = Pool(
    slots: map<Endpoint, nat>, full: set<nat>, made: nat, kinds: map<Endpoint, ProfileKind>, total: int
  )

  datatype Request =
    | Routed(endpoint: Endpoint, required: Option<ProfileKind>)
    | Unrouted(required: Option<ProfileKind>)
    | AnonymousOnly

  datatype PoolError = NoCleanProfile | NothingToWaitFor | UnknownSlot | SlotFull

  function KindOf(p: Pool, e: Endpoint): ProfileKind {
    if e in p.kinds then p.kinds[e] else Authenticated
  }

  function AnonymousEndpoints(p: Pool): set<Endpoint> {
    set e | e in p.slots && KindOf(p, e) == Anonymous
  }

  /** The slots whose tokens an acquire waits for. An unknown route falls back to all of them. */
  function Candidates(p: Pool, r: Request): Result<set<Endpoint>, PoolError> {
    match r
    case AnonymousOnly =>
      if AnonymousEndpoints(p) == {} then Err(NoCleanProfile) else Ok(AnonymousEndpoints(p))
    case Unrouted(required) =>
      if required.Some? then Err(NoCleanProfile)
      else if p.slots.Keys == {} then Err(NothingToWaitFor) else Ok(p.slots.Keys)
    case Routed(e, required) =>
      if required.Some? && (e !in p.slots || KindOf(p, e) != required.value) then Err(NoCleanProfile)
      else if e in p.slots then Ok({e})
      else if p.slots.Keys == {} then Err(NothingToWaitFor) else Ok(p.slots.Keys)
  }

  function RequiredBy(r: Request): Option<ProfileKind> {
    if r.AnonymousOnly? then None else r.required
  }

  /**
   An acquire waits on at least one slot of the pool. A required profile is honoured by every
   candidate; it is refused exactly when no endpoint is named or the named one lacks it, and
   an anonymous acquire exactly when no endpoint is anonymous. Any other fails only on an empty
   pool; and a route that the pool has is kept.
   */
  lemma CandidatesFit(p: Pool, r: Request)
    ensures Candidates(p, r).Ok? ==> Candidates(p, r).value != {} && Candidates(p, r).value <= p.slots.Keys
    ensures Candidates(p, r).Ok? && RequiredBy(r).Some? ==>
      forall e <- Candidates(p, r).value :: KindOf(p, e) == RequiredBy(r).value
    ensures Candidates(p, r).Ok? && r.AnonymousOnly? ==> forall e <- Candidates(p, r).value :: KindOf(p, e) == Anonymous
    ensures Candidates(p, r) == Err(NoCleanProfile) <==>
      match r
      case AnonymousOnly => forall e <- p.slots :: KindOf(p, e) != Anonymous
      case Unrouted(required) => required.Some?
      case Routed(e, required) => required.Some? && !(e in p.slots && KindOf(p, e) == required.value)
    ensures Candidates(p, r) == Err(NothingToWaitFor) <==>
      p.slots == map[] && !r.AnonymousOnly? && RequiredBy(r).None?
    ensures r.Routed? && r.endpoint in p.slots && Candidates(p, r).Ok? ==> Candidates(p, r).value == {r.endpoint}
    ensures !(r.Routed? && r.endpoint in p.slots) && Candidates(p, r).Ok? ==>
      Candidates(p, r).value == if r.AnonymousOnly? then AnonymousEndpoints(p) else p.slots.Keys
  {
    if r.AnonymousOnly? && AnonymousEndpoints(p) == {} {
      assert forall e <- p.slots :: e !in AnonymousEndpoints(p);
    }
  }

  predicate Full(p: Pool, e: Endpoint) {
    e in p.slots && p.slots[e] in p.full
  }

  /** Queue.get on a full queue. */
  function Emptied(p: Pool, q: nat): Pool {
    p.(full := p.full - {q})
  }

  /** Queue.put_nowait on the present slot: fails when the slot is gone or occupied. */
  function PutBack(p: Pool, e: Endpoint): Result<Pool, PoolError> {
    if e !in p.slots then Err(UnknownSlot)
    else if p.slots[e] in p.full then Err(SlotFull)
    else Ok(p.(full := p.full + {p.slots[e]}))
  }

  /** A token goes back into the slot of its endpoint, unless that is gone or has one already. */
  lemma PutBackIs(p: Pool, e: Endpoint)
    ensures PutBack(p, e) == Err(UnknownSlot) <==> e !in p.slots
    ensures PutBack(p, e) == Err(SlotFull) <==> Full(p, e)
    ensures PutBack(p, e).Ok? ==>
      var q := PutBack(p, e).value;
      Full(q, e) && Emptied(q, p.slots[e]) == p
  {}

  /** A new queue with its token becomes the slot of e. */
  function Installed(p: Pool, e: Endpoint): Pool {
    p.(slots := p.slots[e := p.made], full := p.full + {p.made}, made := p.made + 1)
  }

  function Added(p: Pool, e: Endpoint): Pool {
    if e in p.slots then p
    else Installed(p, e).(kinds := if e in p.kinds then p.kinds else p.kinds[e := Authenticated], total := p.total + 1)
  }

  function Removed(p: Pool, e: Endpoint): Pool {
    if e !in p.slots then p else p.(slots := p.slots - {e}, kinds := p.kinds - {e}, total := p.total - 1)
  }

  /**
   An endpoint that is added is available, and counts as authenticated unless it was said to be
   anonymous before; nothing else changes. After a removal nothing is known of it any more.
   */
  lemma AddedIsAvailable(p: Pool, e: Endpoint)
    requires SlotsApart(p) && e !in p.slots
    ensures var q := Added(p, e);
      && q.slots.Keys == p.slots.Keys + {e} && Full(q, e) && q.total == p.total + 1
      && KindOf(q, e) == KindOf(p, e)
      && (forall f <- p.slots :: Full(q, f) == Full(p, f))
      && (forall f: Endpoint :: f != e ==> KindOf(q, f) == KindOf(p, f))
  {}

  /** A removed endpoint is gone and counted out; when it is added again it counts as authenticated. */
  lemma RemovedIsForgotten(p: Pool, e: Endpoint)
    requires e in p.slots
    ensures var q := Removed(p, e);
      && q.slots == p.slots - {e} && q.total == p.total - 1 && q.full == p.full
      && KindOf(q, e) == Authenticated && KindOf(Added(q, e), e) == Authenticated && Full(Added(q, e), e)
      && Added(q, e).total == p.total
      && (forall f: Endpoint :: f != e ==> KindOf(q, f) == KindOf(p, f))
  {}

  /** The pool as constructed; a repeated endpoint gets a queue each time, of which the last stays. */
  function Fresh(endpoints: seq<Endpoint>): Pool {
    if endpoints == [] then Pool(map[], {}, 0, map[], 0)
    else
      var p := Fresh(endpoints[..|endpoints| - 1]);
      var e := endpoints[|endpoints| - 1];
      Installed(p, e).(kinds := p.kinds[e := Authenticated], total := p.total + 1)
  }

  /** One full slot per distinct endpoint, none of them anonymous; total counts repetitions. */
  lemma {:induction false} FreshIsFull(endpoints: seq<Endpoint>)
    ensures var p := Fresh(endpoints);
      && (forall e: Endpoint :: e in endpoints <==> e in p.slots)
      && (forall e <- p.slots :: Full(p, e) && KindOf(p, e) == Authenticated)
      && p.total == |endpoints|
      && SlotsApart(p)
  {
    if endpoints != [] {
      FreshIsFull(endpoints[..|endpoints| - 1]);
      assert endpoints == endpoints[..|endpoints| - 1] + [endpoints[|endpoints| - 1]];
    }
  }

  /** Slots are queues that were made, each for one endpoint. */
  ghost predicate SlotsApart(p: Pool) {
    && (forall e <- p.slots :: p.slots[e] < p.made)
    && (forall e <- p.slots, f <- p.slots :: p.slots[e] == p.slots[f] ==> e == f)
  }

  // ---------------------------------------------------------------------------
  // The pool in place
  // ---------------------------------------------------------------------------

  class LocalBrowserPool {
    var slots: map<Endpoint, nat>
    var full: set<nat>
    var made: nat
    var kinds: map<Endpoint, ProfileKind>
    var total: int

    function View(): Pool
      reads this
    {
      Pool(slots, full, made, kinds, total)
    }

    constructor (endpoints: seq<Endpoint>)
      ensures View() == Fresh(endpoints)
      ensures forall e: Endpoint :: e in endpoints <==> Full(View(), e)
      ensures total == |endpoints| && AnonymousEndpoints(View()) == {}
    {
      slots, full, made, kinds, total := map[], {}, 0, map[], |endpoints|;
      new;
      for i := 0 to |endpoints|
        invariant View() == Fresh(endpoints[..i]).(total := |endpoints|)
      {
        assert endpoints[..i + 1][..i] == endpoints[..i];
        Install(endpoints[i]);
        kinds := kinds[endpoints[i] := Authenticated];
      }
      assert endpoints[..|endpoints|] == endpoints;
      FreshIsFull(endpoints);
    }

    /** A new queue holding its token. */
    method Install(e: Endpoint)
      modifies this`slots, this`full, this`made
      ensures View() == Installed(old(View()), e)
    {
      slots := slots[e := made];
      full := full + {made};
      made := made + 1;
    }

    /** A getter finishes: Queue.get on a full queue. */
    method Take(q: nat)
      requires q in full
      modifies this`full
      ensures View() == Emptied(old(View()), q)
    {
      full := full - {q};
    }

    /**
     The end of a race: `taken` are the getters that finished before they were cancelled, any
     of them may win. A winner whose profile no longer fits is put back.
     */
    method FinishRace(taken: set<Endpoint>, winner: Endpoint, required: Option<ProfileKind>)
      returns (r: Result<Endpoint, PoolError>, dropped: set<Endpoint>)
      requires winner in taken
      modifies this`full
      ensures dropped == taken - {winner}
      ensures var fits := required.None? || KindOf(old(View()), winner) == required.value;
        if fits then r == Ok(winner) && View() == old(View())
        else match PutBack(old(View()), winner)
          case Ok(after) => r == Err(NoCleanProfile) && View() == after
          case Err(e) => r == Err(e) && View() == old(View())
    {
      dropped := taken - {winner};
      if required.Some? && KindOf(View(), winner) != required.value {
        r := Release(winner);
        if r.Ok? {
          r := Err(NoCleanProfile);
        }
        return;
      }
      r := Ok(winner);
    }

    method Release(e: Endpoint) returns (r: Result<Endpoint, PoolError>)
      modifies this`full
      ensures match PutBack(old(View()), e)
        case Ok(after) => r == Ok(e) && View() == after
        case Err(error) => r == Err(error) && View() == old(View())
    {
      if e !in slots {
        return Err(UnknownSlot);
      }
      if slots[e] in full {
        return Err(SlotFull);
      }
      full := full + {slots[e]};
      return Ok(e);
    }

    method AddEndpoint(e: Endpoint)
      modifies this
      ensures View() == Added(old(View()), e)
    {
      if e in slots {
        return;
      }
      Install(e);
      if e !in kinds {
        kinds := kinds[e := Authenticated];
      }
      total := total + 1;
    }

    method RemoveEndpoint(e: Endpoint)
      modifies this
      ensures View() == Removed(old(View()), e)
    {
      if e !in slots {
        return;
      }
      slots := slots - {e};
      kinds := kinds - {e};
      total := total - 1;
    }
  }

  // ---------------------------------------------------------------------------
  // Any number of clients on one pool
  // ---------------------------------------------------------------------------

  /** A task that waits for the token of one queue, made for one endpoint. */
  datatype Getter = Getter(endpoint: Endpoint, queue: nat)

  /**
   A waiting client is in a routed acquire and has its token as soon as it gets one. A racing
   client has a getter on the queue that each candidate had when it began.
   */
  datatype Client =
    | Idle
    | Waiting(getter: Getter, required: Option<ProfileKind>)
    | Racing(candidates: map<Endpoint, nat>, got: set<Endpoint>)
    | Holding(endpoint: Endpoint)

  /**
   orphans are the unfinished getters of cancelled races. lost counts the tokens that getters
   took out of the present slots and nobody kept.
   */
  datatype State = State(pool: Pool, clients: seq<Client>, orphans: multiset<Getter>, lost: multiset<Endpoint>)

  datatype Action =
    | Begin(c: nat, request: Request)
    | Get(c: nat, e: Endpoint)
    | Settle(c: nat, winner: Endpoint)
    | Cancel(c: nat)
    | Drain(g: Getter)
    | GiveBack(c: nat)
    | Add(e: Endpoint)
    | Remove(e: Endpoint)
    | SetKind(e: Endpoint, kind: ProfileKind)

  predicate MayGet(s: State, c: nat, e: Endpoint)
    requires c < |s.clients|
  {
    match s.clients[c]
    case Waiting(g, _) => g.endpoint == e && g.queue in s.pool.full
    case Racing(candidates, got) => e in candidates && e !in got && candidates[e] in s.pool.full
    case _ => false
  }

  predicate Enabled(s: State, a: Action) {
    match a
    case Begin(c, _) => c < |s.clients| && s.clients[c].Idle?
    case Get(c, e) => c < |s.clients| && MayGet(s, c, e)
    case Settle(c, winner) => c < |s.clients| && s.clients[c].Racing? && winner in s.clients[c].got
    case Cancel(c) => c < |s.clients| && (s.clients[c].Waiting? || s.clients[c].Racing?)
    case Drain(g) => g in s.orphans && g.queue in s.pool.full
    case GiveBack(c) => c < |s.clients| && s.clients[c].Holding?
    case _ => true
  }

  function Begun(p: Pool, r: Request): Result<Client, PoolError> {
    var chosen := Candidates(p, r);
    if chosen.Err? then Err(chosen.error)
    else if r.Routed? && r.endpoint in p.slots then
      Ok(Waiting(Getter(r.endpoint, p.slots[r.endpoint]), r.required))
    else Ok(Racing(map e | e in chosen.value && e in p.slots :: p.slots[e], {}))
  }

  /** A routed acquire gets its token: it holds the endpoint, or puts it back if the profile no longer fits. */
  function Received(s: State, c: nat): State
    requires c < |s.clients| && s.clients[c].Waiting?
  {
    var e, required := s.clients[c].getter.endpoint, s.clients[c].required;
    var p := Emptied(s.pool, s.clients[c].getter.queue);
    if required.None? || KindOf(p, e) == required.value then s.(pool := p, clients := s.clients[c := Holding(e)])
    else
      var back := PutBack(p, e);
      s.(pool := if back.Ok? then back.value else p, clients := s.clients[c := Idle])
  }

  function Unfinished(race: Client): multiset<Getter>
    requires race.Racing?
  {
    multiset(set e | e in race.candidates && e !in race.got :: Getter(e, race.candidates[e]))
  }

  /** The queue of this getter is the present slot of its endpoint. */
  predicate IsPresent(p: Pool, g: Getter) {
    g.endpoint in p.slots && p.slots[g.endpoint] == g.queue
  }

  function Cancelled(s: State, c: nat): State
    requires Enabled(s, Cancel(c))
  {
    var t := s.(clients := s.clients[c := Idle]);
    match s.clients[c]
    case Waiting(_, _) => t
    case Racing(_, got) => t.(orphans := s.orphans + Unfinished(s.clients[c]), lost := s.lost + multiset(got))
  }

  function Step(s: State, a: Action): State
    requires Enabled(s, a)
  {
    match a
    case Begin(c, request) =>
      var begun := Begun(s.pool, request);
      if begun.Err? then s else s.(clients := s.clients[c := begun.value])
    case Get(c, e) =>
      if s.clients[c].Waiting? then Received(s, c)
      else
        var race := s.clients[c];
        s.(pool := Emptied(s.pool, race.candidates[e]), clients := s.clients[c := race.(got := race.got + {e})])
    case Settle(c, winner) =>
      s.(clients := s.clients[c := Holding(winner)], lost := s.lost + multiset(s.clients[c].got - {winner}))
    case Cancel(c) => Cancelled(s, c)
    case Drain(g) =>
      s.(pool := Emptied(s.pool, g.queue), orphans := s.orphans - multiset{g},
         lost := s.lost + if IsPresent(s.pool, g) then multiset{g.endpoint} else multiset{})
    case GiveBack(c) =>
      var back := PutBack(s.pool, s.clients[c].endpoint);
      s.(pool := if back.Ok? then back.value else s.pool, clients := s.clients[c := Idle])
    case Add(e) => s.(pool := Added(s.pool, e))
    case Remove(e) => if e in s.pool.slots then s.(pool := Removed(s.pool, e), lost := s.lost[e := 0]) else s
    case SetKind(e, kind) => s.(pool := s.pool.(kinds := s.pool.kinds[e := kind]))
  }

  /** The client has the endpoint, or its getter has or can get the token. */
  predicate Busy(s: State, c: nat, e: Endpoint)
    requires c < |s.clients|
  {
    Has(s.clients[c], e) == 1 || MayGet(s, c, e)
  }

  /** An endpoint of the pool is removed only when no client is busy with it. */
  ghost predicate Quiet(s: State, a: Action) {
    a.Remove? && a.e in s.pool.slots ==> forall c :: 0 <= c < |s.clients| ==> !Busy(s, c, a.e)
  }

  ghost predicate IsRun(s: State, run: seq<Action>)
    decreases |run|
  {
    run == [] || (Enabled(s, run[0]) && Quiet(s, run[0]) && IsRun(Step(s, run[0]), run[1..]))
  }

  ghost function After(s: State, run: seq<Action>): State
    requires IsRun(s, run)
    decreases |run|
  {
    if run == [] then s else After(Step(s, run[0]), run[1..])
  }

  // ---------------------------------------------------------------------------
  // Conservation
  // ---------------------------------------------------------------------------

  function Has(c: Client, e: Endpoint): nat {
    if (c.Racing? && e in c.got) || c == Holding(e) then 1 else 0
  }

  /** Tokens of e in the hands of clients. */
  function InHand(clients: seq<Client>, e: Endpoint): nat {
    if clients == [] then 0 else InHand(clients[..|clients| - 1], e) + Has(clients[|clients| - 1], e)
  }

  function InSlot(p: Pool, e: Endpoint): nat {
    if Full(p, e) then 1 else 0
  }

  function Tokens(s: State, e: Endpoint): nat {
    InSlot(s.pool, e) + InHand(s.clients, e) + s.lost[e]
  }

  /** The queue of this getter was made for its endpoint alone. */
  ghost predicate GetterFits(p: Pool, g: Getter) {
    g.queue < p.made && forall f <- p.slots :: p.slots[f] == g.queue ==> f == g.endpoint
  }

  /** A client can only ever get the token of a present slot. */
  ghost predicate ClientGetterFits(p: Pool, g: Getter) {
    GetterFits(p, g) && (g.queue in p.full ==> IsPresent(p, g))
  }

  ghost predicate ClientFits(p: Pool, c: Client) {
    match c
    case Waiting(g, _) => ClientGetterFits(p, g)
    case Racing(candidates, got) =>
      && got <= candidates.Keys
      && forall e <- candidates :: ClientGetterFits(p, Getter(e, candidates[e]))
    case _ => true
  }

  /** Each endpoint of the pool has exactly one token: in its slot, in one client's hand, or lost. */
  ghost predicate Conserved(s: State) {
    && (forall e: Endpoint :: Tokens(s, e) == if e in s.pool.slots then 1 else 0)
    && SlotsApart(s.pool)
    && (forall q <- s.pool.full :: q < s.pool.made)
    && (forall c :: 0 <= c < |s.clients| ==> ClientFits(s.pool, s.clients[c]))
    && (forall g <- s.orphans :: GetterFits(s.pool, g))
  }

  lemma {:induction false} InHandUpdate(clients: seq<Client>, c: nat, next: Client, e: Endpoint)
    requires c < |clients|
    ensures InHand(clients[c := next], e) == InHand(clients, e) - Has(clients[c], e) + Has(next, e)
  {
    var last := |clients| - 1;
    if c == last {
      assert clients[c := next][..last] == clients[..last];
    } else {
      assert clients[c := next][..last] == clients[..last][c := next];
      InHandUpdate(clients[..last], c, next, e);
    }
  }

  lemma {:induction false} InHandAtLeast(clients: seq<Client>, c: nat, e: Endpoint)
    requires c < |clients|
    ensures InHand(clients, e) >= Has(clients[c], e)
  {
    if c < |clients| - 1 {
      InHandAtLeast(clients[..|clients| - 1], c, e);
    }
  }

  lemma {:induction false} TwoInHand(clients: seq<Client>, c: nat, d: nat, e: Endpoint)
    requires c < d < |clients| && Has(clients[c], e) == 1 && Has(clients[d], e) == 1
    ensures InHand(clients, e) >= 2
  {
    var last := |clients| - 1;
    if d == last {
      InHandAtLeast(clients[..last], c, e);
    } else {
      TwoInHand(clients[..last], c, d, e);
    }
  }

  /** In a conserving state a client's token is neither in its slot nor with anyone else nor lost. */
  lemma TokenInHand(s: State, c: nat, e: Endpoint)
    requires Conserved(s) && c < |s.clients| && Has(s.clients[c], e) == 1
    ensures e in s.pool.slots && !Full(s.pool, e) && s.lost[e] == 0 && InHand(s.clients, e) == 1
  {
    InHandAtLeast(s.clients, c, e);
    assert Tokens(s, e) == if e in s.pool.slots then 1 else 0;
  }

  lemma GetConserves(s: State, c: nat, e: Endpoint)
    requires Conserved(s) && Enabled(s, Get(c, e)) && s.clients[c].Racing?
    ensures Conserved(Step(s, Get(c, e)))
  {
    var s' := Step(s, Get(c, e));
    assert ClientFits(s.pool, s.clients[c]);
    forall f: Endpoint
      ensures Tokens(s', f) == if f in s'.pool.slots then 1 else 0
    {
      InHandUpdate(s.clients, c, s'.clients[c], f);
      assert Tokens(s, f) == if f in s.pool.slots then 1 else 0;
    }
  }

  lemma ReceiveConserves(s: State, c: nat)
    requires Conserved(s) && c < |s.clients| && s.clients[c].Waiting? && s.clients[c].getter.queue in s.pool.full
    ensures Conserved(Received(s, c))
  {
    var s' := Received(s, c);
    assert ClientFits(s.pool, s.clients[c]);
    forall f: Endpoint
      ensures Tokens(s', f) == if f in s'.pool.slots then 1 else 0
    {
      InHandUpdate(s.clients, c, s'.clients[c], f);
      assert Tokens(s, f) == if f in s.pool.slots then 1 else 0;
    }
  }

  lemma SettleConserves(s: State, c: nat, winner: Endpoint)
    requires Conserved(s) && Enabled(s, Settle(c, winner))
    ensures Conserved(Step(s, Settle(c, winner)))
  {
    var s' := Step(s, Settle(c, winner));
    forall f: Endpoint
      ensures Tokens(s', f) == if f in s'.pool.slots then 1 else 0
    {
      InHandUpdate(s.clients, c, s'.clients[c], f);
      assert Tokens(s, f) == if f in s.pool.slots then 1 else 0;
    }
  }

  lemma CancelConserves(s: State, c: nat)
    requires Conserved(s) && Enabled(s, Cancel(c))
    ensures Conserved(Step(s, Cancel(c)))
  {
    var s' := Step(s, Cancel(c));
    assert ClientFits(s.pool, s.clients[c]);
    forall f: Endpoint
      ensures Tokens(s', f) == if f in s'.pool.slots then 1 else 0
    {
      InHandUpdate(s.clients, c, Idle, f);
      assert Tokens(s, f) == if f in s.pool.slots then 1 else 0;
    }
  }

  lemma DrainConserves(s: State, g: Getter)
    requires Conserved(s) && Enabled(s, Drain(g))
    ensures Conserved(Step(s, Drain(g)))
  {
    var s' := Step(s, Drain(g));
    forall f: Endpoint
      ensures Tokens(s', f) == if f in s'.pool.slots then 1 else 0
    {
      assert Tokens(s, f) == if f in s.pool.slots then 1 else 0;
    }
  }

  lemma GiveBackConserves(s: State, c: nat)
    requires Conserved(s) && Enabled(s, GiveBack(c))
    ensures Conserved(Step(s, GiveBack(c)))
    ensures PutBack(s.pool, s.clients[c].endpoint).Ok?
  {
    var s' := Step(s, GiveBack(c));
    TokenInHand(s, c, s.clients[c].endpoint);
    forall f: Endpoint
      ensures Tokens(s', f) == if f in s'.pool.slots then 1 else 0
    {
      InHandUpdate(s.clients, c, Idle, f);
      assert Tokens(s, f) == if f in s.pool.slots then 1 else 0;
    }
  }

  lemma BeginConserves(s: State, c: nat, request: Request)
    requires Conserved(s) && Enabled(s, Begin(c, request))
    ensures Conserved(Step(s, Begin(c, request)))
  {
    var s' := Step(s, Begin(c, request));
    forall f: Endpoint
      ensures Tokens(s', f) == Tokens(s, f)
    {
      if s' != s {
        InHandUpdate(s.clients, c, s'.clients[c], f);
      }
    }
  }

  lemma {:induction false} NobodyHas(clients: seq<Client>, e: Endpoint)
    requires forall c :: 0 <= c < |clients| ==> Has(clients[c], e) == 0
    ensures InHand(clients, e) == 0
  {
    if clients != [] {
      NobodyHas(clients[..|clients| - 1], e);
    }
  }

  lemma AddConserves(s: State, e: Endpoint)
    requires Conserved(s)
    ensures Conserved(Step(s, Add(e)))
  {
    var s' := Step(s, Add(e));
    forall f: Endpoint
      ensures Tokens(s', f) == if f in s'.pool.slots then 1 else 0
    {
      assert Tokens(s, f) == if f in s.pool.slots then 1 else 0;
    }
  }

  lemma RemoveConserves(s: State, e: Endpoint)
    requires Conserved(s) && Quiet(s, Remove(e))
    ensures Conserved(Step(s, Remove(e)))
  {
    if e in s.pool.slots {
      var s' := Step(s, Remove(e));
      forall c | 0 <= c < |s.clients|
        ensures Has(s.clients[c], e) == 0 && ClientFits(s'.pool, s.clients[c])
      {
        assert !Busy(s, c, e);
        assert ClientFits(s.pool, s.clients[c]);
      }
      NobodyHas(s.clients, e);
      forall f: Endpoint
        ensures Tokens(s', f) == if f in s'.pool.slots then 1 else 0
      {
        assert Tokens(s, f) == if f in s.pool.slots then 1 else 0;
      }
    }
  }

  lemma StepConserves(s: State, a: Action)
    requires Conserved(s) && Enabled(s, a) && Quiet(s, a)
    ensures Conserved(Step(s, a))
  {
    match a
    case Begin(c, request) => BeginConserves(s, c, request);
    case Get(c, e) =>
      if s.clients[c].Waiting? {
        ReceiveConserves(s, c);
      } else {
        GetConserves(s, c, e);
      }
    case Settle(c, winner) => SettleConserves(s, c, winner);
    case Cancel(c) => CancelConserves(s, c);
    case Drain(g) => DrainConserves(s, g);
    case GiveBack(c) => GiveBackConserves(s, c);
    case Add(e) => AddConserves(s, e);
    case Remove(e) => RemoveConserves(s, e);
    case SetKind(e, kind) =>
      assert forall f: Endpoint :: Tokens(Step(s, a), f) == Tokens(s, f);
  }

  function Start(endpoints: seq<Endpoint>, clients: nat): State {
    State(Fresh(endpoints), seq(clients, _ => Idle), multiset{}, multiset{})
  }

  lemma {:induction false} FreshQueuesMade(endpoints: seq<Endpoint>)
    ensures forall q <- Fresh(endpoints).full :: q < Fresh(endpoints).made
  {
    if endpoints != [] {
      FreshQueuesMade(endpoints[..|endpoints| - 1]);
    }
  }

  lemma StartConserves(endpoints: seq<Endpoint>, clients: nat)
    ensures Conserved(Start(endpoints, clients))
  {
    var s := Start(endpoints, clients);
    FreshIsFull(endpoints);
    FreshQueuesMade(endpoints);
    forall e: Endpoint
      ensures Tokens(s, e) == if e in s.pool.slots then 1 else 0
    {
      NobodyHas(s.clients, e);
    }
  }

  /**
   Over every interleaving, cancelled acquires included, in which no endpoint is removed while
   a client is busy with it, each endpoint keeps exactly one token: in its slot, with one
   client, or lost.
   */
  lemma {:induction false} RunConserves(s: State, run: seq<Action>)
    requires Conserved(s) && IsRun(s, run)
    ensures Conserved(After(s, run))
    decreases |run|
  {
    if run != [] {
      StepConserves(s, run[0]);
      RunConserves(Step(s, run[0]), run[1..]);
    }
  }

  // ---------------------------------------------------------------------------
  // Exclusion
  // ---------------------------------------------------------------------------

  /** No endpoint has two holders, and every holder can give its endpoint back. */
  ghost predicate Exclusive(s: State) {
    && (forall c, d :: 0 <= c < d < |s.clients| && s.clients[c].Holding? && s.clients[d].Holding? ==>
          s.clients[c].endpoint != s.clients[d].endpoint)
    && (forall c :: 0 <= c < |s.clients| && s.clients[c].Holding? ==> PutBack(s.pool, s.clients[c].endpoint).Ok?)
  }

  lemma ConservedIsExclusive(s: State)
    requires Conserved(s)
    ensures Exclusive(s)
  {
    forall c | 0 <= c < |s.clients| && s.clients[c].Holding?
      ensures PutBack(s.pool, s.clients[c].endpoint).Ok?
      ensures forall d :: c < d < |s.clients| ==> s.clients[d] != s.clients[c]
    {
      TokenInHand(s, c, s.clients[c].endpoint);
      forall d | c < d < |s.clients|
        ensures s.clients[d] != s.clients[c]
      {
        if s.clients[d] == s.clients[c] {
          TwoInHand(s.clients, c, d, s.clients[c].endpoint);
        }
      }
    }
  }

  /** So no endpoint ever has two holders, and giving an endpoint back never fails. */
  lemma OneHolderAndSafeRelease(endpoints: seq<Endpoint>, clients: nat, run: seq<Action>)
    requires IsRun(Start(endpoints, clients), run)
    ensures Exclusive(After(Start(endpoints, clients), run))
  {
    StartConserves(endpoints, clients);
    RunConserves(Start(endpoints, clients), run);
    ConservedIsExclusive(After(Start(endpoints, clients), run));
  }

  /** Some run from here ends with two holders of one endpoint, or with one that cannot give it back. */
  ghost predicate CanBreak(s: State) {
    exists run :: IsRun(s, run) && !Exclusive(After(s, run))
  }

  lemma BreaksLater(s: State, a: Action)
    requires Enabled(s, a) && Quiet(s, a) && CanBreak(Step(s, a))
    ensures CanBreak(s)
  {
    var run :| IsRun(Step(s, a), run) && !Exclusive(After(Step(s, a), run));
    assert ([a] + run)[1..] == run;
    assert IsRun(s, [a] + run);
  }

  lemma TwoHoldersBreak(s: State, c: nat, d: nat, e: Endpoint)
    requires c < |s.clients| && d < |s.clients| && c != d && s.clients[c] == s.clients[d] == Holding(e)
    ensures CanBreak(s)
  {
    assert IsRun(s, []);
    assert !Exclusive(After(s, []));
  }

  /** While a client holds an endpoint that the pool no longer has, adding it lets any idle client get it too. */
  lemma HeldOutsideBreaks(s: State, c: nat, d: nat, e: Endpoint)
    requires c < |s.clients| && d < |s.clients| && s.clients[c] == Holding(e) && s.clients[d].Idle?
      && e !in s.pool.slots
    ensures CanBreak(s)
  {
    var s1 := Step(s, Add(e));
    var s2 := Step(s1, Begin(d, Routed(e, None)));
    TwoHoldersBreak(Step(s2, Get(d, e)), c, d, e);
    BreaksLater(s2, Get(d, e));
    BreaksLater(s1, Begin(d, Routed(e, None)));
    BreaksLater(s, Add(e));
  }

  lemma GotOutsideBreaks(s: State, c: nat, d: nat, e: Endpoint)
    requires c < |s.clients| && d < |s.clients| && s.clients[d].Idle? && e !in s.pool.slots
    requires s.clients[c].Racing? && e in s.clients[c].got
    ensures CanBreak(s)
  {
    HeldOutsideBreaks(Step(s, Settle(c, e)), c, d, e);
    BreaksLater(s, Settle(c, e));
  }

  lemma WaitingOutsideBreaks(s: State, c: nat, d: nat, e: Endpoint)
    requires c < |s.clients| && d < |s.clients| && s.clients[d].Idle? && e !in s.pool.slots
    requires s.clients[c].Waiting? && MayGet(s, c, e)
    ensures CanBreak(s)
  {
    var required := s.clients[c].required;
    var kind := SetKind(e, if required.Some? then required.value else Authenticated);
    var s1 := Step(s, kind);
    HeldOutsideBreaks(Step(s1, Get(c, e)), c, d, e);
    BreaksLater(s1, Get(c, e));
    BreaksLater(s, kind);
  }

  lemma BusyOutsideBreaks(s: State, c: nat, d: nat, e: Endpoint)
    requires c < |s.clients| && d < |s.clients| && s.clients[d].Idle? && e !in s.pool.slots && Busy(s, c, e)
    ensures CanBreak(s)
  {
    if s.clients[c].Holding? {
      HeldOutsideBreaks(s, c, d, e);
    } else if s.clients[c].Waiting? {
      WaitingOutsideBreaks(s, c, d, e);
    } else if e in s.clients[c].got {
      GotOutsideBreaks(s, c, d, e);
    } else {
      GotOutsideBreaks(Step(s, Get(c, e)), c, d, e);
      BreaksLater(s, Get(c, e));
    }
  }

  /**
   With a client free to acquire, removing an endpoint keeps exclusion and safe release over
   every later run if and only if no client is busy with the endpoint: none holds it, and none
   of their getters has or can get its token. Getters of cancelled races do not matter.
   */
  lemma RemovalSafeIff(s: State, e: Endpoint, d: nat)
    requires Conserved(s) && e in s.pool.slots && d < |s.clients| && s.clients[d].Idle?
    ensures (forall c :: 0 <= c < |s.clients| ==> !Busy(s, c, e)) <==> !CanBreak(Step(s, Remove(e)))
  {
    var t := Step(s, Remove(e));
    if c :| 0 <= c < |s.clients| && Busy(s, c, e) {
      BusyOutsideBreaks(t, c, d, e);
    } else {
      RemoveConserves(s, e);
      forall run | IsRun(t, run)
        ensures Exclusive(After(t, run))
      {
        RunConserves(t, run);
        ConservedIsExclusive(After(t, run));
      }
    }
  }

  // ---------------------------------------------------------------------------
  // Losses
  // ---------------------------------------------------------------------------

  /**
   The tokens that a step loses: all but the winner's of a race's finished getters, all that a
   cancelled race has got, and the one that a getter of a cancelled race takes from a present slot.
   */
  function Spare(s: State, a: Action): nat
    requires Enabled(s, a)
  {
    match a
    case Settle(c, _) => |s.clients[c].got| - 1
    case Cancel(c) => if s.clients[c].Racing? then |s.clients[c].got| else 0
    case Drain(g) => if IsPresent(s.pool, g) then 1 else 0
    case _ => 0
  }

  /** The lost tokens that a step replaces. */
  function Healed(s: State, a: Action): nat {
    if a.Remove? && a.e in s.pool.slots then s.lost[a.e] else 0
  }

  /**
   A race settled with d getters done loses exactly d - 1 tokens and one cancelled with d done
   all d; every later finish of its getters on a present slot loses one more. Removing an
   endpoint forgets its loss, and nothing else changes what is lost.
   */
  lemma LossPerStep(s: State, a: Action)
    requires Enabled(s, a)
    ensures |Step(s, a).lost| + Healed(s, a) == |s.lost| + Spare(s, a)
    ensures forall e: Endpoint :: a != Remove(e) ==> s.lost[e] <= Step(s, a).lost[e]
  {
    hide Begun, Received, Cancelled, Emptied, PutBack, Added, Removed;
    match a
    case Get(c, e) => GetLosesNothing(s, c, e);
    case Remove(e) => Forgets(s.lost, e);
    case Settle(c, winner) => AllButOne(s.clients[c].got, winner);
    case Cancel(c) => CancelLosesAll(s, c);
    case _ =>
  }

  lemma GetLosesNothing(s: State, c: nat, e: Endpoint)
    requires Enabled(s, Get(c, e))
    ensures Step(s, Get(c, e)).lost == s.lost
  {
    hide Emptied, PutBack, KindOf;
  }

  lemma CancelLosesAll(s: State, c: nat)
    requires Enabled(s, Cancel(c))
    ensures Step(s, Cancel(c)).lost == s.lost + if s.clients[c].Racing? then multiset(s.clients[c].got) else multiset{}
  {}

  lemma Forgets(lost: multiset<Endpoint>, e: Endpoint)
    ensures |lost[e := 0]| + lost[e] == |lost|
  {
    assert lost == lost[e := 0] + multiset{}[e := lost[e]];
  }

  lemma AllButOne(got: set<Endpoint>, winner: Endpoint)
    requires winner in got
    ensures |multiset(got - {winner})| == |got| - 1
  {}

  ghost function SpareOver(s: State, run: seq<Action>): nat
    requires IsRun(s, run)
    decreases |run|
  {
    if run == [] then 0 else Spare(s, run[0]) + SpareOver(Step(s, run[0]), run[1..])
  }

  ghost function HealedOver(s: State, run: seq<Action>): nat
    requires IsRun(s, run)
    decreases |run|
  {
    if run == [] then 0 else Healed(s, run[0]) + HealedOver(Step(s, run[0]), run[1..])
  }

  /** Over every run, what is lost at the end is what was lost before and on the way, less what removals replaced. */
  lemma {:induction false} LossesAddUp(s: State, run: seq<Action>)
    requires IsRun(s, run)
    ensures |After(s, run).lost| + HealedOver(s, run) == |s.lost| + SpareOver(s, run)
    decreases |run|
  {
    if run != [] {
      LossPerStep(s, run[0]);
      LossesAddUp(Step(s, run[0]), run[1..]);
    }
  }

  /**
   A race is settled with one getter done, a cancelled one has got nothing yet, and a getter of
   a cancelled race finishes only on a queue that is no longer a slot.
   */
  predicate Keeps(s: State, a: Action)
    requires Enabled(s, a)
  {
    match a
    case Settle(c, winner) => s.clients[c].got == {winner}
    case Cancel(c) => s.clients[c].Racing? ==> s.clients[c].got == {}
    case Drain(g) => !IsPresent(s.pool, g)
    case _ => true
  }

  ghost predicate KeepsAll(s: State, run: seq<Action>)
    requires IsRun(s, run)
    decreases |run|
  {
    run == [] || (Keeps(s, run[0]) && KeepsAll(Step(s, run[0]), run[1..]))
  }

  lemma KeepsIff(s: State, a: Action)
    requires Enabled(s, a)
    ensures Keeps(s, a) <==> Spare(s, a) == 0
  {
    if a.Settle? {
      assert s.clients[a.c].got == {a.winner} + (s.clients[a.c].got - {a.winner});
    }
  }

  ghost predicate NeverLacks(s: State, run: seq<Action>)
    requires IsRun(s, run)
  {
    forall n :: 0 <= n <= |run| ==> IsRun(s, run[..n]) && After(s, run[..n]).lost == multiset{}
  }

  lemma NeverLacksStep(s: State, run: seq<Action>)
    requires IsRun(s, run) && run != []
    ensures NeverLacks(s, run) <==> s.lost == multiset{} && NeverLacks(Step(s, run[0]), run[1..])
  {
    var t := Step(s, run[0]);
    forall n | 0 <= n < |run|
      ensures IsRun(s, run[..n + 1]) <==> IsRun(t, run[1..][..n])
      ensures IsRun(t, run[1..][..n]) ==> After(s, run[..n + 1]) == After(t, run[1..][..n])
    {
      assert run[..n + 1][1..] == run[1..][..n];
    }
    if NeverLacks(s, run) {
      assert After(s, run[..0]) == s;
      forall n | 0 <= n <= |run[1..]|
        ensures IsRun(t, run[1..][..n]) && After(t, run[1..][..n]).lost == multiset{}
      {
        assert IsRun(s, run[..n + 1]);
      }
    }
    if s.lost == multiset{} && NeverLacks(t, run[1..]) {
      forall n | 0 <= n <= |run|
        ensures IsRun(s, run[..n]) && After(s, run[..n]).lost == multiset{}
      {
        if n > 0 {
          assert IsRun(t, run[1..][..n - 1]);
          assert IsRun(s, run[..n - 1 + 1]);
        }
      }
    }
  }

  /**
   Nothing is lost at any point of a run if and only if every race that was settled had exactly
   one getter done, every race that was cancelled had none, and no getter of a cancelled race
   finished on a present slot.
   */
  lemma {:induction false} NothingLostIff(s: State, run: seq<Action>)
    requires IsRun(s, run) && s.lost == multiset{}
    ensures NeverLacks(s, run) <==> KeepsAll(s, run)
    decreases |run|
  {
    if run == [] {
      assert forall n :: 0 <= n <= |run| ==> run[..n] == [];
    } else {
      var t := Step(s, run[0]);
      LossPerStep(s, run[0]);
      KeepsIff(s, run[0]);
      NeverLacksStep(s, run);
      if t.lost == multiset{} {
        NothingLostIff(t, run[1..]);
      } else {
        assert run[1..][..0] == [];
      }
    }
  }

  lemma {:induction false} LostStays(s: State, run: seq<Action>, e: Endpoint)
    requires IsRun(s, run) && Remove(e) !in run
    ensures s.lost[e] <= After(s, run).lost[e]
    decreases |run|
  {
    if run != [] {
      LossPerStep(s, run[0]);
      LostStays(Step(s, run[0]), run[1..], e);
    }
  }

  /** A lost token is lost until its endpoint is removed: its slot stays empty and nobody gets it. */
  lemma LostUntilRemoved(s: State, run: seq<Action>, e: Endpoint)
    requires Conserved(s) && IsRun(s, run) && s.lost[e] > 0 && Remove(e) !in run
    ensures var t := After(s, run);
      && e in t.pool.slots && !Full(t.pool, e)
      && forall c :: 0 <= c < |t.clients| ==> !Busy(t, c, e)
  {
    RunConserves(s, run);
    LostStays(s, run, e);
    var t := After(s, run);
    assert Tokens(t, e) == if e in t.pool.slots then 1 else 0;
    forall c | 0 <= c < |t.clients|
      ensures !Busy(t, c, e)
    {
      InHandAtLeast(t.clients, c, e);
      assert ClientFits(t.pool, t.clients[c]);
    }
  }

  /** Removing it is always safe, and adding it again makes it available. */
  lemma RemovalHeals(s: State, e: Endpoint)
    requires Conserved(s) && s.lost[e] > 0
    ensures Quiet(s, Remove(e))
    ensures var t := Step(Step(s, Remove(e)), Add(e));
      Conserved(t) && Full(t.pool, e) && t.lost[e] == 0
  {
    assert IsRun(s, []);
    LostUntilRemoved(s, [], e);
    RemoveConserves(s, e);
    AddConserves(Step(s, Remove(e)), e);
  }

  // ---------------------------------------------------------------------------
  // Cancelled races drain the pool
  // ---------------------------------------------------------------------------

  /** No race has got any of these endpoints. */
  ghost predicate OnlyHeld(s: State, endpoints: set<Endpoint>) {
    forall c, e :: 0 <= c < |s.clients| && e in endpoints && Has(s.clients[c], e) == 1 ==> s.clients[c].Holding?
  }

  /** A getter of a cancelled race waits on the slot of each of these endpoints that is not lost yet. */
  ghost predicate Haunted(s: State, endpoints: set<Endpoint>) {
    forall e <- endpoints :: e in s.pool.slots && (s.lost[e] == 0 ==> Getter(e, s.pool.slots[e]) in s.orphans)
  }

  lemma {:induction false} SomeoneHas(clients: seq<Client>, e: Endpoint) returns (c: nat)
    requires InHand(clients, e) > 0
    ensures c < |clients| && Has(clients[c], e) == 1
  {
    var last := |clients| - 1;
    if Has(clients[last], e) == 1 {
      c := last;
    } else {
      c := SomeoneHas(clients[..last], e);
    }
  }

  ghost predicate OnlyReturns(run: seq<Action>) {
    forall a <- run :: a.GiveBack? || a.Drain?
  }

  /** Nobody has these endpoints and nobody can get them: their slots are empty and their tokens lost. */
  ghost predicate AllLost(s: State, endpoints: set<Endpoint>) {
    forall e <- endpoints :: e in s.pool.slots && s.lost[e] == 1 && !Full(s.pool, e) && InHand(s.clients, e) == 0
  }

  /** A haunted endpoint comes back to its slot, at once or when its holder gives it back. */
  lemma ComesBack(s: State, endpoints: set<Endpoint>, e: Endpoint) returns (run: seq<Action>)
    requires Conserved(s) && OnlyHeld(s, endpoints) && Haunted(s, endpoints)
    requires e in endpoints && s.lost[e] == 0
    ensures IsRun(s, run) && OnlyReturns(run)
    ensures var t := After(s, run);
      && Conserved(t) && OnlyHeld(t, endpoints) && Haunted(t, endpoints) && Full(t.pool, e)
      && t.orphans == s.orphans && t.lost == s.lost
  {
    assert Tokens(s, e) == 1;
    if Full(s.pool, e) {
      run := [];
    } else {
      var c := SomeoneHas(s.clients, e);
      assert s.clients[c] == Holding(e);
      var t := Step(s, GiveBack(c));
      GiveBackConserves(s, c);
      run := [GiveBack(c)];
      assert IsRun(t, run[1..]) && After(s, run) == t;
    }
  }

  lemma {:induction false} RunOn(s: State, run: seq<Action>, more: seq<Action>)
    requires IsRun(s, run) && IsRun(After(s, run), more)
    ensures IsRun(s, run + more) && After(s, run + more) == After(After(s, run), more)
    decreases |run|
  {
    hide Step, Enabled, Quiet;
    if run == [] {
      assert run + more == more;
    } else {
      RunOn(Step(s, run[0]), run[1..], more);
      assert (run + more)[1..] == run[1..] + more;
    }
  }

  /** Holders that give back what they hold can lose all of it to the getters of cancelled races. */
  lemma {:induction false} OrphansDrain(s: State, endpoints: set<Endpoint>) returns (run: seq<Action>)
    requires Conserved(s) && OnlyHeld(s, endpoints) && Haunted(s, endpoints)
    ensures IsRun(s, run) && OnlyReturns(run) && AllLost(After(s, run), endpoints)
    decreases |s.orphans|
  {
    if e :| e in endpoints && s.lost[e] == 0 {
      var back := ComesBack(s, endpoints, e);
      var t := After(s, back);
      var g := Getter(e, t.pool.slots[e]);
      var u := Step(t, Drain(g));
      DrainConserves(t, g);
      var rest := OrphansDrain(u, endpoints);
      assert ([Drain(g)] + rest)[1..] == rest;
      RunOn(s, back, [Drain(g)] + rest);
      run := back + ([Drain(g)] + rest);
    } else {
      run := [];
      forall e <- endpoints
        ensures s.lost[e] == 1 && !Full(s.pool, e) && InHand(s.clients, e) == 0
      {
        assert Tokens(s, e) == 1;
      }
    }
  }

  /**
   A cancelled race can drain its slots: in every state in which the other clients hold what
   they have, once the acquire is cancelled and the holders give their endpoints back, all its
   candidates may be lost. An unrouted acquire drains the whole pool.
   */
  lemma CancelledRaceDrains(s: State, c: nat) returns (run: seq<Action>)
    requires Conserved(s) && c < |s.clients| && s.clients[c].Racing?
    requires forall e <- s.clients[c].candidates :: IsPresent(s.pool, Getter(e, s.clients[c].candidates[e]))
    requires OnlyHeld(s.(clients := s.clients[c := Idle]), s.clients[c].candidates.Keys)
    ensures IsRun(s, [Cancel(c)] + run) && OnlyReturns(run)
    ensures AllLost(After(s, [Cancel(c)] + run), s.clients[c].candidates.Keys)
  {
    var t := Step(s, Cancel(c));
    CancelConserves(s, c);
    run := OrphansDrain(t, s.clients[c].candidates.Keys);
    assert ([Cancel(c)] + run)[1..] == run;
  }

  lemma UnroutedRaces(s: State, c: nat)
    requires c < |s.clients| && s.clients[c].Idle? && s.pool.slots != map[]
    ensures Enabled(s, Begin(c, Unrouted(None)))
    ensures Quiet(s, Begin(c, Unrouted(None)))
    ensures Step(s, Begin(c, Unrouted(None))) == s.(clients := s.clients[c := Racing(s.pool.slots, {})])
  {
    var e :| e in s.pool.slots;
    assert e in s.pool.slots.Keys;
    assert (map f | f in s.pool.slots.Keys && f in s.pool.slots :: s.pool.slots[f]) == s.pool.slots;
  }

  /**
   So in every state without a race that has got something, one cancelled unrouted acquire can
   drain the whole pool.
   */
  lemma CancelledAcquireDrainsThePool(s: State, c: nat) returns (run: seq<Action>)
    requires Conserved(s) && c < |s.clients| && s.clients[c].Idle? && s.pool.slots != map[]
    requires OnlyHeld(s, s.pool.slots.Keys)
    ensures IsRun(s, [Begin(c, Unrouted(None)), Cancel(c)] + run) && OnlyReturns(run)
    ensures AllLost(After(s, [Begin(c, Unrouted(None)), Cancel(c)] + run), s.pool.slots.Keys)
  {
    hide Conserved, Enabled, Quiet, Step, OnlyHeld, IsPresent, OnlyReturns, AllLost;
    UnroutedRaces(s, c);
    var t := Step(s, Begin(c, Unrouted(None)));
    BeginConserves(s, c, Unrouted(None));
    RacingIsReady(s, t, c);
    run := CancelledRaceDrains(t, c);
    assert ([Begin(c, Unrouted(None)), Cancel(c)] + run)[1..] == [Cancel(c)] + run;
  }

  lemma RacingIsReady(s: State, t: State, c: nat)
    requires c < |s.clients| && t == s.(clients := s.clients[c := Racing(s.pool.slots, {})])
    requires OnlyHeld(s, s.pool.slots.Keys)
    ensures forall e <- t.clients[c].candidates :: IsPresent(t.pool, Getter(e, t.clients[c].candidates[e]))
    ensures OnlyHeld(t.(clients := t.clients[c := Idle]), t.clients[c].candidates.Keys)
  {
    assert forall d :: 0 <= d < |s.clients| && d != c ==> t.clients[c := Idle][d] == s.clients[d];
  }

  /**
   The plainest breach: an endpoint is removed while it is held and added again, any idle
   client gets it too, and the second of the two releases overflows the slot.
   */
  lemma RemoveWhileHeldBreaks(s: State, c: nat, d: nat, e: Endpoint)
    requires c < |s.clients| && d < |s.clients| && s.clients[c] == Holding(e) && s.clients[d].Idle? && e in s.pool.slots
    ensures var s1 := Step(Step(s, Remove(e)), Add(e));
      var request := Begin(d, Routed(e, None));
      && Enabled(s1, request)
      && var s2 := Step(s1, request);
      && Enabled(s2, Get(d, e))
      && var s3 := Step(s2, Get(d, e));
      && s3.clients[c] == Holding(e) && s3.clients[d] == Holding(e)
      && PutBack(s3.pool, e).Ok?
      && PutBack(Step(s3, GiveBack(c)).pool, e) == Err(SlotFull)
  {}
}
