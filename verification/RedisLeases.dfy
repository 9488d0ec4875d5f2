/**
 The distributed browser pool (backend/browser_pool.py:270-439): per endpoint a fence counter
 and a lease that expires. Taking a lease is two commands, INCR and SET NX PX; renewing and
 releasing are one compare-and-act script each. Time is in milliseconds.
 */
module RedisLeases {
  import opened Common
  import opened Decimal

  const TTL := 30000

  // ---------------------------------------------------------------------------
  // Keys
  // ---------------------------------------------------------------------------

  /** s.replace(part, subst), left to right. */
  function Replace(s: string, part: string, subst: string): string
    requires part != ""
  {
    if s == "" then ""
    else if part <= s then subst + Replace(s[|part|..], part, subst)
    else [s[0]] + Replace(s[1..], part, subst)
  }

  /** The part of a key that names the endpoint. */
  function Safe(endpoint: string): string {
    Replace(Replace(Replace(endpoint, "://", "_"), ":", "_"), "/", "_")
  }

  /** The endpoint with every "://" written as a single separator. */
  function Collapsed(endpoint: string): string {
    Replace(endpoint, "://", ":")
  }

  /** What a key cannot tell apart; the underscore that stands for a separator is itself one of them. */
  predicate IsSeparator(c: char) {
    c == ':' || c == '/' || c == '_'
  }

  /** Equal in length, and at every position equal or both a separator. */
  ghost predicate SameUpToSeparators(a: string, b: string) {
    |a| == |b| && forall i :: 0 <= i < |a| ==> a[i] == b[i] || (IsSeparator(a[i]) && IsSeparator(b[i]))
  }

  lemma {:induction false} ReplaceChar(s: string, c: char)
    ensures |Replace(s, [c], "_")| == |s|
    ensures forall i :: 0 <= i < |s| ==> Replace(s, [c], "_")[i] == if s[i] == c then '_' else s[i]
  {
    if s != "" {
      assert [c] <= s <==> s[0] == c;
      ReplaceChar(s[1..], c);
    }
  }

  /** Whatever "://" becomes, it becomes one character; all others stay. */
  lemma {:induction false} CollapsedAt(s: string)
    ensures var short, under := Replace(s, "://", ":"), Replace(s, "://", "_");
      && |short| == |under|
      && forall i :: 0 <= i < |short| ==> under[i] == short[i] || (short[i] == ':' && under[i] == '_')
  {
    if s != "" {
      if "://" <= s {
        CollapsedAt(s[3..]);
      } else {
        CollapsedAt(s[1..]);
      }
    }
  }

  lemma SafeAt(endpoint: string)
    ensures |Safe(endpoint)| == |Collapsed(endpoint)|
    ensures forall i :: 0 <= i < |Safe(endpoint)| ==>
      Safe(endpoint)[i] == if IsSeparator(Collapsed(endpoint)[i]) then '_' else Collapsed(endpoint)[i]
  {
    var first := Replace(endpoint, "://", "_");
    CollapsedAt(endpoint);
    ReplaceChar(first, ':');
    ReplaceChar(Replace(first, ":", "_"), '/');
  }

  /**
   Two endpoints share their key, and so exclude each other, if and only if they differ in
   their separators alone, counting "://" as one separator and the underscore as another.
   */
  lemma KeysCollideIff(a: string, b: string)
    ensures Safe(a) == Safe(b) <==> SameUpToSeparators(Collapsed(a), Collapsed(b))
  {
    SafeAt(a);
    SafeAt(b);
    if SameUpToSeparators(Collapsed(a), Collapsed(b)) {
      assert forall i :: 0 <= i < |Safe(a)| ==> Safe(a)[i] == Safe(b)[i];
    } else if |Collapsed(a)| == |Collapsed(b)| {
      var i :| 0 <= i < |Collapsed(a)| && Collapsed(a)[i] != Collapsed(b)[i]
        && !(IsSeparator(Collapsed(a)[i]) && IsSeparator(Collapsed(b)[i]));
      assert Safe(a)[i] != Safe(b)[i];
    }
  }

  // ---------------------------------------------------------------------------
  // Owners
  // ---------------------------------------------------------------------------

  function OwnerName(fence: nat, uuid: string): string {
    PrintNat(fence) + ":" + uuid
  }

  lemma NumeralsHaveNoColon(n: nat)
    ensures forall i :: 0 <= i < |PrintNat(n)| ==> PrintNat(n)[i] != ':'
  {}

  /** Owner names of different fences differ, whatever the UUIDs. */
  lemma OwnerNamesDiffer(f: nat, u: string, g: nat, v: string)
    requires OwnerName(f, u) == OwnerName(g, v)
    ensures f == g
  {
    var a, b := PrintNat(f), PrintNat(g);
    PrintedDigitsParse(f);
    PrintedDigitsParse(g);
    NumeralsHaveNoColon(f);
    NumeralsHaveNoColon(g);
    assert OwnerName(f, u)[|a|] == ':' && OwnerName(g, v)[|b|] == ':';
    assert OwnerName(f, u)[..|a|] == a && OwnerName(g, v)[..|b|] == b;
  }

  datatype Lease = Lease(owner: string, expires: int)

  datatype Store = Store(fences: map<string, nat>, leases: map<string, Lease>, now: int)

  function FenceOf(r: Store, key: string): nat {
    if key in r.fences then r.fences[key] else 0
  }

  /** The stored owner, None once the lease expired. */
  function OwnerOf(r: Store, key: string): Option<string> {
    if key in r.leases && r.now < r.leases[key].expires then Some(r.leases[key].owner) else None
  }

  function Incremented(r: Store, key: string): Store {
    r.(fences := r.fences[key := FenceOf(r, key) + 1])
  }

  /** SET NX PX */
  function Taken(r: Store, key: string, owner: string): Store {
    if OwnerOf(r, key).Some? then r else r.(leases := r.leases[key := Lease(owner, r.now + TTL)])
  }

  function Renewed(r: Store, key: string, owner: string): Store {
    if OwnerOf(r, key) == Some(owner) then r.(leases := r.leases[key := Lease(owner, r.now + TTL)]) else r
  }

  function Released(r: Store, key: string, owner: string): Store {
    if OwnerOf(r, key) == Some(owner) then r.(leases := r.leases - {key}) else r
  }

  // ---------------------------------------------------------------------------
  // One undisturbed pass over the candidates
  // ---------------------------------------------------------------------------

  /** The first candidate whose lease is free, |keys| if none is. */
  function FirstFree(r: Store, keys: seq<string>): (n: nat)
    ensures n <= |keys|
    ensures forall i :: 0 <= i < n ==> OwnerOf(r, keys[i]).Some?
    ensures n < |keys| ==> OwnerOf(r, keys[n]).None?
  {
    if keys == [] || OwnerOf(r, keys[0]).None? then 0 else 1 + FirstFree(r, keys[1..])
  }

  function IncrementedAll(r: Store, keys: seq<string>): Store {
    if keys == [] then r else Incremented(IncrementedAll(r, keys[..|keys| - 1]), keys[|keys| - 1])
  }

  lemma {:induction false} IncrementsKeepLeases(r: Store, keys: seq<string>)
    ensures IncrementedAll(r, keys).leases == r.leases && IncrementedAll(r, keys).now == r.now
  {
    if keys != [] {
      IncrementsKeepLeases(r, keys[..|keys| - 1]);
    }
  }

  class LeaseStore {
    var fences: map<string, nat>
    var leases: map<string, Lease>
    var now: int

    function View(): Store
      reads this
    {
      Store(fences, leases, now)
    }

    method Incr(key: string) returns (fence: nat)
      modifies this`fences
      ensures View() == Incremented(old(View()), key)
      ensures fence == FenceOf(View(), key) > old(FenceOf(View(), key))
    {
      fence := if key in fences then fences[key] + 1 else 1;
      fences := fences[key := fence];
    }

    method SetNx(key: string, owner: string) returns (taken: bool)
      modifies this`leases
      ensures View() == Taken(old(View()), key, owner)
      ensures taken <==> OwnerOf(old(View()), key).None?
    {
      taken := !(key in leases && now < leases[key].expires);
      if taken {
        leases := leases[key := Lease(owner, now + TTL)];
      }
    }

    method Renew(key: string, owner: string) returns (renewed: bool)
      modifies this`leases
      ensures View() == Renewed(old(View()), key, owner)
      ensures renewed <==> OwnerOf(old(View()), key) == Some(owner)
    {
      renewed := key in leases && now < leases[key].expires && leases[key].owner == owner;
      if renewed {
        leases := leases[key := Lease(owner, now + TTL)];
      }
    }

    method Release(key: string, owner: string) returns (released: bool)
      modifies this`leases
      ensures View() == Released(old(View()), key, owner)
      ensures released <==> OwnerOf(old(View()), key) == Some(owner)
    {
      released := key in leases && now < leases[key].expires && leases[key].owner == owner;
      if released {
        leases := leases - {key};
      }
    }

    /**
     One pass of the acquire loop, undisturbed: it takes the first free candidate and no
     other, and draws a fence for every candidate it looked at.
     */
    method TryCandidates(keys: seq<string>, uuids: seq<string>) returns (won: nat, owner: string)
      requires |uuids| == |keys|
      modifies this
      ensures won == old(FirstFree(View(), keys))
      ensures won == |keys| ==> View() == IncrementedAll(old(View()), keys)
      ensures won < |keys| ==> View() == Taken(IncrementedAll(old(View()), keys[..won + 1]), keys[won], owner)
      ensures won < |keys| ==> owner == OwnerName(FenceOf(View(), keys[won]), uuids[won])
      ensures won < |keys| ==> OwnerOf(View(), keys[won]) == Some(owner)
    {
      owner := "";
      for i := 0 to |keys|
        invariant View() == IncrementedAll(old(View()), keys[..i])
        invariant old(FirstFree(View(), keys)) == i + old(FirstFree(View(), keys[i..]))
      {
        IncrementsKeepLeases(old(View()), keys[..i]);
        assert keys[..i + 1][..i] == keys[..i];
        assert keys[i..][1..] == keys[i + 1..];
        var fence := Incr(keys[i]);
        owner := OwnerName(fence, uuids[i]);
        var taken := SetNx(keys[i], owner);
        if taken {
          return i, owner;
        }
      }
      assert keys[..|keys|] == keys;
      return |keys|, owner;
    }
  }

  // ---------------------------------------------------------------------------
  // Any number of workers, interleaved command by command
  // ---------------------------------------------------------------------------

  /** `since` is when a holder last heard that the lease was its own. */
  datatype Client =
    | Idle
    | Claiming(key: string, fence: nat, uuid: string)
    | Holding(key: string, fence: nat, uuid: string, since: int)

  datatype State = State(store: Store, clients: seq<Client>)

  datatype Action =
    | Draw(c: nat, key: string, uuid: string)
    | Claim(c: nat)
    | KeepAlive(c: nat)
    | GiveBack(c: nat)
    | Wait(ms: nat)

  predicate Enabled(s: State, a: Action) {
    match a
    case Draw(c, _, _) => c < |s.clients| && s.clients[c].Idle?
    case Claim(c) => c < |s.clients| && s.clients[c].Claiming?
    case KeepAlive(c) => c < |s.clients| && s.clients[c].Holding?
    case GiveBack(c) => c < |s.clients| && s.clients[c].Holding?
    case Wait(_) => true
  }

  function Name(c: Client): string
    requires !c.Idle?
  {
    OwnerName(c.fence, c.uuid)
  }

  function Step(s: State, a: Action): State
    requires Enabled(s, a)
  {
    match a
    case Draw(c, key, uuid) =>
      var store := Incremented(s.store, key);
      State(store, s.clients[c := Claiming(key, FenceOf(store, key), uuid)])
    case Claim(c) =>
      var me := s.clients[c];
      if OwnerOf(s.store, me.key).Some? then State(s.store, s.clients[c := Idle])
      else State(Taken(s.store, me.key, Name(me)), s.clients[c := Holding(me.key, me.fence, me.uuid, s.store.now)])
    case KeepAlive(c) =>
      var me := s.clients[c];
      if OwnerOf(s.store, me.key) != Some(Name(me)) then s
      else State(Renewed(s.store, me.key, Name(me)), s.clients[c := me.(since := s.store.now)])
    case GiveBack(c) =>
      State(Released(s.store, s.clients[c].key, Name(s.clients[c])), s.clients[c := Idle])
    case Wait(ms) => s.(store := s.store.(now := s.store.now + ms))
  }

  ghost predicate IsRun(s: State, run: seq<Action>)
    decreases |run|
  {
    run == [] || (Enabled(s, run[0]) && IsRun(Step(s, run[0]), run[1..]))
  }

  ghost function After(s: State, run: seq<Action>): State
    requires IsRun(s, run)
    decreases |run|
  {
    if run == [] then s else After(Step(s, run[0]), run[1..])
  }

  /** A client whose last confirmation is within the lease's lifetime. */
  predicate Confirmed(s: State, c: Client) {
    c.Holding? && s.store.now < c.since + TTL
  }

  /** While it is confirmed its lease is stored, and a lease under its name expires by its confirmation. */
  ghost predicate Backed(s: State, c: Client) {
    c.Holding? ==>
      && (Confirmed(s, c) ==> c.key in s.store.leases && s.store.leases[c.key].owner == Name(c))
      && (c.key in s.store.leases && s.store.leases[c.key].owner == Name(c) ==>
            s.store.leases[c.key].expires == c.since + TTL)
  }

  ghost predicate FencesDrawn(s: State) {
    forall i :: 0 <= i < |s.clients| && !s.clients[i].Idle? ==>
      s.clients[i].fence <= FenceOf(s.store, s.clients[i].key)
  }

  predicate SameKey(c: Client, d: Client) {
    !c.Idle? && !d.Idle? && c.key == d.key
  }

  ghost predicate FencesDiffer(s: State) {
    forall i, j :: 0 <= i < j < |s.clients| && SameKey(s.clients[i], s.clients[j]) ==>
      s.clients[i].fence != s.clients[j].fence
  }

  ghost predicate Inv(s: State) {
    && FencesDrawn(s)
    && FencesDiffer(s)
    && (forall i :: 0 <= i < |s.clients| ==> Backed(s, s.clients[i]))
  }

  lemma NamesDiffer(s: State, c: nat, d: nat)
    requires FencesDiffer(s) && c < |s.clients| && d < |s.clients| && c != d
    requires !s.clients[c].Idle? && !s.clients[d].Idle? && s.clients[c].key == s.clients[d].key
    ensures Name(s.clients[c]) != Name(s.clients[d])
  {
    var me, other := s.clients[c], s.clients[d];
    if Name(me) == Name(other) {
      OwnerNamesDiffer(me.fence, me.uuid, other.fence, other.uuid);
    }
  }

  lemma FencesStay(s: State, a: Action)
    requires FencesDrawn(s) && FencesDiffer(s) && Enabled(s, a)
    ensures FencesDrawn(Step(s, a)) && FencesDiffer(Step(s, a))
  {}

  /** No command of one client touches what is stored under the name of another. */
  lemma OthersStayBacked(s: State, a: Action, c: nat, d: nat)
    requires Inv(s) && Enabled(s, a) && (a == Claim(c) || a == KeepAlive(c) || a == GiveBack(c))
    requires c != d && d < |s.clients|
    ensures Backed(Step(s, a), Step(s, a).clients[d])
  {
    assert Backed(s, s.clients[d]);
    if s.clients[d].Holding? && s.clients[c].key == s.clients[d].key {
      NamesDiffer(s, c, d);
    }
  }

  lemma OwnStaysBacked(s: State, a: Action, c: nat)
    requires Inv(s) && Enabled(s, a) && (a == Claim(c) || a == KeepAlive(c) || a == GiveBack(c))
    ensures Backed(Step(s, a), Step(s, a).clients[c])
  {
    assert Backed(s, s.clients[c]);
  }

  lemma StepKeepsInv(s: State, a: Action)
    requires Inv(s) && Enabled(s, a)
    ensures Inv(Step(s, a))
  {
    FencesStay(s, a);
    forall i | 0 <= i < |s.clients|
      ensures Backed(Step(s, a), Step(s, a).clients[i])
    {
      assert Backed(s, s.clients[i]);
      if a.Claim? || a.KeepAlive? || a.GiveBack? {
        if a.c == i {
          OwnStaysBacked(s, a, i);
        } else {
          OthersStayBacked(s, a, a.c, i);
        }
      }
    }
  }

  lemma {:induction false} RunKeepsInv(s: State, run: seq<Action>)
    requires Inv(s) && IsRun(s, run)
    ensures Inv(After(s, run))
    decreases |run|
  {
    if run != [] {
      StepKeepsInv(s, run[0]);
      RunKeepsInv(Step(s, run[0]), run[1..]);
    }
  }

  function Start(store: Store, clients: nat): State {
    State(store, seq(clients, _ => Idle))
  }

  /**
   Over every interleaving, from any store: a client that believes it holds an endpoint is
   the stored owner if and only if it was confirmed within the lease's lifetime, and no two
   clients are confirmed for one endpoint.
   */
  lemma OneConfirmedHolder(store: Store, clients: nat, run: seq<Action>)
    requires IsRun(Start(store, clients), run)
    ensures var s := After(Start(store, clients), run);
      && (forall c :: 0 <= c < |s.clients| && s.clients[c].Holding? ==>
            (OwnerOf(s.store, s.clients[c].key) == Some(Name(s.clients[c])) <==> Confirmed(s, s.clients[c])))
      && (forall c, d :: 0 <= c < d < |s.clients| && Confirmed(s, s.clients[c]) && Confirmed(s, s.clients[d]) ==>
            s.clients[c].key != s.clients[d].key)
  {
    var s := After(Start(store, clients), run);
    RunKeepsInv(Start(store, clients), run);
    assert forall c :: 0 <= c < |s.clients| ==> Backed(s, s.clients[c]);
    forall c, d | 0 <= c < d < |s.clients| && Confirmed(s, s.clients[c]) && Confirmed(s, s.clients[d])
      ensures s.clients[c].key != s.clients[d].key
    {
      assert Backed(s, s.clients[c]) && Backed(s, s.clients[d]);
      if s.clients[c].key == s.clients[d].key {
        NamesDiffer(s, c, d);
        assert false;
      }
    }
  }

  /** A renewal or release that finds another owner stored changes nothing in the store. */
  lemma FormerOwnerIsHarmless(s: State, c: nat, a: Action, key: string)
    requires Inv(s) && Enabled(s, a) && (a == KeepAlive(c) || a == GiveBack(c))
    requires OwnerOf(s.store, key) != Some(Name(s.clients[c])) || s.clients[c].key != key
    ensures OwnerOf(Step(s, a).store, key) == OwnerOf(s.store, key)
    ensures OwnerOf(s.store, s.clients[c].key) != Some(Name(s.clients[c])) ==> Step(s, a).store == s.store
  {}

  // ---------------------------------------------------------------------------
  // Fences only grow, so a name that left the store never comes back
  // ---------------------------------------------------------------------------

  /** The name was drawn, is not stored as a live owner, and nobody is about to store it. */
  ghost predicate Gone(s: State, key: string, fence: nat, uuid: string) {
    && fence <= FenceOf(s.store, key)
    && OwnerOf(s.store, key) != Some(OwnerName(fence, uuid))
    && forall i :: 0 <= i < |s.clients| && s.clients[i].Claiming? && s.clients[i].key == key ==>
      s.clients[i].fence != fence
  }

  lemma GoneStays(s: State, a: Action, key: string, fence: nat, uuid: string)
    requires Enabled(s, a) && Gone(s, key, fence, uuid)
    ensures Gone(Step(s, a), key, fence, uuid)
    ensures FenceOf(s.store, key) <= FenceOf(Step(s, a).store, key)
  {
    if a.Claim? && s.clients[a.c].key == key {
      var me := s.clients[a.c];
      if Name(me) == OwnerName(fence, uuid) {
        OwnerNamesDiffer(me.fence, me.uuid, fence, uuid);
        assert false;
      }
    }
  }

  /**
   An owner name that is no longer stored is never stored again: not by a renewal, not by a
   later claim, whatever UUIDs are drawn. In particular a worker that lost its lease can
   never get it back under the old name.
   */
  lemma {:induction false} LostNameNeverReturns(s: State, run: seq<Action>, key: string, fence: nat, uuid: string)
    requires IsRun(s, run) && Gone(s, key, fence, uuid)
    ensures Gone(After(s, run), key, fence, uuid)
    decreases |run|
  {
    if run != [] {
      GoneStays(s, run[0], key, fence, uuid);
      LostNameNeverReturns(Step(s, run[0]), run[1..], key, fence, uuid);
    }
  }

  /** A holder that is not the stored owner has lost its name in that sense. */
  lemma OustedHolderIsGone(s: State, c: nat)
    requires Inv(s) && c < |s.clients| && s.clients[c].Holding?
    requires OwnerOf(s.store, s.clients[c].key) != Some(Name(s.clients[c]))
    ensures Gone(s, s.clients[c].key, s.clients[c].fence, s.clients[c].uuid)
  {}

  /**
   Holding is weaker than owning: a client that does not renew in time still believes it
   holds the endpoint while a second client takes the lease.
   */
  lemma TwoBelievers(s: State, c: nat, d: nat, uuid: string)
    requires Inv(s) && c < |s.clients| && d < |s.clients| && s.clients[c].Holding? && s.clients[d].Idle?
    requires s.clients[c].key in s.store.leases ==> s.store.leases[s.clients[c].key].expires <= s.store.now + TTL
    ensures var key := s.clients[c].key;
      var s1 := Step(s, Wait(TTL));
      var s2 := Step(s1, Draw(d, key, uuid));
      var s3 := Step(s2, Claim(d));
      s3.clients[c].Holding? && s3.clients[d].Holding? && s3.clients[c].key == s3.clients[d].key
        && !Confirmed(s3, s3.clients[c])
  {}

  // ---------------------------------------------------------------------------
  // What the commands mean
  // ---------------------------------------------------------------------------

  function OwnerAt(r: Store, key: string, now: int): Option<string> {
    OwnerOf(r.(now := now), key)
  }

  /** A claim of a free key, or a renewal by its owner, holds it for 30 seconds from now. */
  lemma LeaseLasts(r: Store, key: string, owner: string, later: int)
    requires later >= r.now
    ensures OwnerOf(r, key).None? ==>
      OwnerAt(Taken(r, key, owner), key, later) == if later < r.now + 30_000 then Some(owner) else None
    ensures OwnerOf(r, key) == Some(owner) ==>
      OwnerAt(Renewed(r, key, owner), key, later) == if later < r.now + 30_000 then Some(owner) else None
  {}

  /** A release by its owner frees the key for whoever claims it next. */
  lemma ReleaseFrees(r: Store, key: string, owner: string, next: string)
    requires OwnerOf(r, key) == Some(owner)
    ensures OwnerOf(Released(r, key, owner), key).None?
    ensures OwnerOf(Taken(Released(r, key, owner), key, next), key) == Some(next)
  {}

  /** No command touches another key, a claim of a held key changes nothing, and only a draw changes fences. */
  lemma CommandsStayInPlace(r: Store, key: string, owner: string, other: string)
    requires other != key
    ensures forall t <- [Taken(r, key, owner), Renewed(r, key, owner), Released(r, key, owner), Incremented(r, key)] ::
      (other in t.leases <==> other in r.leases) && (other in r.leases ==> t.leases[other] == r.leases[other])
      && t.now == r.now
    ensures OwnerOf(r, key).Some? ==> Taken(r, key, owner) == r
    ensures forall t <- [Taken(r, key, owner), Renewed(r, key, owner), Released(r, key, owner)] :: t.fences == r.fences
    ensures Incremented(r, key).leases == r.leases && FenceOf(Incremented(r, key), other) == FenceOf(r, other)
    ensures FenceOf(Incremented(r, key), key) == FenceOf(r, key) + 1
  {}
}
