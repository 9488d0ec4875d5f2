/**
 The catalog projected from a valid capability ledger
 (scripts/generate_capability_catalog.py:464-508), and its canonicity: neither acceptance nor
 the result depends on the order of operations, groups, wrappers or inner lists.
 */
module CapabilityCatalog {
  import opened Common
  import opened LexicalOrder
  import opened CatalogSchema

  datatype Entry = Entry(
    capabilityId: string, configurationRoute: string, distribution: string, caption: string, lifecycle: string,
    operationIds: seq<string>, owner: string, types: seq<string>, category: string, aliases: seq<string>, key: string,
    optional: seq<string>, required: seq<string>, targetRoute: string, nodes: seq<string>, wrappers: seq<string>,
    note: Option<string>
  )

  datatype Catalog = Catalog(ids: seq<string>, providers: seq<Entry>, version: int)

  function Self(s: string): string { s }

  function CapabilityId(e: Entry): string { e.capabilityId }

  function Sorted(s: seq<string>): seq<string> {
    Sort(s, Self)
  }

  predicate Live(g: Group) {
    g.provider.Some? && g.lifecycle != "retired"
  }

  /** The operations of one capability, in ledger order. */
  function OperationIds(os: seq<Operation>, id: string): seq<string> {
    if os == [] then []
    else
      var o := os[|os| - 1];
      OperationIds(os[..|os| - 1], id) + if o.capability == Some(id) then [o.id] else []
  }

  function EntryOf(g: Group, os: seq<Operation>): Entry
    requires g.provider.Some?
  {
    var p := g.provider.value;
    Entry(g.id, p.configurationRoute, g.distribution, g.caption, g.lifecycle,
          Sorted(OperationIds(os, g.id)), g.owner, Sorted(p.types), p.category, Sorted(p.aliases), p.key,
          Sorted(p.optional), Sorted(p.required), p.targetRoute, Sorted(g.nodes), Sorted(g.wrappers),
          if g.lifecycle == "deprecated" then g.note else None)
  }

  function Entries(gs: seq<Group>, os: seq<Operation>): seq<Entry> {
    if gs == [] then []
    else
      var g := gs[|gs| - 1];
      Entries(gs[..|gs| - 1], os) + if Live(g) then [EntryOf(g, os)] else []
  }

  function Ids(providers: seq<Entry>): seq<string> {
    if providers == [] then [] else Ids(providers[..|providers| - 1]) + [providers[|providers| - 1].capabilityId]
  }

  function CatalogOf(m: Matrix): Catalog {
    var providers := Sort(Entries(m.groups, m.operations), CapabilityId);
    Catalog(Ids(providers), providers, m.version)
  }

  method GroupOperations(os: seq<Operation>) returns (byCapability: map<string, seq<string>>)
    ensures forall id :: (if id in byCapability then byCapability[id] else []) == OperationIds(os, id)
  {
    byCapability := map[];
    for i := 0 to |os|
      invariant forall id :: (if id in byCapability then byCapability[id] else []) == OperationIds(os[..i], id)
    {
      assert os[..i + 1][..i] == os[..i];
      if os[i].capability.Some? {
        var id := os[i].capability.value;
        byCapability := byCapability[id := (if id in byCapability then byCapability[id] else []) + [os[i].id]];
      }
    }
    assert os[..|os|] == os;
  }

  method ProjectGroups(gs: seq<Group>, os: seq<Operation>) returns (providers: seq<Entry>)
    ensures providers == Entries(gs, os)
  {
    var byCapability := GroupOperations(os);
    providers := [];
    hide Sorted, OperationIds;
    for i := 0 to |gs|
      invariant providers == Entries(gs[..i], os)
    {
      var g := gs[i];
      assert gs[..i + 1][..i] == gs[..i];
      if !Live(g) {
        continue;
      }
      var p := g.provider.value;
      var operationIds := if g.id in byCapability then byCapability[g.id] else [];
      assert operationIds == OperationIds(os, g.id);
      var entry := Entry(g.id, p.configurationRoute, g.distribution, g.caption, g.lifecycle,
                         Sorted(operationIds), g.owner, Sorted(p.types), p.category, Sorted(p.aliases), p.key,
                         Sorted(p.optional), Sorted(p.required), p.targetRoute, Sorted(g.nodes),
                         Sorted(g.wrappers), None);
      if g.lifecycle == "deprecated" {
        entry := entry.(note := g.note);
      }
      providers := providers + [entry];
    }
    assert gs[..|gs|] == gs;
  }

  method ListIds(providers: seq<Entry>) returns (ids: seq<string>)
    ensures ids == Ids(providers)
  {
    ids := [];
    for i := 0 to |providers|
      invariant ids == Ids(providers[..i])
    {
      assert providers[..i + 1][..i] == providers[..i];
      ids := ids + [providers[i].capabilityId];
    }
    assert providers[..|providers|] == providers;
  }

  /** build_catalog: None stands for the validator's error. */
  method BuildCatalog(m: Matrix) returns (catalog: Option<Catalog>)
    ensures catalog.Some? <==> Valid(m)
    ensures catalog.Some? ==> catalog.value == CatalogOf(m)
  {
    var ok := ValidateMatrix(m);
    if !ok {
      return None;
    }
    var providers := ProjectGroups(m.groups, m.operations);
    providers := Sort(providers, CapabilityId);
    var ids := ListIds(providers);
    return Some(Catalog(ids, providers, m.version));
  }

  // ---------------------------------------------------------------------------
  // What the catalog contains
  // ---------------------------------------------------------------------------

  lemma {:induction false} OperationIdsMembers(os: seq<Operation>, id: string)
    ensures forall x :: x in OperationIds(os, id) <==>
      exists k :: 0 <= k < |os| && os[k].id == x && os[k].capability == Some(id)
  {
    if os != [] {
      var front, last := os[..|os| - 1], os[|os| - 1];
      OperationIdsMembers(front, id);
      assert forall k :: 0 <= k < |front| ==> os[k] == front[k];
    }
  }

  lemma {:induction false} OperationIdsDistinct(os: seq<Operation>, id: string)
    requires forall i, j :: 0 <= i < j < |os| ==> os[i].id != os[j].id
    ensures DistinctKeys(OperationIds(os, id), Self)
  {
    if os != [] {
      var front := os[..|os| - 1];
      OperationIdsDistinct(front, id);
      OperationIdsMembers(front, id);
      forall k | 0 <= k < |OperationIds(front, id)|
        ensures OperationIds(front, id)[k] != os[|os| - 1].id
      {
        assert OperationIds(front, id)[k] in OperationIds(front, id);
      }
    }
  }

  lemma {:induction false} EntriesMembers(gs: seq<Group>, os: seq<Operation>)
    ensures forall e :: e in Entries(gs, os) <==> exists k :: 0 <= k < |gs| && Live(gs[k]) && EntryOf(gs[k], os) == e
  {
    if gs != [] {
      var front, last := gs[..|gs| - 1], gs[|gs| - 1];
      EntriesMembers(front, os);
      assert forall k :: 0 <= k < |front| ==> gs[k] == front[k];
    }
  }

  lemma {:induction false} EntriesDistinct(gs: seq<Group>, os: seq<Operation>)
    requires forall i, j :: 0 <= i < j < |gs| ==> gs[i].id != gs[j].id
    ensures DistinctKeys(Entries(gs, os), CapabilityId)
  {
    if gs != [] {
      var front := gs[..|gs| - 1];
      EntriesDistinct(front, os);
      EntriesMembers(front, os);
      forall k | 0 <= k < |Entries(front, os)|
        ensures Entries(front, os)[k].capabilityId != gs[|gs| - 1].id
      {
        assert Entries(front, os)[k] in Entries(front, os);
      }
    }
  }

  lemma {:induction false} IdsAt(providers: seq<Entry>)
    ensures |Ids(providers)| == |providers|
    ensures forall i :: 0 <= i < |providers| ==> Ids(providers)[i] == providers[i].capabilityId
  {
    if providers != [] {
      IdsAt(providers[..|providers| - 1]);
    }
  }

  lemma ValidIdsDistinct(m: Matrix)
    requires Valid(m)
    ensures forall i, j :: 0 <= i < j < |m.groups| ==> m.groups[i].id != m.groups[j].id
    ensures forall i, j :: 0 <= i < j < |m.operations| ==> m.operations[i].id != m.operations[j].id
  {}

  lemma ProvidersAre(m: Matrix)
    requires Valid(m)
    ensures Increasing(CatalogOf(m).providers, CapabilityId)
    ensures forall e :: e in CatalogOf(m).providers <==>
      exists k :: 0 <= k < |m.groups| && Live(m.groups[k]) && EntryOf(m.groups[k], m.operations) == e
  {
    ValidIdsDistinct(m);
    EntriesDistinct(m.groups, m.operations);
    SortIncreasing(Entries(m.groups, m.operations), CapabilityId);
    SortMembers(Entries(m.groups, m.operations), CapabilityId);
    EntriesMembers(m.groups, m.operations);
  }

  /** The ids come out strictly increasing, one for each provider. */
  lemma IdsIncrease(m: Matrix)
    requires Valid(m)
    ensures var c := CatalogOf(m);
      && |c.ids| == |c.providers|
      && (forall i :: 0 <= i < |c.ids| ==> c.ids[i] == c.providers[i].capabilityId)
      && (forall i, j :: 0 <= i < j < |c.ids| ==> Less(c.ids[i], c.ids[j]))
  {
    var c := CatalogOf(m);
    ProvidersAre(m);
    IdsAt(c.providers);
    forall i, j | 0 <= i < j < |c.ids|
      ensures Less(c.ids[i], c.ids[j])
    {
      assert Less(CapabilityId(c.providers[i]), CapabilityId(c.providers[j]));
    }
  }

  /** The group a provider was projected from. */
  lemma Origin(m: Matrix, i: nat) returns (k: nat)
    requires Valid(m) && i < |CatalogOf(m).providers|
    ensures k < |m.groups| && Live(m.groups[k]) && EntryOf(m.groups[k], m.operations) == CatalogOf(m).providers[i]
  {
    ProvidersAre(m);
    assert CatalogOf(m).providers[i] in CatalogOf(m).providers;
    k :| 0 <= k < |m.groups| && Live(m.groups[k]) && EntryOf(m.groups[k], m.operations) == CatalogOf(m).providers[i];
  }

  /** Provider keys are pairwise distinct, alias lists pairwise disjoint, and no key is anybody's alias. */
  lemma KeysAndAliasesApart(m: Matrix, i: nat, j: nat)
    requires Valid(m) && i < |CatalogOf(m).providers| && j < |CatalogOf(m).providers|
    ensures var e, f := CatalogOf(m).providers[i], CatalogOf(m).providers[j];
      && e.key !in f.aliases
      && (i != j ==> e.key != f.key && Disjoint(e.aliases, f.aliases))
  {
    var k := Origin(m, i);
    var l := Origin(m, j);
    var g, h := m.groups[k], m.groups[l];
    SortMembers(g.provider.value.aliases, Self);
    SortMembers(h.provider.value.aliases, Self);
    assert HasKey(m.groups, g.provider.value.key);
    assert forall x <- h.provider.value.aliases :: HasAlias(m.groups, x);
    if i != j {
      ProviderIdsDiffer(m, i, j);
      assert k != l;
      ClashSymmetric(g, h);
      assert !Clash(m.groups[if k < l then k else l], m.groups[if k < l then l else k]);
    }
  }

  /** The listed strings are those given, each once and in increasing order. */
  ghost predicate Arranges(listed: seq<string>, given: seq<string>) {
    && (forall x :: x in listed <==> x in given)
    && (forall i, j :: 0 <= i < j < |listed| ==> Less(listed[i], listed[j]))
  }

  /** The provider carries the fields of this group, which projects a plugin provider and is not retired. */
  ghost predicate Projects(e: Entry, g: Group, os: seq<Operation>) {
    && g.provider.Some? && g.projection == "plugin_provider" && g.lifecycle != "retired"
    && var p := g.provider.value;
    && e.capabilityId == g.id && e.caption == g.caption && e.owner == g.owner
    && e.distribution == g.distribution && e.lifecycle == g.lifecycle
    && e.note == g.note && (e.note.Some? <==> g.lifecycle == "deprecated")
    && e.key == p.key && e.category == p.category
    && e.targetRoute == p.targetRoute && e.configurationRoute == p.configurationRoute
    && Arranges(e.aliases, p.aliases) && Arranges(e.types, p.types)
    && Arranges(e.required, p.required) && Arranges(e.optional, p.optional)
    && Arranges(e.nodes, g.nodes) && Arranges(e.wrappers, g.wrappers)
    && ArrangesOperations(e.operationIds, os, g.id)
  }

  /** The listed ids are those of the operations that declare the capability, each once and in increasing order. */
  ghost predicate ArrangesOperations(listed: seq<string>, os: seq<Operation>, capability: string) {
    && (forall x :: x in listed <==> exists k :: 0 <= k < |os| && os[k].id == x && os[k].capability == Some(capability))
    && (forall i, j :: 0 <= i < j < |listed| ==> Less(listed[i], listed[j]))
  }

  lemma SortedArranges(s: seq<string>)
    requires Distinct(s)
    ensures Arranges(Sorted(s), s)
  {
    SortMembers(s, Self);
    SortIncreasing(s, Self);
    assert forall i, j :: 0 <= i < j < |Sorted(s)| ==> Less(Self(Sorted(s)[i]), Self(Sorted(s)[j]));
  }

  lemma EntryProjects(m: Matrix, k: nat)
    requires Valid(m) && k < |m.groups| && Live(m.groups[k])
    ensures Projects(EntryOf(m.groups[k], m.operations), m.groups[k], m.operations)
  {
    hide Sorted, OperationIds, Valid, Arranges, ArrangesOperations, GroupFits;
    var g, os := m.groups[k], m.operations;
    GroupIsFit(m, k);
    ListsArranged(g);
    OperationsArranged(m, g.id);
  }

  lemma GroupIsFit(m: Matrix, k: nat)
    requires Valid(m) && k < |m.groups|
    ensures var g := m.groups[k];
      && GroupFits(g)
      && (g.projection == "plugin_provider" <==> g.provider.Some?)
      && (g.note.Some? <==> g.lifecycle == "deprecated")
  {
    hide ProviderFits, StringList;
    assert GroupFits(m.groups[k]);
  }

  lemma ListsArranged(g: Group)
    requires GroupFits(g) && g.provider.Some?
    ensures var p := g.provider.value;
      && Arranges(Sorted(p.aliases), p.aliases) && Arranges(Sorted(p.types), p.types)
      && Arranges(Sorted(p.required), p.required) && Arranges(Sorted(p.optional), p.optional)
      && Arranges(Sorted(g.nodes), g.nodes) && Arranges(Sorted(g.wrappers), g.wrappers)
  {
    hide Sorted, Arranges;
    SortedArranges(g.provider.value.aliases);
    SortedArranges(g.provider.value.types);
    SortedArranges(g.provider.value.required);
    SortedArranges(g.provider.value.optional);
    SortedArranges(g.nodes);
    SortedArranges(g.wrappers);
  }

  lemma OperationsArranged(m: Matrix, id: string)
    requires Valid(m)
    ensures ArrangesOperations(Sorted(OperationIds(m.operations, id)), m.operations, id)
  {
    var ids := OperationIds(m.operations, id);
    ValidIdsDistinct(m);
    OperationIdsDistinct(m.operations, id);
    OperationIdsMembers(m.operations, id);
    assert forall i, j :: 0 <= i < j < |ids| ==> Self(ids[i]) != Self(ids[j]);
    SortedArranges(ids);
  }

  /** In the catalog each live plugin-provider group has exactly one provider with its id, and it has its fields. */
  lemma EveryLiveGroupIsProjected(m: Matrix, k: nat) returns (i: nat)
    requires Valid(m) && k < |m.groups|
    requires m.groups[k].projection == "plugin_provider" && m.groups[k].lifecycle != "retired"
    ensures i < |CatalogOf(m).providers| && Projects(CatalogOf(m).providers[i], m.groups[k], m.operations)
    ensures var providers := CatalogOf(m).providers;
      forall j :: 0 <= j < |providers| && providers[j].capabilityId == m.groups[k].id ==> j == i
  {
    var providers, g := CatalogOf(m).providers, m.groups[k];
    GroupIsFit(m, k);
    ProvidersAre(m);
    EntryProjects(m, k);
    hide Valid, GroupFits, CatalogOf, Projects, Sorted, OperationIds;
    assert EntryOf(g, m.operations) in providers;
    i :| 0 <= i < |providers| && providers[i] == EntryOf(g, m.operations);
    forall j | 0 <= j < |providers| && j != i
      ensures providers[j].capabilityId != providers[i].capabilityId
    {
      ProviderIdsDiffer(m, i, j);
    }
  }

  lemma ProviderIdsDiffer(m: Matrix, i: nat, j: nat)
    requires Valid(m) && i < |CatalogOf(m).providers| && j < |CatalogOf(m).providers| && i != j
    ensures CatalogOf(m).providers[i].capabilityId != CatalogOf(m).providers[j].capabilityId
  {
    ProvidersAre(m);
    var first, second := if i < j then i else j, if i < j then j else i;
    assert Less(CapabilityId(CatalogOf(m).providers[first]), CapabilityId(CatalogOf(m).providers[second]));
  }

  /** And every provider comes from such a group. */
  lemma EveryProviderIsAGroup(m: Matrix, i: nat) returns (k: nat)
    requires Valid(m) && i < |CatalogOf(m).providers|
    ensures k < |m.groups| && Projects(CatalogOf(m).providers[i], m.groups[k], m.operations)
    ensures CatalogOf(m).version == m.version
  {
    k := Origin(m, i);
    EntryProjects(m, k);
  }

  predicate Lists(e: Entry, o: Operation) {
    o.id in e.operationIds
  }

  lemma SortedIdsOf(os: seq<Operation>, id: string, n: nat)
    requires n < |os| && forall i, j :: 0 <= i < j < |os| ==> os[i].id != os[j].id
    ensures os[n].id in Sorted(OperationIds(os, id)) <==> os[n].capability == Some(id)
  {
    SortMembers(OperationIds(os, id), Self);
    OperationIdsMembers(os, id);
  }

  /** A provider lists an operation if and only if the operation declares its capability. */
  lemma ListsItsOwn(m: Matrix, i: nat, n: nat)
    requires Valid(m) && i < |CatalogOf(m).providers| && n < |m.operations|
    ensures Lists(CatalogOf(m).providers[i], m.operations[n])
       <==> m.operations[n].capability == Some(CatalogOf(m).providers[i].capabilityId)
  {
    var k := Origin(m, i);
    ValidIdsDistinct(m);
    SortedIdsOf(m.operations, m.groups[k].id, n);
  }

  /** Every operation of a live provider appears in exactly one provider. */
  lemma EachOperationInOneProvider(m: Matrix, n: nat, k: nat)
    requires Valid(m) && n < |m.operations| && k < |m.groups|
    requires Live(m.groups[k]) && m.operations[n].capability == Some(m.groups[k].id)
    ensures exists i :: 0 <= i < |CatalogOf(m).providers| && Lists(CatalogOf(m).providers[i], m.operations[n])
    ensures forall i, j :: 0 <= i < j < |CatalogOf(m).providers| ==>
      !(Lists(CatalogOf(m).providers[i], m.operations[n]) && Lists(CatalogOf(m).providers[j], m.operations[n]))
  {
    var providers := CatalogOf(m).providers;
    ProvidersAre(m);
    assert EntryOf(m.groups[k], m.operations) in providers;
    var i :| 0 <= i < |providers| && providers[i] == EntryOf(m.groups[k], m.operations);
    ListsItsOwn(m, i, n);
    forall i, j | 0 <= i < j < |providers|
      ensures !(Lists(providers[i], m.operations[n]) && Lists(providers[j], m.operations[n]))
    {
      ListsItsOwn(m, i, n);
      ListsItsOwn(m, j, n);
      assert Less(CapabilityId(providers[i]), CapabilityId(providers[j]));
    }
  }

  // ---------------------------------------------------------------------------
  // Order does not matter
  // ---------------------------------------------------------------------------

  ghost predicate Permuted<T>(s: seq<T>, t: seq<T>) {
    multiset(s) == multiset(t)
  }

  lemma PermutedMembers<T(!new)>(s: seq<T>, t: seq<T>)
    requires Permuted(s, t)
    ensures SameMembers(s, t) && |s| == |t|
  {
    forall x
      ensures x in s <==> x in t
    {
      assert x in multiset(s) <==> x in multiset(t);
    }
    assert |multiset(s)| == |s| && |multiset(t)| == |t|;
  }

  function Without<T>(s: seq<T>, i: nat): seq<T>
    requires i < |s|
  {
    s[..i] + s[i + 1..]
  }

  lemma WithoutPermuted<T>(s: seq<T>, i: nat)
    requires i < |s|
    ensures multiset(Without(s, i)) == multiset(s) - multiset{s[i]}
  {
    assert s == s[..i] + [s[i]] + s[i + 1..];
  }

  lemma OtherOrigin<T(!new)>(s: seq<T>, t: seq<T>, a: nat, i: nat, j: nat) returns (b: nat)
    requires Permuted(s, t) && a < |s| && i < j < |t| && s[a] == t[i]
    ensures b < |s| && a != b && s[b] == t[j]
  {
    var s', t' := Without(s, a), Without(t, i);
    WithoutPermuted(s, a);
    WithoutPermuted(t, i);
    PermutedMembers(s', t');
    assert t'[j - 1] == t[j];
    assert t'[j - 1] in s';
    var k :| 0 <= k < |s'| && s'[k] == t[j];
    b := if k < a then k else k + 1;
  }

  /** Two positions of a permutation come from two positions of the original. */
  lemma PairOrigin<T(!new)>(s: seq<T>, t: seq<T>, i: nat, j: nat) returns (a: nat, b: nat)
    requires Permuted(s, t) && i < j < |t|
    ensures a < |s| && b < |s| && a != b && s[a] == t[i] && s[b] == t[j]
  {
    PermutedMembers(s, t);
    assert t[i] in s;
    a :| 0 <= a < |s| && s[a] == t[i];
    b := OtherOrigin(s, t, a, i, j);
  }

  lemma StringListPermuted(s: seq<string>, t: seq<string>)
    requires Permuted(s, t) && StringList(s)
    ensures StringList(t)
  {
    PermutedMembers(s, t);
    forall i | 0 <= i < |t|
      ensures NonBlank(t[i])
    {
      assert t[i] in s;
    }
    forall i, j | 0 <= i < j < |t|
      ensures t[i] != t[j]
    {
      var a, b := PairOrigin(s, t, i, j);
      assert s[if a < b then a else b] != s[if a < b then b else a];
    }
  }

  lemma SortedPermuted(s: seq<string>, t: seq<string>)
    requires Permuted(s, t) && StringList(s)
    ensures Sorted(s) == Sorted(t)
  {
    PermutedMembers(s, t);
    StringListPermuted(s, t);
    SortForgetsOrder(s, t, Self);
  }

  /** The same group with its inner lists reordered. */
  ghost predicate SimilarProvider(p: Provider, q: Provider) {
    && q == p.(aliases := q.aliases, types := q.types, required := q.required, optional := q.optional)
    && Permuted(p.aliases, q.aliases) && Permuted(p.types, q.types)
    && Permuted(p.required, q.required) && Permuted(p.optional, q.optional)
  }

  ghost predicate Similar(g: Group, h: Group) {
    && h == g.(wrappers := h.wrappers, nodes := h.nodes, provider := h.provider)
    && Permuted(g.wrappers, h.wrappers) && Permuted(g.nodes, h.nodes)
    && (g.provider.Some? <==> h.provider.Some?)
    && (g.provider.Some? ==> SimilarProvider(g.provider.value, h.provider.value))
  }

  ghost predicate SimilarGroups(gs: seq<Group>, hs: seq<Group>) {
    |gs| == |hs| && forall i :: 0 <= i < |gs| ==> Similar(gs[i], hs[i])
  }

  /** The same ledger with operations, groups, wrappers and inner lists in another order. */
  ghost predicate Reordered(m: Matrix, n: Matrix) {
    && n.version == m.version && n.source == m.source && n.count == m.count
    && Permuted(m.allowed, n.allowed) && Permuted(m.operations, n.operations) && Permuted(m.wrappers, n.wrappers)
    && exists gs :: Permuted(m.groups, gs) && SimilarGroups(gs, n.groups)
  }

  lemma ProviderFitsSimilar(p: Provider, q: Provider)
    requires SimilarProvider(p, q) && ProviderFits(p)
    ensures ProviderFits(q)
  {
    StringListPermuted(p.aliases, q.aliases);
    StringListPermuted(p.types, q.types);
    StringListPermuted(p.required, q.required);
    StringListPermuted(p.optional, q.optional);
    PermutedMembers(p.aliases, q.aliases);
    PermutedMembers(p.types, q.types);
    PermutedMembers(p.required, q.required);
    PermutedMembers(p.optional, q.optional);
    AmongSame(p.types, q.types, PLUGIN_TYPES);
    AmongSame(p.required, q.required, READINESS_SOURCES);
    AmongSame(p.optional, q.optional, READINESS_SOURCES);
  }

  lemma AmongSame(s: seq<string>, t: seq<string>, choices: seq<string>)
    requires SameMembers(s, t) && Among(s, choices)
    ensures Among(t, choices)
  {
    forall i | 0 <= i < |t|
      ensures t[i] in choices
    {
      assert t[i] in s;
    }
  }

  lemma GroupFitsSimilar(g: Group, h: Group)
    requires Similar(g, h) && GroupFits(g)
    ensures GroupFits(h)
  {
    StringListPermuted(g.wrappers, h.wrappers);
    StringListPermuted(g.nodes, h.nodes);
    if g.provider.Some? {
      ProviderFitsSimilar(g.provider.value, h.provider.value);
    }
  }

  lemma ClashSimilar(g: Group, g': Group, h: Group, h': Group)
    requires Similar(g, g') && Similar(h, h') && Clash(g', h')
    ensures Clash(g, h)
  {
    if g.provider.Some? && h.provider.Some? {
      PermutedMembers(g.provider.value.aliases, g'.provider.value.aliases);
      PermutedMembers(h.provider.value.aliases, h'.provider.value.aliases);
    }
  }

  lemma ReferencedSimilar(g: Group, h: Group, os: seq<Operation>, ws: seq<Wrapper>)
    requires Similar(g, h) && Referenced(g, os, ws)
    ensures Referenced(h, os, ws)
  {
    PermutedMembers(g.wrappers, h.wrappers);
    PermutedMembers(g.nodes, h.nodes);
    forall k | 0 <= k < |h.wrappers|
      ensures CallsWrapper(os, h.wrappers[k]) || HasWrapper(ws, h.wrappers[k])
    {
      assert h.wrappers[k] in g.wrappers;
    }
  }

  lemma SimilarSymmetric(gs: seq<Group>, hs: seq<Group>)
    requires SimilarGroups(gs, hs)
    ensures SimilarGroups(hs, gs)
  {}

  lemma HasSimilar(gs: seq<Group>, hs: seq<Group>, x: string)
    requires SimilarGroups(gs, hs)
    ensures HasGroup(hs, x) ==> HasGroup(gs, x)
    ensures HasKey(hs, x) ==> HasKey(gs, x)
    ensures HasAlias(hs, x) ==> HasAlias(gs, x)
  {
    if HasGroup(hs, x) {
      var k :| 0 <= k < |hs| && hs[k].id == x;
      assert Similar(gs[k], hs[k]);
    }
    if HasKey(hs, x) {
      var k :| 0 <= k < |hs| && hs[k].provider.Some? && hs[k].provider.value.key == x;
      assert Similar(gs[k], hs[k]);
    }
    if HasAlias(hs, x) {
      var k :| 0 <= k < |hs| && hs[k].provider.Some? && x in hs[k].provider.value.aliases;
      assert Similar(gs[k], hs[k]);
      PermutedMembers(gs[k].provider.value.aliases, hs[k].provider.value.aliases);
    }
  }

  lemma GroupsValidSimilar(gs: seq<Group>, hs: seq<Group>)
    requires SimilarGroups(gs, hs) && GroupsValid(gs)
    ensures GroupsValid(hs)
  {
    forall i | 0 <= i < |hs|
      ensures GroupFits(hs[i])
    {
      GroupFitsSimilar(gs[i], hs[i]);
    }
    forall i, j | 0 <= i < j < |hs|
      ensures !Clash(hs[i], hs[j])
    {
      if Clash(hs[i], hs[j]) {
        ClashSimilar(gs[i], hs[i], gs[j], hs[j]);
      }
    }
  }

  lemma KeysApartSimilar(gs: seq<Group>, hs: seq<Group>)
    requires SimilarGroups(gs, hs) && KeysApart(gs)
    ensures KeysApart(hs)
  {
    forall x
      ensures !(HasKey(hs, x) && HasAlias(hs, x))
    {
      HasSimilar(gs, hs, x);
    }
  }

  lemma ValidSimilar(m: Matrix, hs: seq<Group>)
    requires SimilarGroups(m.groups, hs) && Valid(m)
    ensures Valid(m.(groups := hs))
  {
    GroupsValidSimilar(m.groups, hs);
    KeysApartSimilar(m.groups, hs);
    SimilarSymmetric(m.groups, hs);
    forall x
      ensures HasGroup(m.groups, x) ==> HasGroup(hs, x)
    {
      HasSimilar(hs, m.groups, x);
    }
    forall i | 0 <= i < |hs|
      ensures Referenced(hs[i], m.operations, m.wrappers)
    {
      ReferencedSimilar(m.groups[i], hs[i], m.operations, m.wrappers);
    }
  }

  // Outer permutations, one relation at a time.

  lemma HasGroupPermuted(gs: seq<Group>, hs: seq<Group>, x: string)
    requires Permuted(gs, hs)
    ensures HasGroup(hs, x) ==> HasGroup(gs, x)
    ensures HasKey(hs, x) ==> HasKey(gs, x)
    ensures HasAlias(hs, x) ==> HasAlias(gs, x)
  {
    PermutedMembers(gs, hs);
    forall k | 0 <= k < |hs|
      ensures exists l :: 0 <= l < |gs| && gs[l] == hs[k]
    {
      assert hs[k] in gs;
    }
  }

  lemma GroupsValidPermuted(gs: seq<Group>, hs: seq<Group>)
    requires Permuted(gs, hs) && GroupsValid(gs)
    ensures GroupsValid(hs)
  {
    PermutedMembers(gs, hs);
    forall i | 0 <= i < |hs|
      ensures GroupFits(hs[i])
    {
      assert hs[i] in gs;
    }
    forall i, j | 0 <= i < j < |hs|
      ensures !Clash(hs[i], hs[j])
    {
      var a, b := PairOrigin(gs, hs, i, j);
      ClashSymmetric(hs[i], hs[j]);
      assert !Clash(gs[if a < b then a else b], gs[if a < b then b else a]);
    }
  }

  lemma HasOperationPermuted(os: seq<Operation>, ps: seq<Operation>, x: string)
    requires Permuted(os, ps)
    ensures HasOperation(os, x) ==> HasOperation(ps, x)
    ensures CallsWrapper(os, x) ==> CallsWrapper(ps, x)
    ensures OperationRefers(os, x) ==> OperationRefers(ps, x)
  {
    PermutedMembers(os, ps);
    forall k | 0 <= k < |os|
      ensures exists l :: 0 <= l < |ps| && ps[l] == os[k]
    {
      assert os[k] in ps;
    }
  }

  lemma OperationsValidPermuted(os: seq<Operation>, ps: seq<Operation>, allowed: seq<string>, allowed': seq<string>,
                                gs: seq<Group>, hs: seq<Group>)
    requires Permuted(os, ps) && Permuted(allowed, allowed') && Permuted(gs, hs) && OperationsValid(os, allowed, gs)
    ensures OperationsValid(ps, allowed', hs)
  {
    PermutedMembers(os, ps);
    PermutedMembers(allowed, allowed');
    forall i | 0 <= i < |ps|
      ensures OperationFits(ps[i], allowed') && (ps[i].capability.Some? ==> HasGroup(hs, ps[i].capability.value))
    {
      assert ps[i] in os;
      if ps[i].capability.Some? {
        HasGroupPermuted(hs, gs, ps[i].capability.value);
      }
    }
    forall i, j | 0 <= i < j < |ps|
      ensures !OperationsClash(ps[i], ps[j])
    {
      var a, b := PairOrigin(os, ps, i, j);
      assert !OperationsClash(os[if a < b then a else b], os[if a < b then b else a]);
    }
  }

  lemma HasWrapperPermuted(ws: seq<Wrapper>, vs: seq<Wrapper>, x: string)
    requires Permuted(ws, vs)
    ensures HasWrapper(ws, x) ==> HasWrapper(vs, x)
    ensures WrapperRefers(ws, x) ==> WrapperRefers(vs, x)
  {
    PermutedMembers(ws, vs);
    forall k | 0 <= k < |ws|
      ensures exists l :: 0 <= l < |vs| && vs[l] == ws[k]
    {
      assert ws[k] in vs;
    }
  }

  lemma WrapperPermuted(w: Wrapper, m: Matrix, n: Matrix)
    requires Permuted(m.allowed, n.allowed) && Permuted(m.groups, n.groups) && Permuted(m.operations, n.operations)
    requires WrapperFits(w, m.allowed)
    requires w.operation.Some? ==> HasOperation(m.operations, w.operation.value)
    requires w.capability.Some? ==> HasGroup(m.groups, w.capability.value)
    ensures WrapperFits(w, n.allowed)
    ensures w.operation.Some? ==> HasOperation(n.operations, w.operation.value)
    ensures w.capability.Some? ==> HasGroup(n.groups, w.capability.value)
  {
    PermutedMembers(m.allowed, n.allowed);
    if w.operation.Some? {
      HasOperationPermuted(m.operations, n.operations, w.operation.value);
    }
    if w.capability.Some? {
      HasGroupPermuted(n.groups, m.groups, w.capability.value);
    }
  }

  lemma WrappersValidPermuted(m: Matrix, n: Matrix)
    requires Permuted(m.allowed, n.allowed) && Permuted(m.groups, n.groups)
    requires Permuted(m.operations, n.operations) && Permuted(m.wrappers, n.wrappers)
    requires WrappersValid(m.wrappers, m.allowed, m.groups, m.operations)
    ensures WrappersValid(n.wrappers, n.allowed, n.groups, n.operations)
  {
    PermutedMembers(m.wrappers, n.wrappers);
    forall i | 0 <= i < |n.wrappers|
      ensures var w := n.wrappers[i];
        && WrapperFits(w, n.allowed)
        && (w.operation.Some? ==> HasOperation(n.operations, w.operation.value))
        && (w.capability.Some? ==> HasGroup(n.groups, w.capability.value))
    {
      assert n.wrappers[i] in m.wrappers;
      WrapperPermuted(n.wrappers[i], m, n);
    }
    forall i, j | 0 <= i < j < |n.wrappers|
      ensures n.wrappers[i].name != n.wrappers[j].name
    {
      var a, b := PairOrigin(m.wrappers, n.wrappers, i, j);
      assert m.wrappers[if a < b then a else b].name != m.wrappers[if a < b then b else a].name;
    }
  }

  lemma ReferencedPermuted(g: Group, m: Matrix, n: Matrix)
    requires Permuted(m.operations, n.operations) && Permuted(m.wrappers, n.wrappers)
      && Referenced(g, m.operations, m.wrappers)
    ensures Referenced(g, n.operations, n.wrappers)
  {
    forall k | 0 <= k < |g.wrappers|
      ensures CallsWrapper(n.operations, g.wrappers[k]) || HasWrapper(n.wrappers, g.wrappers[k])
    {
      HasOperationPermuted(m.operations, n.operations, g.wrappers[k]);
      HasWrapperPermuted(m.wrappers, n.wrappers, g.wrappers[k]);
    }
    HasOperationPermuted(m.operations, n.operations, g.id);
    HasWrapperPermuted(m.wrappers, n.wrappers, g.id);
  }

  ghost predicate PermutedMatrix(m: Matrix, n: Matrix) {
    && n.version == m.version && n.source == m.source && n.count == m.count
    && Permuted(m.allowed, n.allowed) && Permuted(m.operations, n.operations)
    && Permuted(m.wrappers, n.wrappers) && Permuted(m.groups, n.groups)
  }

  lemma HeaderPermuted(m: Matrix, n: Matrix)
    requires PermutedMatrix(m, n) && HeaderFits(m)
    ensures HeaderFits(n)
  {
    StringListPermuted(m.allowed, n.allowed);
    PermutedMembers(m.allowed, n.allowed);
    AmongSame(m.allowed, n.allowed, DISPOSITIONS);
    PermutedMembers(m.operations, n.operations);
  }

  lemma ValidPermuted(m: Matrix, n: Matrix)
    requires PermutedMatrix(m, n) && Valid(m)
    ensures Valid(n)
  {
    HeaderPermuted(m, n);
    GroupsValidPermuted(m.groups, n.groups);
    forall x
      ensures !(HasKey(n.groups, x) && HasAlias(n.groups, x))
    {
      HasGroupPermuted(m.groups, n.groups, x);
    }
    OperationsValidPermuted(m.operations, n.operations, m.allowed, n.allowed, m.groups, n.groups);
    WrappersValidPermuted(m, n);
    PermutedMembers(m.groups, n.groups);
    forall i | 0 <= i < |n.groups|
      ensures Referenced(n.groups[i], n.operations, n.wrappers)
    {
      assert n.groups[i] in m.groups;
      ReferencedPermuted(n.groups[i], m, n);
    }
  }

  // The projection under both kinds of reordering.

  lemma EntrySimilar(g: Group, h: Group, os: seq<Operation>)
    requires Similar(g, h) && GroupFits(g) && g.provider.Some?
    ensures EntryOf(g, os) == EntryOf(h, os)
  {
    var p, q := g.provider.value, h.provider.value;
    SortedPermuted(p.types, q.types);
    SortedPermuted(p.aliases, q.aliases);
    SortedPermuted(p.optional, q.optional);
    SortedPermuted(p.required, q.required);
    SortedPermuted(g.nodes, h.nodes);
    SortedPermuted(g.wrappers, h.wrappers);
  }

  lemma {:induction false} EntriesSimilar(gs: seq<Group>, hs: seq<Group>, os: seq<Operation>)
    requires SimilarGroups(gs, hs) && forall i :: 0 <= i < |gs| ==> GroupFits(gs[i])
    ensures Entries(gs, os) == Entries(hs, os)
  {
    if gs != [] {
      var last := |gs| - 1;
      EntriesSimilar(gs[..last], hs[..last], os);
      if Live(gs[last]) {
        EntrySimilar(gs[last], hs[last], os);
      }
    }
  }

  lemma EntryPermuted(g: Group, os: seq<Operation>, ps: seq<Operation>)
    requires g.provider.Some? && Permuted(os, ps)
    requires forall i, j :: 0 <= i < j < |os| ==> os[i].id != os[j].id
    requires forall i, j :: 0 <= i < j < |ps| ==> ps[i].id != ps[j].id
    ensures EntryOf(g, os) == EntryOf(g, ps)
  {
    var a, b := OperationIds(os, g.id), OperationIds(ps, g.id);
    OperationIdsDistinct(os, g.id);
    OperationIdsDistinct(ps, g.id);
    OperationIdsMembers(os, g.id);
    OperationIdsMembers(ps, g.id);
    PermutedMembers(os, ps);
    forall x
      ensures x in a <==> x in b
    {
      if x in a {
        var k :| 0 <= k < |os| && os[k].id == x && os[k].capability == Some(g.id);
        assert os[k] in ps;
      }
      if x in b {
        var k :| 0 <= k < |ps| && ps[k].id == x && ps[k].capability == Some(g.id);
        assert ps[k] in os;
      }
    }
    SortForgetsOrder(a, b, Self);
  }

  lemma EntryKept(m: Matrix, n: Matrix, e: Entry)
    requires PermutedMatrix(m, n) && Valid(m) && Valid(n) && e in Entries(m.groups, m.operations)
    ensures e in Entries(n.groups, n.operations)
  {
    EntriesMembers(m.groups, m.operations);
    EntriesMembers(n.groups, n.operations);
    ValidIdsDistinct(m);
    ValidIdsDistinct(n);
    PermutedMembers(m.groups, n.groups);
    var k :| 0 <= k < |m.groups| && Live(m.groups[k]) && EntryOf(m.groups[k], m.operations) == e;
    assert m.groups[k] in n.groups;
    EntryPermuted(m.groups[k], m.operations, n.operations);
  }

  lemma CatalogPermuted(m: Matrix, n: Matrix)
    requires PermutedMatrix(m, n) && Valid(m) && Valid(n)
    ensures CatalogOf(m) == CatalogOf(n)
  {
    var a, b := Entries(m.groups, m.operations), Entries(n.groups, n.operations);
    forall e
      ensures e in a <==> e in b
    {
      if e in a {
        EntryKept(m, n, e);
      }
      if e in b {
        EntryKept(n, m, e);
      }
    }
    ValidIdsDistinct(m);
    ValidIdsDistinct(n);
    EntriesDistinct(m.groups, m.operations);
    EntriesDistinct(n.groups, n.operations);
    SortForgetsOrder(a, b, CapabilityId);
  }

  /**
   Neither acceptance nor the catalog changes when operations, groups, wrappers, allowed
   dispositions or the lists inside groups are written in another order.
   */
  lemma OrderDoesNotMatter(m: Matrix, n: Matrix)
    requires Reordered(m, n)
    ensures Valid(m) <==> Valid(n)
    ensures Valid(m) ==> CatalogOf(m) == CatalogOf(n)
  {
    var gs :| Permuted(m.groups, gs) && SimilarGroups(gs, n.groups);
    var mid := n.(groups := gs);
    assert n == mid.(groups := n.groups) && mid == n.(groups := gs);
    SimilarSymmetric(gs, n.groups);
    if Valid(m) {
      ValidPermuted(m, mid);
      ValidSimilar(mid, n.groups);
      CatalogPermuted(m, mid);
      EntriesSimilar(gs, n.groups, n.operations);
    }
    if Valid(n) {
      ValidSimilar(n, gs);
      ValidPermuted(mid, m);
    }
  }
}
