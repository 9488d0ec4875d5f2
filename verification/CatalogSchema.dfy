/**
 The closed schema of the capability ledger and its validator
 (scripts/generate_capability_catalog.py:111-461), on a typed matrix: optional fields are
 options, the plugin-provider fields one optional record.
 */
module CatalogSchema {
  import opened Common

  datatype Provider = Provider(
    key: string, aliases: seq<string>, category: string, types: seq<string>,
    required: seq<string>, optional: seq<string>, targetRoute: string, configurationRoute: string
  )

  datatype Group = Group(
    id: string, caption: string, owner: string, projection: string, distribution: string, lifecycle: string,
    note: Option<string>, wrappers: seq<string>, nodes: seq<string>, provider: Option<Provider>
  )

  datatype Operation = Operation(
    verb: string, path: string, id: string, disposition: string, route: Option<string>, wrapper: Option<string>,
    decision: string, epic: string, capability: Option<string>, reason: Option<string>
  )

  datatype Wrapper = Wrapper(
    name: string, operation: Option<string>, disposition: string, epic: string, decision: string,
    capability: Option<string>
  )

  datatype Matrix = Matrix(
    version: int, source: string, count: int, allowed: seq<string>,
    operations: seq<Operation>, groups: seq<Group>, wrappers: seq<Wrapper>
  )

  // ---------------------------------------------------------------------------
  // Checks on one value
  // ---------------------------------------------------------------------------

  predicate NonBlank(s: string) {
    exists i :: 0 <= i < |s| && !IsSpace(s[i])
  }

  predicate Contains(s: string, part: string) {
    exists i :: 0 <= i <= |s| && part <= s[i..]
  }

  predicate IsApplicationRoute(s: string) {
    "/" <= s && !("//" <= s) && !Contains(s, "\\") && !Contains(s, "://")
  }

  /** _string_list without choices */
  predicate StringList(s: seq<string>) {
    Distinct(s) && forall i :: 0 <= i < |s| ==> NonBlank(s[i])
  }

  predicate Among(s: seq<string>, choices: seq<string>) {
    forall i :: 0 <= i < |s| ==> s[i] in choices
  }

  const PROJECTIONS := ["plugin_provider", "studio_node", "operator_resource", "setup_card"]
  const DISTRIBUTIONS := ["builtin", "package", "marketplace"]
  const LIFECYCLES := ["active", "deprecated", "retired"]
  const PLUGIN_TYPES := ["model", "tool", "datasource", "agent", "trigger", "extension", "bundle"]
  const READINESS_SOURCES := ["backend_plugin_catalog", "workflow_capabilities", "opencli_registry"]
  const DISPOSITIONS := ["operator_ui", "studio_binding", "setup_status", "machine_ingress", "internal_only", "retire"]
  const VERBS := ["GET", "POST", "PUT", "PATCH", "DELETE", "OPTIONS", "HEAD"]

  predicate Disjoint(a: seq<string>, b: seq<string>) {
    forall x <- a :: x !in b
  }

  predicate ProviderFits(p: Provider) {
    && NonBlank(p.key) && StringList(p.aliases) && p.key !in p.aliases
    && p.types != [] && StringList(p.types) && Among(p.types, PLUGIN_TYPES)
    && p.category in PLUGIN_TYPES && p.category in p.types
    && p.required != [] && StringList(p.required) && Among(p.required, READINESS_SOURCES)
    && StringList(p.optional) && Among(p.optional, READINESS_SOURCES) && Disjoint(p.required, p.optional)
    && IsApplicationRoute(p.targetRoute) && IsApplicationRoute(p.configurationRoute)
  }

  predicate NoteFits(lifecycle: string, note: Option<string>) {
    if lifecycle == "deprecated" then note.Some? && NonBlank(note.value) else note.None?
  }

  predicate GroupFits(g: Group) {
    && NonBlank(g.id) && NonBlank(g.caption) && NonBlank(g.owner)
    && g.projection in PROJECTIONS && g.distribution in DISTRIBUTIONS && g.lifecycle in LIFECYCLES
    && NoteFits(g.lifecycle, g.note)
    && StringList(g.wrappers) && StringList(g.nodes)
    && (g.projection == "plugin_provider" <==> g.provider.Some?)
    && (g.provider.Some? ==> ProviderFits(g.provider.value))
  }

  predicate OperationFits(o: Operation, allowed: seq<string>) {
    && o.verb in VERBS && "/" <= o.path && NonBlank(o.id) && o.disposition in allowed
    && (o.route.Some? ==> IsApplicationRoute(o.route.value))
    && (o.wrapper.Some? ==> NonBlank(o.wrapper.value))
    && NonBlank(o.decision) && NonBlank(o.epic)
    && (o.capability.Some? <==> o.reason.None?)
    && (o.disposition in ["operator_ui", "studio_binding", "setup_status"] ==> o.capability.Some?)
    && (if o.capability.Some? then NonBlank(o.capability.value) else NonBlank(o.reason.value))
  }

  predicate WrapperFits(w: Wrapper, allowed: seq<string>) {
    && NonBlank(w.name) && w.disposition in allowed
    && (w.operation.None? ==> w.disposition == "retire")
    && (w.operation.Some? ==> NonBlank(w.operation.value))
    && NonBlank(w.epic) && NonBlank(w.decision)
    && (w.capability.Some? ==> NonBlank(w.capability.value))
  }

  predicate HeaderFits(m: Matrix) {
    && m.version == 1 && m.source == "backend.main.app.openapi"
    && m.allowed != [] && StringList(m.allowed) && Among(m.allowed, DISPOSITIONS)
    && m.count == |m.operations|
  }

  // ---------------------------------------------------------------------------
  // The same, character by character and choice by choice
  // ---------------------------------------------------------------------------

  predicate Blank(s: string) {
    forall c <- s :: c in {' ', '\t', '\n', '\r'}
  }

  /** The list repeats nothing and has only these choices. */
  ghost predicate ChosenFrom(s: seq<string>, choices: set<string>) {
    (forall x <- s :: x in choices) && forall i, j :: 0 <= i < j < |s| ==> s[i] != s[j]
  }

  /** The list repeats nothing and has no blank string. */
  ghost predicate Texts(s: seq<string>) {
    (forall x <- s :: !Blank(x)) && forall i, j :: 0 <= i < j < |s| ==> s[i] != s[j]
  }

  predicate SchemeAt(s: string, i: nat) {
    i + 3 <= |s| && s[i] == ':' && s[i + 1] == '/' && s[i + 2] == '/'
  }

  /** A route starts with one slash, and has no backslash and no scheme in it. */
  lemma RouteIff(s: string)
    ensures IsApplicationRoute(s) <==>
      && |s| >= 1 && s[0] == '/' && (|s| >= 2 ==> s[1] != '/')
      && (forall i :: 0 <= i < |s| ==> s[i] != '\\')
      && (forall i :: 0 <= i < |s| ==> !SchemeAt(s, i))
  {
    if Contains(s, "\\") {
      var i :| 0 <= i <= |s| && "\\" <= s[i..];
      assert s[i] == '\\';
    }
    forall i | 0 <= i < |s| && s[i] == '\\'
      ensures Contains(s, "\\")
    {
      assert "\\" <= s[i..];
    }
    if Contains(s, "://") {
      var i :| 0 <= i <= |s| && "://" <= s[i..];
      assert s[i..][0] == ':' && s[i..][1] == '/' && s[i..][2] == '/';
      assert SchemeAt(s, i);
    }
    forall i | 0 <= i < |s| && SchemeAt(s, i)
      ensures Contains(s, "://")
    {
      assert s[i..][..3] == "://";
      assert "://" <= s[i..];
    }
  }

  lemma NonBlankIff(s: string)
    ensures NonBlank(s) <==> !Blank(s)
  {
    if !Blank(s) {
      var c :| c in s && c !in {' ', '\t', '\n', '\r'};
      var i :| 0 <= i < |s| && s[i] == c;
      assert !IsSpace(s[i]);
    }
    if NonBlank(s) {
      var i :| 0 <= i < |s| && !IsSpace(s[i]);
      assert s[i] in s;
    }
  }

  lemma TextsIff(s: seq<string>)
    ensures StringList(s) <==> Texts(s)
  {
    forall x
      ensures NonBlank(x) <==> !Blank(x)
    {
      NonBlankIff(x);
    }
  }

  lemma ChosenIff(s: seq<string>, choices: seq<string>, named: set<string>)
    requires forall x :: x in choices <==> x in named
    requires forall x <- choices :: NonBlank(x)
    ensures StringList(s) && Among(s, choices) <==> ChosenFrom(s, named)
  {}

  /** The choices are words. */
  lemma ChoicesAreWords()
    ensures forall x <- DISPOSITIONS :: NonBlank(x)
    ensures forall x <- PLUGIN_TYPES :: NonBlank(x)
    ensures forall x <- READINESS_SOURCES :: NonBlank(x)
  {
    forall x <- DISPOSITIONS + PLUGIN_TYPES + READINESS_SOURCES
      ensures NonBlank(x)
    {
      assert !IsSpace(x[0]);
    }
  }

  /** What a matrix says of itself. */
  lemma HeaderFitsIff(m: Matrix)
    ensures HeaderFits(m) <==>
      && m.version == 1 && m.source == "backend.main.app.openapi" && m.count == |m.operations|
      && |m.allowed| >= 1
      && ChosenFrom(m.allowed, {"operator_ui", "studio_binding", "setup_status", "machine_ingress",
                                "internal_only", "retire"})
  {
    ChoicesAreWords();
    ChosenIff(m.allowed, DISPOSITIONS,
      {"operator_ui", "studio_binding", "setup_status", "machine_ingress", "internal_only", "retire"});
  }

  /** What is asked of an operation. */
  lemma OperationFitsIff(o: Operation, allowed: seq<string>)
    ensures OperationFits(o, allowed) <==>
      && o.verb in {"GET", "POST", "PUT", "PATCH", "DELETE", "OPTIONS", "HEAD"} && |o.path| >= 1 && o.path[0] == '/'
      && o.disposition in allowed && !Blank(o.id) && !Blank(o.decision) && !Blank(o.epic)
      && (o.route.Some? ==> IsApplicationRoute(o.route.value))
      && (o.wrapper.Some? ==> !Blank(o.wrapper.value))
      && (o.capability.Some? ==> !Blank(o.capability.value) && o.reason.None?)
      && (o.capability.None? ==>
            && o.reason.Some? && !Blank(o.reason.value)
            && o.disposition !in {"operator_ui", "studio_binding", "setup_status"})
  {
    NonBlankIff(o.id);
    NonBlankIff(o.decision);
    NonBlankIff(o.epic);
    if o.wrapper.Some? {
      NonBlankIff(o.wrapper.value);
    }
    if o.capability.Some? {
      NonBlankIff(o.capability.value);
    }
    if o.reason.Some? {
      NonBlankIff(o.reason.value);
    }
    hide NonBlank, Blank, IsApplicationRoute;
  }

  /** What is asked of a wrapper: one without an operation is to be retired. */
  lemma WrapperFitsIff(w: Wrapper, allowed: seq<string>)
    ensures WrapperFits(w, allowed) <==>
      && !Blank(w.name) && !Blank(w.epic) && !Blank(w.decision) && w.disposition in allowed
      && (if w.operation.Some? then !Blank(w.operation.value) else w.disposition == "retire")
      && (w.capability.Some? ==> !Blank(w.capability.value))
  {
    NonBlankIff(w.name);
    NonBlankIff(w.epic);
    NonBlankIff(w.decision);
    if w.operation.Some? {
      NonBlankIff(w.operation.value);
    }
    if w.capability.Some? {
      NonBlankIff(w.capability.value);
    }
    hide NonBlank, Blank;
  }

  /** What is asked of a group besides its provider; it has a note exactly if it is deprecated. */
  lemma GroupFitsIff(g: Group)
    ensures GroupFits(g) <==>
      && !Blank(g.id) && !Blank(g.caption) && !Blank(g.owner)
      && g.projection in {"plugin_provider", "studio_node", "operator_resource", "setup_card"}
      && g.distribution in {"builtin", "package", "marketplace"}
      && g.lifecycle in {"active", "deprecated", "retired"}
      && (g.note.Some? <==> g.lifecycle == "deprecated") && (g.note.Some? ==> !Blank(g.note.value))
      && Texts(g.wrappers) && Texts(g.nodes)
      && (g.provider.Some? <==> g.projection == "plugin_provider")
      && (g.provider.Some? ==> ProviderFits(g.provider.value))
  {
    NonBlankIff(g.id);
    NonBlankIff(g.caption);
    NonBlankIff(g.owner);
    if g.note.Some? {
      NonBlankIff(g.note.value);
    }
    TextsIff(g.wrappers);
    TextsIff(g.nodes);
    hide NonBlank, Blank, StringList, Texts, ProviderFits;
  }

  /** What is asked of a provider: its category is one of its types, and no source is both required and optional. */
  lemma ProviderFitsIff(p: Provider)
    ensures ProviderFits(p) <==>
      && !Blank(p.key) && Texts(p.aliases) && p.key !in p.aliases
      && ChosenFrom(p.types, {"model", "tool", "datasource", "agent", "trigger", "extension", "bundle"})
      && p.category in p.types
      && |p.required| >= 1
      && ChosenFrom(p.required, {"backend_plugin_catalog", "workflow_capabilities", "opencli_registry"})
      && ChosenFrom(p.optional, {"backend_plugin_catalog", "workflow_capabilities", "opencli_registry"})
      && (forall x :: !(x in p.required && x in p.optional))
      && IsApplicationRoute(p.targetRoute) && IsApplicationRoute(p.configurationRoute)
  {
    NonBlankIff(p.key);
    TextsIff(p.aliases);
    ChoicesAreWords();
    ChosenIff(p.types, PLUGIN_TYPES, {"model", "tool", "datasource", "agent", "trigger", "extension", "bundle"});
    ChosenIff(p.required, READINESS_SOURCES, {"backend_plugin_catalog", "workflow_capabilities", "opencli_registry"});
    ChosenIff(p.optional, READINESS_SOURCES, {"backend_plugin_catalog", "workflow_capabilities", "opencli_registry"});
    hide NonBlank, Blank, StringList, Texts, IsApplicationRoute;
  }

  // ---------------------------------------------------------------------------
  // References between entries
  // ---------------------------------------------------------------------------

  predicate HasGroup(gs: seq<Group>, id: string) {
    exists k :: 0 <= k < |gs| && gs[k].id == id
  }

  predicate HasKey(gs: seq<Group>, key: string) {
    exists k :: 0 <= k < |gs| && gs[k].provider.Some? && gs[k].provider.value.key == key
  }

  predicate HasAlias(gs: seq<Group>, alias: string) {
    exists k :: 0 <= k < |gs| && gs[k].provider.Some? && alias in gs[k].provider.value.aliases
  }

  predicate HasOperation(os: seq<Operation>, id: string) {
    exists k :: 0 <= k < |os| && os[k].id == id
  }

  predicate HasRoute(os: seq<Operation>, route: (string, string)) {
    exists k :: 0 <= k < |os| && (os[k].verb, os[k].path) == route
  }

  predicate HasWrapper(ws: seq<Wrapper>, name: string) {
    exists k :: 0 <= k < |ws| && ws[k].name == name
  }

  predicate CallsWrapper(os: seq<Operation>, name: string) {
    exists k :: 0 <= k < |os| && os[k].wrapper == Some(name)
  }

  predicate OperationRefers(os: seq<Operation>, id: string) {
    exists k :: 0 <= k < |os| && os[k].capability == Some(id)
  }

  predicate WrapperRefers(ws: seq<Wrapper>, id: string) {
    exists k :: 0 <= k < |ws| && ws[k].capability == Some(id)
  }

  predicate Clash(g: Group, h: Group) {
    || g.id == h.id
    || (g.provider.Some? && h.provider.Some?
        && (g.provider.value.key == h.provider.value.key
          || !Disjoint(g.provider.value.aliases, h.provider.value.aliases)))
  }

  ghost predicate GroupsValid(gs: seq<Group>) {
    && (forall i :: 0 <= i < |gs| ==> GroupFits(gs[i]))
    && (forall i, j :: 0 <= i < j < |gs| ==> !Clash(gs[i], gs[j]))
  }

  ghost predicate KeysApart(gs: seq<Group>) {
    forall x :: !(HasKey(gs, x) && HasAlias(gs, x))
  }

  predicate OperationsClash(o: Operation, p: Operation) {
    o.id == p.id || (o.verb == p.verb && o.path == p.path)
  }

  ghost predicate OperationsValid(os: seq<Operation>, allowed: seq<string>, gs: seq<Group>) {
    && (forall i :: 0 <= i < |os| ==> OperationFits(os[i], allowed))
    && (forall i :: 0 <= i < |os| && os[i].capability.Some? ==> HasGroup(gs, os[i].capability.value))
    && (forall i, j :: 0 <= i < j < |os| ==> !OperationsClash(os[i], os[j]))
  }

  ghost predicate WrappersValid(ws: seq<Wrapper>, allowed: seq<string>, gs: seq<Group>, os: seq<Operation>) {
    && (forall i :: 0 <= i < |ws| ==> WrapperFits(ws[i], allowed))
    && (forall i :: 0 <= i < |ws| && ws[i].operation.Some? ==> HasOperation(os, ws[i].operation.value))
    && (forall i :: 0 <= i < |ws| && ws[i].capability.Some? ==> HasGroup(gs, ws[i].capability.value))
    && (forall i, j :: 0 <= i < j < |ws| ==> ws[i].name != ws[j].name)
  }

  /** Every wrapper a group names is known, and something refers to the group or it names something. */
  ghost predicate Referenced(g: Group, os: seq<Operation>, ws: seq<Wrapper>) {
    && (forall k :: 0 <= k < |g.wrappers| ==> CallsWrapper(os, g.wrappers[k]) || HasWrapper(ws, g.wrappers[k]))
    && (OperationRefers(os, g.id) || WrapperRefers(ws, g.id) || g.wrappers != [] || g.nodes != [])
  }

  /** What validate_matrix accepts. */
  ghost predicate Valid(m: Matrix) {
    && HeaderFits(m)
    && GroupsValid(m.groups)
    && KeysApart(m.groups)
    && OperationsValid(m.operations, m.allowed, m.groups)
    && WrappersValid(m.wrappers, m.allowed, m.groups, m.operations)
    && (forall i :: 0 <= i < |m.groups| ==> Referenced(m.groups[i], m.operations, m.wrappers))
  }

  // ---------------------------------------------------------------------------
  // The validator
  // ---------------------------------------------------------------------------

  /** What the validator has collected from the groups seen so far. */
  ghost predicate Collected(gs: seq<Group>, ids: set<string>, keys: set<string>, aliases: set<string>) {
    && (forall x :: x in ids <==> HasGroup(gs, x))
    && (forall x :: x in keys <==> HasKey(gs, x))
    && (forall x :: x in aliases <==> HasAlias(gs, x))
  }

  predicate Repeats(g: Group, ids: set<string>, keys: set<string>, aliases: set<string>) {
    || g.id in ids
    || (g.provider.Some? && g.provider.value.key in keys)
    || (g.provider.Some? && exists x <- g.provider.value.aliases :: x in aliases)
  }

  lemma ClashSymmetric(g: Group, h: Group)
    ensures Clash(g, h) <==> Clash(h, g)
  {}

  /** Consulting the sets finds exactly the clashes with earlier groups. */
  lemma RepeatsIffClash(gs: seq<Group>, g: Group, ids: set<string>, keys: set<string>, aliases: set<string>)
    requires Collected(gs, ids, keys, aliases)
    ensures Repeats(g, ids, keys, aliases) <==> exists k :: 0 <= k < |gs| && Clash(gs[k], g)
  {}

  lemma CollectedStep(gs: seq<Group>, g: Group, ids: set<string>, keys: set<string>, aliases: set<string>)
    requires Collected(gs, ids, keys, aliases)
    ensures g.provider.None? ==> Collected(gs + [g], ids + {g.id}, keys, aliases)
    ensures g.provider.Some? ==>
      Collected(gs + [g], ids + {g.id}, keys + {g.provider.value.key}, aliases + Elements(g.provider.value.aliases))
  {
    var more := gs + [g];
    assert more[|gs|] == g;
    forall x
      ensures HasGroup(more, x) <==> HasGroup(gs, x) || g.id == x
      ensures HasKey(more, x) <==> HasKey(gs, x) || (g.provider.Some? && g.provider.value.key == x)
      ensures HasAlias(more, x) <==> HasAlias(gs, x) || (g.provider.Some? && x in g.provider.value.aliases)
    {
      assert forall k :: 0 <= k < |gs| ==> more[k] == gs[k];
    }
  }

  function Elements(s: seq<string>): set<string> {
    set x | x in s
  }

  method ValidateGroups(gs: seq<Group>) returns (ok: bool, ids: set<string>)
    ensures ok <==> GroupsValid(gs) && KeysApart(gs)
    ensures ok ==> forall x :: x in ids <==> HasGroup(gs, x)
  {
    ids := {};
    var keys: set<string>, aliases: set<string> := {}, {};
    for i := 0 to |gs|
      invariant GroupsValid(gs[..i])
      invariant Collected(gs[..i], ids, keys, aliases)
    {
      var g := gs[i];
      RepeatsIffClash(gs[..i], g, ids, keys, aliases);
      if !GroupFits(g) || Repeats(g, ids, keys, aliases) {
        ok := false;
        return;
      }
      CollectedStep(gs[..i], g, ids, keys, aliases);
      assert gs[..i + 1] == gs[..i] + [g];
      ids := ids + {g.id};
      if g.provider.Some? {
        keys := keys + {g.provider.value.key};
        aliases := aliases + Elements(g.provider.value.aliases);
      }
    }
    assert gs[..|gs|] == gs;
    ok := keys * aliases == {};
    if ok {
      assert forall x :: x in keys && x in aliases ==> x in keys * aliases;
    } else {
      var x :| x in keys * aliases;
      assert HasKey(gs, x) && HasAlias(gs, x);
    }
  }

  /** What the validator has collected from the operations seen so far. */
  ghost predicate OperationsCollected(os: seq<Operation>, ids: set<string>, routes: set<(string, string)>,
                                      wrappers: set<string>, referenced: set<string>) {
    && (forall x :: x in ids <==> HasOperation(os, x))
    && (forall x :: x in routes <==> HasRoute(os, x))
    && (forall x :: x in wrappers <==> CallsWrapper(os, x))
    && (forall x :: x in referenced <==> OperationRefers(os, x))
  }

  function With(s: set<string>, x: Option<string>): set<string> {
    if x.Some? then s + {x.value} else s
  }

  lemma OperationStep(os: seq<Operation>, o: Operation, ids: set<string>, routes: set<(string, string)>,
                      wrappers: set<string>, referenced: set<string>)
    requires OperationsCollected(os, ids, routes, wrappers, referenced)
    ensures OperationsCollected(os + [o], ids + {o.id}, routes + {(o.verb, o.path)},
                                With(wrappers, o.wrapper), With(referenced, o.capability))
  {
    var more := os + [o];
    assert more[|os|] == o;
    assert forall k :: 0 <= k < |os| ==> more[k] == os[k];
    assert forall x :: HasOperation(more, x) <==> HasOperation(os, x) || o.id == x;
    assert forall x :: HasRoute(more, x) <==> HasRoute(os, x) || (o.verb, o.path) == x;
    assert forall x :: CallsWrapper(more, x) <==> CallsWrapper(os, x) || o.wrapper == Some(x);
    assert forall x :: OperationRefers(more, x) <==> OperationRefers(os, x) || o.capability == Some(x);
  }

  /** One more operation fits if it fits by itself, refers to a group, and repeats no id and no route. */
  lemma OperationsExtend(os: seq<Operation>, o: Operation, allowed: seq<string>, gs: seq<Group>)
    ensures OperationsValid(os + [o], allowed, gs) <==>
      && OperationsValid(os, allowed, gs) && OperationFits(o, allowed)
      && (o.capability.Some? ==> HasGroup(gs, o.capability.value))
      && !HasOperation(os, o.id) && !HasRoute(os, (o.verb, o.path))
  {
    var more := os + [o];
    assert more[|os|] == o;
    assert forall k :: 0 <= k < |os| ==> more[k] == os[k];
    assert HasOperation(os, o.id) || HasRoute(os, (o.verb, o.path)) <==>
      exists k :: 0 <= k < |os| && OperationsClash(os[k], o);
  }

  lemma OperationsPrefix(os: seq<Operation>, i: nat, allowed: seq<string>, gs: seq<Group>)
    requires i <= |os|
    ensures OperationsValid(os, allowed, gs) ==> OperationsValid(os[..i], allowed, gs)
  {}

  method ValidateOperations(os: seq<Operation>, allowed: seq<string>, gs: seq<Group>, groupIds: set<string>)
    returns (ok: bool, ids: set<string>, wrappers: set<string>, referenced: set<string>)
    requires forall x :: x in groupIds <==> HasGroup(gs, x)
    ensures ok <==> OperationsValid(os, allowed, gs)
    ensures ok ==> exists routes :: OperationsCollected(os, ids, routes, wrappers, referenced)
  {
    ids, wrappers, referenced := {}, {}, {};
    var routes: set<(string, string)> := {};
    for i := 0 to |os|
      invariant OperationsValid(os[..i], allowed, gs)
      invariant OperationsCollected(os[..i], ids, routes, wrappers, referenced)
    {
      var o := os[i];
      assert os[..i + 1] == os[..i] + [o];
      OperationsExtend(os[..i], o, allowed, gs);
      if !OperationFits(o, allowed) || o.id in ids || (o.verb, o.path) in routes
         || (o.capability.Some? && o.capability.value !in groupIds)
      {
        OperationsPrefix(os, i + 1, allowed, gs);
        ok := false;
        return;
      }
      OperationStep(os[..i], o, ids, routes, wrappers, referenced);
      ids, routes := ids + {o.id}, routes + {(o.verb, o.path)};
      wrappers, referenced := With(wrappers, o.wrapper), With(referenced, o.capability);
    }
    assert os[..|os|] == os;
    ok := true;
  }

  ghost predicate WrappersCollected(ws: seq<Wrapper>, names: set<string>, referenced: set<string>) {
    && (forall x :: x in names <==> HasWrapper(ws, x))
    && (forall x :: x in referenced <==> WrapperRefers(ws, x))
  }

  lemma WrapperStep(ws: seq<Wrapper>, w: Wrapper, names: set<string>, referenced: set<string>)
    requires WrappersCollected(ws, names, referenced)
    ensures WrappersCollected(ws + [w], names + {w.name}, With(referenced, w.capability))
  {
    var more := ws + [w];
    assert more[|ws|] == w;
    assert forall k :: 0 <= k < |ws| ==> more[k] == ws[k];
    assert forall x :: HasWrapper(more, x) <==> HasWrapper(ws, x) || w.name == x;
    assert forall x :: WrapperRefers(more, x) <==> WrapperRefers(ws, x) || w.capability == Some(x);
  }

  lemma WrappersExtend(ws: seq<Wrapper>, w: Wrapper, allowed: seq<string>, gs: seq<Group>, os: seq<Operation>)
    ensures WrappersValid(ws + [w], allowed, gs, os) <==>
      && WrappersValid(ws, allowed, gs, os) && WrapperFits(w, allowed)
      && (w.operation.Some? ==> HasOperation(os, w.operation.value))
      && (w.capability.Some? ==> HasGroup(gs, w.capability.value))
      && !HasWrapper(ws, w.name)
  {
    var more := ws + [w];
    assert more[|ws|] == w;
    assert forall k :: 0 <= k < |ws| ==> more[k] == ws[k];
  }

  lemma WrappersPrefix(ws: seq<Wrapper>, i: nat, allowed: seq<string>, gs: seq<Group>, os: seq<Operation>)
    requires i <= |ws|
    ensures WrappersValid(ws, allowed, gs, os) ==> WrappersValid(ws[..i], allowed, gs, os)
  {}

  method ValidateWrappers(ws: seq<Wrapper>, allowed: seq<string>, gs: seq<Group>, os: seq<Operation>,
                          groupIds: set<string>, operationIds: set<string>)
    returns (ok: bool, names: set<string>, referenced: set<string>)
    requires forall x :: x in groupIds <==> HasGroup(gs, x)
    requires forall x :: x in operationIds <==> HasOperation(os, x)
    ensures ok <==> WrappersValid(ws, allowed, gs, os)
    ensures ok ==> WrappersCollected(ws, names, referenced)
  {
    names, referenced := {}, {};
    for i := 0 to |ws|
      invariant WrappersValid(ws[..i], allowed, gs, os)
      invariant WrappersCollected(ws[..i], names, referenced)
    {
      var w := ws[i];
      assert ws[..i + 1] == ws[..i] + [w];
      WrappersExtend(ws[..i], w, allowed, gs, os);
      if !WrapperFits(w, allowed) || w.name in names
         || (w.operation.Some? && w.operation.value !in operationIds)
         || (w.capability.Some? && w.capability.value !in groupIds)
      {
        WrappersPrefix(ws, i + 1, allowed, gs, os);
        ok := false;
        return;
      }
      WrapperStep(ws[..i], w, names, referenced);
      names, referenced := names + {w.name}, With(referenced, w.capability);
    }
    assert ws[..|ws|] == ws;
    ok := true;
  }

  /** validate_matrix: accepts exactly the valid matrices. */
  method ValidateMatrix(m: Matrix) returns (ok: bool)
    ensures ok <==> Valid(m)
  {
    if !HeaderFits(m) {
      return false;
    }
    var groupIds: set<string>, operationIds: set<string>, called: set<string>, referenced: set<string>;
    var names: set<string>, wrapped: set<string>;
    ok, groupIds := ValidateGroups(m.groups);
    if !ok {
      return;
    }
    ok, operationIds, called, referenced := ValidateOperations(m.operations, m.allowed, m.groups, groupIds);
    if !ok {
      return;
    }
    ok, names, wrapped := ValidateWrappers(m.wrappers, m.allowed, m.groups, m.operations, groupIds, operationIds);
    if !ok {
      return;
    }
    for i := 0 to |m.groups|
      invariant forall j :: 0 <= j < i ==> Referenced(m.groups[j], m.operations, m.wrappers)
    {
      var g := m.groups[i];
      var unknown := exists k :: 0 <= k < |g.wrappers| && g.wrappers[k] !in called && g.wrappers[k] !in names;
      var idle := g.id !in referenced && g.id !in wrapped && g.wrappers == [] && g.nodes == [];
      if unknown || idle {
        assert !Referenced(g, m.operations, m.wrappers);
        return false;
      }
    }
    return true;
  }
}
