/** The permission decision over one snapshot of the store. */
module Permissions {
  import opened Wrappers

  // ---------------------------------------------------------------- observables on one snapshot

  /** What an observable does on the snapshot: nothing yet, an error, or a value. */
  datatype Signal = Silent | Throws | Says(value: bool)

  /** `combineLatest` followed by `some`; without any source it never emits. */
  function CombineSome(signals: seq<Signal>): Signal {
    if Throws in signals then Throws
    else if signals == [] || Silent in signals then Silent
    else Says(Says(true) in signals)
  }

  function CombineEvery(signals: seq<Signal>): Signal {
    if Throws in signals then Throws
    else if signals == [] || Silent in signals then Silent
    else Says(Says(false) !in signals)
  }

  function ReduceChecks(signals: seq<Signal>, every: bool): Signal {
    if signals == [] then Says(true) else if every then CombineEvery(signals) else CombineSome(signals)
  }

  // ---------------------------------------------------------------- the store

  /** Flags and scopes that are set; a flag that is absent is false. */
  datatype Global = Global(flags: set<string>, scopes: set<string>)

  datatype OrgRole = OrgRole(flags: set<string>, spaceGuids: seq<string>)

  datatype CfState = CfState(global: Global, orgs: map<string, OrgRole>, spaces: map<string, set<string>>)

  /** `registered` are the Cloud Foundry endpoints; `features` has the feature flags of those whose page is loaded. */
  datatype Snapshot = Snapshot(cf: map<string, CfState>, registered: seq<string>,
                               features: map<string, map<string, bool>>,
                               stratosFlags: set<string>, stratosScopes: set<string>)

  datatype Kind = Space | Organization | Endpoint | EndpointScope | FeatureFlag | Stratos | StratosScope

  datatype Config = Config(kind: Kind, permission: string)

  /** The GUIDs of a question; the empty string stands for one that is not given. */
  datatype Query = Query(endpoint: string, orgOrSpace: string, space: string)

  const ALL_SPACES := "PERMISSIONS__ALL_SPACES_PLEASE"

  function EndpointGuids(st: Snapshot, q: Query): seq<string> {
    if q.endpoint == "" then st.registered else [q.endpoint]
  }

  // ---------------------------------------------------------------- single checks

  function GlobalCheck(st: Snapshot, permission: string, endpoint: string): Signal {
    if endpoint in st.cf then Says(permission in st.cf[endpoint].global.flags) else Throws
  }

  function ScopeCheck(st: Snapshot, permission: string, q: Query): Signal {
    var guids := EndpointGuids(st, q);
    CombineSome(seq(|guids|, _ =>
      if q.endpoint == "" then Says(false)
      else if q.endpoint in st.cf then Says(permission in st.cf[q.endpoint].global.scopes)
      else Throws))
  }

  function FeatureOf(st: Snapshot, permission: string, guid: string): Signal {
    if guid !in st.features then Silent
    else Says(permission in st.features[guid] && st.features[guid][permission])
  }

  function FeatureCheck(st: Snapshot, permission: string, q: Query): Signal {
    var guids := EndpointGuids(st, q);
    CombineSome(seq(|guids|, i requires 0 <= i < |guids| => FeatureOf(st, permission, guids[i])))
  }

  predicate HasOrgFlag(state: CfState, guid: string, permission: string) {
    guid in state.orgs && permission in state.orgs[guid].flags
  }

  predicate HasSpaceFlag(state: CfState, guid: string, permission: string) {
    guid in state.spaces && permission in state.spaces[guid]
  }

  predicate AnySpaceInOrg(state: CfState, org: string, permission: string) {
    org in state.orgs && exists s <- state.orgs[org].spaceGuids :: HasSpaceFlag(state, s, permission)
  }

  /** The check of one organisation or space, or of all spaces of an organisation. */
  function RoleCheck(st: Snapshot, c: Config, endpoint: string, guid: string, allSpaces: bool): Signal {
    if endpoint !in st.cf then Silent
    else if allSpaces then Says(AnySpaceInOrg(st.cf[endpoint], guid, c.permission))
    else if c.kind == Space then Says(HasSpaceFlag(st.cf[endpoint], guid, c.permission))
    else Says(HasOrgFlag(st.cf[endpoint], guid, c.permission))
  }

  predicate AnyOfType(st: Snapshot, c: Config, endpoint: string) {
    endpoint in st.cf
    && if c.kind == Space then exists g <- st.cf[endpoint].spaces :: HasSpaceFlag(st.cf[endpoint], g, c.permission)
       else exists g <- st.cf[endpoint].orgs :: HasOrgFlag(st.cf[endpoint], g, c.permission)
  }

  function CfCheck(st: Snapshot, c: Config, q: Query): Signal {
    var allSpaces := q.space == ALL_SPACES;
    var guid := if c.kind == Space && q.space != "" && !allSpaces then q.space else q.orgOrSpace;
    if c.kind == Endpoint then GlobalCheck(st, c.permission, q.endpoint)
    else if q.endpoint != "" && guid != "" then RoleCheck(st, c, q.endpoint, guid, allSpaces)
    else if guid == "" then
      var guids := EndpointGuids(st, q);
      CombineSome(seq(|guids|, i requires 0 <= i < |guids| => Says(AnyOfType(st, c, guids[i]))))
    else Says(false)
  }

  // ---------------------------------------------------------------- administrators

  function AdminOf(st: Snapshot, guid: string): Signal {
    if guid in st.cf then Says("isAdmin" in st.cf[guid].global.flags) else Silent
  }

  /** Read-only administrators, global auditors and users without the write scope. */
  predicate IsReadOnly(st: Snapshot, guid: string) {
    guid in st.cf
    && ("isGlobalAuditor" in st.cf[guid].global.flags || "isReadOnlyAdmin" in st.cf[guid].global.flags
        || "canWrite" !in st.cf[guid].global.flags)
  }

  function AdminChecks(st: Snapshot, q: Query): Signal {
    var guids := EndpointGuids(st, q);
    ReduceChecks(seq(|guids|, i requires 0 <= i < |guids| => AdminOf(st, guids[i])), false)
  }

  function ReadOnlyChecks(st: Snapshot, q: Query): Signal {
    var guids := EndpointGuids(st, q);
    ReduceChecks(seq(|guids|, i requires 0 <= i < |guids| => Says(IsReadOnly(st, guids[i]))), true)
  }

  /** Administrators may, other read-only users may not, and everybody else is checked. */
  function ApplyAdminCheck(st: Snapshot, q: Query, check: Signal): Signal {
    var admin, readOnly := AdminChecks(st, q), ReadOnlyChecks(st, q);
    if admin == Throws || readOnly == Throws then Throws
    else if admin == Silent || readOnly == Silent then Silent
    else if admin.value then Says(true)
    else if readOnly.value then Says(false)
    else check
  }

  // ---------------------------------------------------------------- simple and complex decisions

  function SimpleCheck(st: Snapshot, c: Config, q: Query): Signal {
    match c.kind
    case FeatureFlag => FeatureCheck(st, c.permission, q)
    case Stratos => Says(c.permission in st.stratosFlags)
    case StratosScope => Says(c.permission in st.stratosScopes)
    case EndpointScope => ScopeCheck(st, c.permission, q)
    case _ => CfCheck(st, c, q)
  }

  function SimplePermission(st: Snapshot, c: Config, q: Query): Signal {
    if c.kind == Organization || c.kind == Space then ApplyAdminCheck(st, q, SimpleCheck(st, c, q))
    else SimpleCheck(st, c, q)
  }

  /** Organisations and spaces form one group; every other type is a group of its own. */
  function GroupOf(c: Config): Kind {
    if c.kind == Space then Organization else c.kind
  }

  datatype Group = Group(kind: Kind, configs: seq<Config>)

  function AddToGroup(groups: seq<Group>, c: Config): seq<Group> {
    if groups == [] then [Group(GroupOf(c), [c])]
    else if groups[0].kind == GroupOf(c) then [Group(groups[0].kind, groups[0].configs + [c])] + groups[1..]
    else [groups[0]] + AddToGroup(groups[1..], c)
  }

  function GroupConfigs(configs: seq<Config>): seq<Group> {
    if configs == [] then [] else AddToGroup(GroupConfigs(configs[..|configs| - 1]), configs[|configs| - 1])
  }

  /** The check of a configuration inside a list; there the endpoint type is looked up as an internal scope. */
  function GroupedCheck(st: Snapshot, c: Config, q: Query): Signal {
    match c.kind
    case Stratos => Throws
    case Endpoint => Says(c.permission in st.stratosScopes)
    case StratosScope => Says(c.permission in st.stratosScopes)
    case EndpointScope => ScopeCheck(st, c.permission, q)
    case FeatureFlag => FeatureCheck(st, c.permission, q)
    case _ => CfCheck(st, c, q)
  }

  predicate Handled(configs: seq<Config>) {
    forall c <- configs :: c.kind != Stratos
  }

  function Checks(st: Snapshot, configs: seq<Config>, q: Query): seq<Signal> {
    seq(|configs|, i requires 0 <= i < |configs| => GroupedCheck(st, configs[i], q))
  }

  function GroupSignal(st: Snapshot, g: Group, q: Query): Signal {
    ReduceChecks(Checks(st, g.configs, q), g.kind == FeatureFlag)
  }

  function GroupSignals(st: Snapshot, groups: seq<Group>, q: Query): seq<Signal> {
    seq(|groups|, i requires 0 <= i < |groups| => GroupSignal(st, groups[i], q))
  }

  /** A list with a type that has no group check makes the combination crash, whoever asks. */
  function ComplexPermission(st: Snapshot, configs: seq<Config>, q: Query): Signal {
    if !Handled(configs) then Throws
    else ApplyAdminCheck(st, q, CombineEvery(GroupSignals(st, GroupConfigs(configs), q)))
  }

  datatype Value = Simple(config: Config) | Complex(configs: seq<Config>)

  /** A missing configuration leaves the decision to the endpoint's administrator flag. */
  function Can(st: Snapshot, v: Option<Value>, q: Query): Signal {
    match v
    case Some(Complex(configs)) => ComplexPermission(st, configs, q)
    case Some(Simple(config)) => SimplePermission(st, config, q)
    case None => if q.endpoint != "" then AdminOf(st, q.endpoint) else Says(false)
  }

  // ---------------------------------------------------------------- grouping is a partition

  predicate IsGroup(g: Group, configs: seq<Config>) {
    g.configs != [] && forall c <- g.configs :: c in configs && GroupOf(c) == g.kind
  }

  predicate IsPlaced(groups: seq<Group>, c: Config) {
    exists i :: 0 <= i < |groups| && c in groups[i].configs
  }

  /** Group `i` holds exactly the configurations of its kind, and every configuration has its group. */
  ghost predicate Partitions(groups: seq<Group>, configs: seq<Config>) {
    && (forall i | 0 <= i < |groups| :: IsGroup(groups[i], configs))
    && (forall c <- configs :: IsPlaced(groups, c))
    && (forall i, j | 0 <= i < j < |groups| :: groups[i].kind != groups[j].kind)
  }

  lemma {:induction false} AddingPlaces(groups: seq<Group>, c: Config) returns (i: nat)
    ensures i <= |groups| && forall j | 0 <= j < i :: groups[j].kind != GroupOf(c)
    ensures i < |groups| ==> groups[i].kind == GroupOf(c)
    ensures AddToGroup(groups, c) == if i < |groups| then groups[i := Group(GroupOf(c), groups[i].configs + [c])]
                                     else groups + [Group(GroupOf(c), [c])]
    decreases |groups|
  {
    i := 0;
    if groups != [] && groups[0].kind != GroupOf(c) {
      i := AddingPlaces(groups[1..], c);
      i := i + 1;
      assert groups == [groups[0]] + groups[1..];
    }
  }

  lemma AddingKeepsPartition(groups: seq<Group>, configs: seq<Config>, c: Config)
    requires Partitions(groups, configs)
    ensures Partitions(AddToGroup(groups, c), configs + [c])
  {
    var added := AddToGroup(groups, c);
    var i := AddingPlaces(groups, c);
    forall j | 0 <= j < |added|
      ensures IsGroup(added[j], configs + [c])
    {
      assert j < |groups| ==> IsGroup(groups[j], configs);
    }
    forall d <- configs + [c]
      ensures IsPlaced(added, d)
    {
      if d == c {
        assert c in added[i].configs;
      } else {
        assert IsPlaced(groups, d);
        var j :| 0 <= j < |groups| && d in groups[j].configs;
        assert d in added[j].configs;
      }
    }
  }

  lemma {:induction false} GroupsPartition(configs: seq<Config>)
    ensures Partitions(GroupConfigs(configs), configs)
    decreases |configs|
  {
    if configs != [] {
      var n := |configs| - 1;
      GroupsPartition(configs[..n]);
      AddingKeepsPartition(GroupConfigs(configs[..n]), configs[..n], configs[n]);
      assert configs == configs[..n] + [configs[n]];
    }
  }

  // ---------------------------------------------------------------- the meaning of a list

  /** A feature flag must be enabled itself; of any other group some configuration must be granted. */
  ghost predicate Granted(st: Snapshot, configs: seq<Config>, q: Query, c: Config) {
    if c.kind == FeatureFlag then GroupedCheck(st, c, q) == Says(true)
    else exists d <- configs :: GroupOf(d) == GroupOf(c) && GroupedCheck(st, d, q) == Says(true)
  }

  /** What a list of configurations decides, said without groups and order. */
  ghost function Meaning(st: Snapshot, configs: seq<Config>, q: Query): Signal {
    if exists c <- configs :: GroupedCheck(st, c, q) == Throws then Throws
    else if configs == [] || exists c <- configs :: GroupedCheck(st, c, q) == Silent then Silent
    else Says(forall c <- configs :: Granted(st, configs, q, c))
  }

  lemma CheckIsIn(st: Snapshot, configs: seq<Config>, q: Query, s: Signal)
    ensures s in Checks(st, configs, q) <==> exists c <- configs :: GroupedCheck(st, c, q) == s
  {
    var signals := Checks(st, configs, q);
    if s in signals {
      var i :| 0 <= i < |signals| && signals[i] == s;
      assert configs[i] in configs && GroupedCheck(st, configs[i], q) == s;
    }
    if c :| c in configs && GroupedCheck(st, c, q) == s {
      var i :| 0 <= i < |configs| && configs[i] == c;
      assert signals[i] == s;
    }
  }

  /** What one group of a partition decides. */
  lemma GroupMeaning(st: Snapshot, g: Group, q: Query)
    requires g.configs != [] && forall c <- g.configs :: GroupOf(c) == g.kind
    ensures GroupSignal(st, g, q) == Throws <==> exists c <- g.configs :: GroupedCheck(st, c, q) == Throws
    ensures GroupSignal(st, g, q) == Silent <==>
      && (exists c <- g.configs :: GroupedCheck(st, c, q) == Silent)
      && !exists c <- g.configs :: GroupedCheck(st, c, q) == Throws
    ensures GroupSignal(st, g, q) == Says(false) && g.kind != FeatureFlag ==>
      forall c <- g.configs :: GroupedCheck(st, c, q) == Says(false)
    ensures GroupSignal(st, g, q) == Says(false) && g.kind == FeatureFlag ==>
      exists c <- g.configs :: GroupedCheck(st, c, q) == Says(false)
    ensures GroupSignal(st, g, q) == Says(true) ==>
      if g.kind == FeatureFlag then forall c <- g.configs :: GroupedCheck(st, c, q) == Says(true)
      else exists c <- g.configs :: GroupedCheck(st, c, q) == Says(true)
  {
    CheckIsIn(st, g.configs, q, Throws);
    CheckIsIn(st, g.configs, q, Silent);
    CheckIsIn(st, g.configs, q, Says(true));
    CheckIsIn(st, g.configs, q, Says(false));
  }

  /** A list decides by the set of its configurations: group by group, all groups together. */
  lemma GroupsMeanTheirConfigs(st: Snapshot, configs: seq<Config>, q: Query)
    ensures CombineEvery(GroupSignals(st, GroupConfigs(configs), q)) == Meaning(st, configs, q)
  {
    var groups := GroupConfigs(configs);
    var signals := GroupSignals(st, groups, q);
    GroupsPartition(configs);
    forall i | 0 <= i < |groups|
      ensures signals[i] == GroupSignal(st, groups[i], q)
    {
    }
    SomeGroup(st, groups, configs, q, Throws);
    if Throws !in signals {
      SomeGroup(st, groups, configs, q, Silent);
      if Silent !in signals {
        NoGroupDenies(st, groups, configs, q);
      }
    }
    assert groups == [] ==> configs == [] by {
      if configs != [] {
        assert configs[0] in configs;
      }
    }
    assert configs == [] ==> groups == [];
  }

  /** Some group throws if some configuration does, and likewise for silence when nothing throws. */
  lemma SomeGroup(st: Snapshot, groups: seq<Group>, configs: seq<Config>, q: Query, s: Signal)
    requires Partitions(groups, configs) && (s == Throws || s == Silent)
    requires s == Silent ==> Throws !in GroupSignals(st, groups, q)
    ensures s in GroupSignals(st, groups, q) <==> exists c <- configs :: GroupedCheck(st, c, q) == s
  {
    var signals := GroupSignals(st, groups, q);
    if s in signals {
      var i :| 0 <= i < |signals| && signals[i] == s;
      GroupMeaning(st, groups[i], q);
    }
    if c :| c in configs && GroupedCheck(st, c, q) == s {
      var i :| 0 <= i < |groups| && c in groups[i].configs;
      GroupMeaning(st, groups[i], q);
      assert signals[i] in signals;
    }
  }

  lemma NoGroupDenies(st: Snapshot, groups: seq<Group>, configs: seq<Config>, q: Query)
    requires Partitions(groups, configs)
    requires Throws !in GroupSignals(st, groups, q) && Silent !in GroupSignals(st, groups, q)
    ensures Says(false) !in GroupSignals(st, groups, q) <==> forall c <- configs :: Granted(st, configs, q, c)
  {
    var signals := GroupSignals(st, groups, q);
    if Says(false) in signals {
      var i :| 0 <= i < |signals| && signals[i] == Says(false);
      GroupMeaning(st, groups[i], q);
      DeniedGroup(st, groups, configs, q, i);
    } else {
      forall c <- configs
        ensures Granted(st, configs, q, c)
      {
        var i :| 0 <= i < |groups| && c in groups[i].configs;
        assert signals[i] in signals;
        GroupMeaning(st, groups[i], q);
      }
    }
  }

  lemma DeniedGroup(st: Snapshot, groups: seq<Group>, configs: seq<Config>, q: Query, i: nat)
    requires Partitions(groups, configs) && i < |groups| && GroupSignal(st, groups[i], q) == Says(false)
    ensures exists c <- configs :: !Granted(st, configs, q, c)
  {
    var g := groups[i];
    GroupMeaning(st, g, q);
    if g.kind == FeatureFlag {
      var c :| c in g.configs && GroupedCheck(st, c, q) == Says(false);
      assert c.kind == FeatureFlag;
      assert !Granted(st, configs, q, c);
    } else {
      var c := g.configs[0];
      assert c in g.configs && c.kind != FeatureFlag;
      forall d <- configs
        ensures !(GroupOf(d) == GroupOf(c) && GroupedCheck(st, d, q) == Says(true))
      {
        var j :| 0 <= j < |groups| && d in groups[j].configs;
        assert GroupOf(d) == GroupOf(c) ==> j == i;
      }
      assert !Granted(st, configs, q, c);
    }
  }

  /** Neither the order of a list nor repetitions in it matter to its decision. */
  lemma OrderIsIrrelevant(st: Snapshot, a: seq<Config>, b: seq<Config>, q: Query)
    requires forall c :: c in a <==> c in b
    ensures ComplexPermission(st, a, q) == ComplexPermission(st, b, q)
  {
    GroupsMeanTheirConfigs(st, a, q);
    GroupsMeanTheirConfigs(st, b, q);
    assert a == [] <==> b == [] by {
      assert a != [] ==> a[0] in a;
      assert b != [] ==> b[0] in b;
    }
    forall c <- a
      ensures Granted(st, a, q, c) == Granted(st, b, q, c)
    {
    }
  }

  // ---------------------------------------------------------------- more roles, more permissions

  /** The second snapshot grants at least the organisation and space roles and feature flags of the first. */
  ghost predicate Grants(st: Snapshot, more: Snapshot) {
    && more.registered == st.registered && more.stratosFlags == st.stratosFlags
    && more.stratosScopes == st.stratosScopes
    && more.cf.Keys == st.cf.Keys && more.features.Keys == st.features.Keys
    && (forall e <- st.cf :: MoreRoles(st.cf[e], more.cf[e]))
    && (forall e <- st.features :: forall f <- st.features[e] ::
          st.features[e][f] ==> f in more.features[e] && more.features[e][f])
  }

  ghost predicate MoreRoles(state: CfState, more: CfState) {
    && more.global == state.global
    && (forall g <- state.orgs :: && g in more.orgs && state.orgs[g].flags <= more.orgs[g].flags
                                  && forall s <- state.orgs[g].spaceGuids :: s in more.orgs[g].spaceGuids)
    && (forall g <- state.spaces :: g in more.spaces && state.spaces[g] <= more.spaces[g])
  }

  /** A yes stays a yes; silence and errors stay what they are. */
  predicate NotLess(s: Signal, t: Signal) {
    (s == Says(true) ==> t == Says(true)) && (s.Says? <==> t.Says?) && (s == Throws <==> t == Throws)
  }

  lemma CombineSomeIsMonotone(a: seq<Signal>, b: seq<Signal>)
    requires |a| == |b| && forall i | 0 <= i < |a| :: NotLess(a[i], b[i])
    ensures NotLess(CombineSome(a), CombineSome(b))
  {
    forall s | s == Throws || s == Silent
      ensures s in a <==> s in b
    {
      if s in a {
        var i :| 0 <= i < |a| && a[i] == s;
        assert b[i] in b;
      }
      if s in b {
        var i :| 0 <= i < |b| && b[i] == s;
        assert a[i] in a;
      }
    }
    if Says(true) in a {
      var i :| 0 <= i < |a| && a[i] == Says(true);
      assert b[i] in b;
    }
  }

  lemma CfCheckIsMonotone(st: Snapshot, more: Snapshot, c: Config, q: Query)
    requires Grants(st, more)
    ensures NotLess(CfCheck(st, c, q), CfCheck(more, c, q))
  {
    var guids := EndpointGuids(st, q);
    var a := seq(|guids|, i requires 0 <= i < |guids| => Says(AnyOfType(st, c, guids[i])));
    var b := seq(|guids|, i requires 0 <= i < |guids| => Says(AnyOfType(more, c, guids[i])));
    forall i | 0 <= i < |guids|
      ensures NotLess(a[i], b[i])
    {
    }
    CombineSomeIsMonotone(a, b);
  }

  lemma FeatureCheckIsMonotone(st: Snapshot, more: Snapshot, permission: string, q: Query)
    requires Grants(st, more)
    ensures NotLess(FeatureCheck(st, permission, q), FeatureCheck(more, permission, q))
  {
    var guids := EndpointGuids(st, q);
    var a := seq(|guids|, i requires 0 <= i < |guids| => FeatureOf(st, permission, guids[i]));
    var b := seq(|guids|, i requires 0 <= i < |guids| => FeatureOf(more, permission, guids[i]));
    CombineSomeIsMonotone(a, b);
  }

  lemma ScopeCheckIsSame(st: Snapshot, more: Snapshot, permission: string, q: Query)
    requires Grants(st, more)
    ensures ScopeCheck(st, permission, q) == ScopeCheck(more, permission, q)
  {
    var guids := EndpointGuids(st, q);
    assert seq(|guids|, _ =>
        if q.endpoint == "" then Says(false)
        else if q.endpoint in st.cf then Says(permission in st.cf[q.endpoint].global.scopes)
        else Throws)
      == seq(|guids|, _ =>
        if q.endpoint == "" then Says(false)
        else if q.endpoint in more.cf then Says(permission in more.cf[q.endpoint].global.scopes)
        else Throws);
  }

  lemma GroupedCheckIsMonotone(st: Snapshot, more: Snapshot, c: Config, q: Query)
    requires Grants(st, more)
    ensures NotLess(GroupedCheck(st, c, q), GroupedCheck(more, c, q))
  {
    match c.kind {
      case FeatureFlag => FeatureCheckIsMonotone(st, more, c.permission, q);
      case EndpointScope => ScopeCheckIsSame(st, more, c.permission, q);
      case Space => CfCheckIsMonotone(st, more, c, q);
      case Organization => CfCheckIsMonotone(st, more, c, q);
      case _ =>
    }
  }

  lemma SimpleCheckIsMonotone(st: Snapshot, more: Snapshot, c: Config, q: Query)
    requires Grants(st, more)
    ensures NotLess(SimpleCheck(st, c, q), SimpleCheck(more, c, q))
  {
    match c.kind {
      case FeatureFlag => FeatureCheckIsMonotone(st, more, c.permission, q);
      case EndpointScope => ScopeCheckIsSame(st, more, c.permission, q);
      case Stratos =>
      case StratosScope =>
      case _ => CfCheckIsMonotone(st, more, c, q);
    }
  }

  lemma AdminIsSame(st: Snapshot, more: Snapshot, q: Query)
    requires Grants(st, more)
    ensures AdminChecks(st, q) == AdminChecks(more, q) && ReadOnlyChecks(st, q) == ReadOnlyChecks(more, q)
  {
    var guids := EndpointGuids(st, q);
    assert seq(|guids|, i requires 0 <= i < |guids| => AdminOf(st, guids[i]))
        == seq(|guids|, i requires 0 <= i < |guids| => AdminOf(more, guids[i]));
    assert seq(|guids|, i requires 0 <= i < |guids| => Says(IsReadOnly(st, guids[i])))
        == seq(|guids|, i requires 0 <= i < |guids| => Says(IsReadOnly(more, guids[i])));
  }

  lemma AdminCheckIsMonotone(st: Snapshot, more: Snapshot, q: Query, check: Signal, other: Signal)
    requires Grants(st, more) && NotLess(check, other)
    ensures NotLess(ApplyAdminCheck(st, q, check), ApplyAdminCheck(more, q, other))
  {
    AdminIsSame(st, more, q);
  }

  lemma MeaningIsMonotone(st: Snapshot, more: Snapshot, configs: seq<Config>, q: Query)
    requires Grants(st, more)
    ensures NotLess(Meaning(st, configs, q), Meaning(more, configs, q))
  {
    forall c <- configs
      ensures NotLess(GroupedCheck(st, c, q), GroupedCheck(more, c, q))
      ensures Granted(st, configs, q, c) ==> Granted(more, configs, q, c)
    {
      forall d
        ensures NotLess(GroupedCheck(st, d, q), GroupedCheck(more, d, q))
      {
        GroupedCheckIsMonotone(st, more, d, q);
      }
    }
  }

  /** Granting more organisation and space roles or enabling more feature flags never turns a yes into a no. */
  lemma MoreRolesNeverDeny(st: Snapshot, more: Snapshot, v: Option<Value>, q: Query)
    requires Grants(st, more)
    ensures NotLess(Can(st, v, q), Can(more, v, q))
  {
    match v {
      case None =>
      case Some(Simple(c)) =>
        SimpleCheckIsMonotone(st, more, c, q);
        AdminCheckIsMonotone(st, more, q, SimpleCheck(st, c, q), SimpleCheck(more, c, q));
      case Some(Complex(configs)) =>
        MeaningIsMonotone(st, more, configs, q);
        GroupsMeanTheirConfigs(st, configs, q);
        GroupsMeanTheirConfigs(more, configs, q);
        AdminCheckIsMonotone(st, more, q, Meaning(st, configs, q), Meaning(more, configs, q));
    }
  }

  // ---------------------------------------------------------------- no permission without a role

  /** On some endpoint of the question the user has the role, in an organisation or a space. */
  ghost predicate HasRole(st: Snapshot, c: Config, q: Query) {
    exists e <- EndpointGuids(st, q) :: e in st.cf
      && ((exists g :: HasOrgFlag(st.cf[e], g, c.permission)) || exists g :: HasSpaceFlag(st.cf[e], g, c.permission))
  }

  lemma RoleBehindYes(st: Snapshot, c: Config, q: Query)
    requires (c.kind == Organization || c.kind == Space) && CfCheck(st, c, q) == Says(true)
    ensures HasRole(st, c, q)
  {
    var guids := EndpointGuids(st, q);
    var signals := seq(|guids|, i requires 0 <= i < |guids| => Says(AnyOfType(st, c, guids[i])));
    if Says(true) in signals {
      var i :| 0 <= i < |signals| && signals[i] == Says(true);
      assert guids[i] in guids && AnyOfType(st, c, guids[i]);
    }
    assert q.endpoint != "" ==> guids == [q.endpoint] && q.endpoint in guids;
  }

  /**
   Somebody who is no administrator gets a yes from a list only with write access, with every feature
   flag of the list enabled and, if it asks for organisation or space roles, with one of them.
   */
  lemma YesIsEarned(st: Snapshot, configs: seq<Config>, q: Query, c: Config)
    requires ComplexPermission(st, configs, q) == Says(true) && AdminChecks(st, q) != Says(true) && c in configs
    ensures ReadOnlyChecks(st, q) == Says(false)
    ensures c.kind == FeatureFlag ==> FeatureCheck(st, c.permission, q) == Says(true)
    ensures c.kind == Organization || c.kind == Space ==>
      exists d <- configs :: (d.kind == Organization || d.kind == Space) && HasRole(st, d, q)
  {
    GroupsMeanTheirConfigs(st, configs, q);
    assert Granted(st, configs, q, c);
    if c.kind == Organization || c.kind == Space {
      var d :| d in configs && GroupOf(d) == GroupOf(c) && GroupedCheck(st, d, q) == Says(true);
      RoleBehindYes(st, d, q);
    }
  }
  // ---------------------------------------------------------------- who is asked at all

  /** The endpoint's administrator, as its flags say. */
  predicate IsAdmin(st: Snapshot, guid: string) {
    guid in st.cf && "isAdmin" in st.cf[guid].global.flags
  }

  /** Nobody who can write: an auditor, a read-only administrator or a user without the write scope. */
  predicate CannotWrite(st: Snapshot, guid: string) {
    guid in st.cf && ({"isGlobalAuditor", "isReadOnlyAdmin"} !! st.cf[guid].global.flags
                      ==> "canWrite" !in st.cf[guid].global.flags)
  }

  lemma AdminChecksMean(st: Snapshot, q: Query)
    ensures var guids := EndpointGuids(st, q);
      AdminChecks(st, q) ==
        if exists g <- guids :: g !in st.cf then Silent
        else Says(guids == [] || exists g <- guids :: IsAdmin(st, g))
  {
    var guids := EndpointGuids(st, q);
    var admins := seq(|guids|, i requires 0 <= i < |guids| => AdminOf(st, guids[i]));
    forall g <- guids
      ensures AdminOf(st, g) in admins
    {
      var i :| 0 <= i < |guids| && guids[i] == g;
      assert admins[i] == AdminOf(st, g);
    }
    forall s <- admins
      ensures exists g <- guids :: s == AdminOf(st, g)
    {
      var i :| 0 <= i < |admins| && admins[i] == s;
      assert guids[i] in guids;
    }
  }

  lemma ReadOnlyChecksMean(st: Snapshot, q: Query)
    ensures ReadOnlyChecks(st, q) == Says(forall g <- EndpointGuids(st, q) :: CannotWrite(st, g))
  {
    var guids := EndpointGuids(st, q);
    var readOnly := seq(|guids|, i requires 0 <= i < |guids| => Says(IsReadOnly(st, guids[i])));
    forall g <- guids
      ensures Says(CannotWrite(st, g)) in readOnly
    {
      var i :| 0 <= i < |guids| && guids[i] == g;
      assert readOnly[i] == Says(CannotWrite(st, g));
    }
    forall s <- readOnly
      ensures exists g <- guids :: s == Says(CannotWrite(st, g))
    {
      var i :| 0 <= i < |readOnly| && readOnly[i] == s;
      assert guids[i] in guids;
    }
  }

  /**
   The answer behind the administrator check, from the flags of the endpoints asked about: nothing while one
   is not loaded, yes to an administrator of any (and if there are none), no to somebody who cannot
   write on any of them, and the check's own answer to all others.
   */
  lemma AdministratorsMay(st: Snapshot, q: Query, check: Signal)
    ensures var guids, answer := EndpointGuids(st, q), ApplyAdminCheck(st, q, check);
      && ((exists g <- guids :: g !in st.cf) ==> answer == Silent)
      && ((forall g <- guids :: g in st.cf) ==>
            && (guids == [] || (exists g <- guids :: IsAdmin(st, g)) ==> answer == Says(true))
            && (guids != [] && (forall g <- guids :: !IsAdmin(st, g) && CannotWrite(st, g)) ==> answer == Says(false))
            && ((forall g <- guids :: !IsAdmin(st, g)) && (exists g <- guids :: !CannotWrite(st, g))
                ==> answer == check))
  {
    AdminChecksMean(st, q);
    ReadOnlyChecksMean(st, q);
  }

  /**
   So an administrator of an endpoint of the question gets a yes to every organisation or space
   configuration and every list that is handled, and somebody who can write nowhere a no; the roles
   decide for all others.
   */
  lemma WhoIsAsked(st: Snapshot, c: Config, configs: seq<Config>, q: Query)
    requires EndpointGuids(st, q) != [] && forall g <- EndpointGuids(st, q) :: g in st.cf
    requires (c.kind == Organization || c.kind == Space) && Handled(configs)
    ensures var guids := EndpointGuids(st, q);
      var simple, complex := Can(st, Some(Simple(c)), q), Can(st, Some(Complex(configs)), q);
      && ((exists g <- guids :: IsAdmin(st, g)) ==> simple == Says(true) && complex == Says(true))
      && ((forall g <- guids :: !IsAdmin(st, g) && CannotWrite(st, g))
          ==> simple == Says(false) && complex == Says(false))
      && ((forall g <- guids :: !IsAdmin(st, g)) && (exists g <- guids :: !CannotWrite(st, g)) ==>
            simple == CfCheck(st, c, q) && complex == Meaning(st, configs, q))
  {
    AdministratorsMay(st, q, CfCheck(st, c, q));
    AdministratorsMay(st, q, Meaning(st, configs, q));
    GroupsMeanTheirConfigs(st, configs, q);
  }

  // ---------------------------------------------------------------- what a single check says

  /** A question about one organisation or space of one endpoint is answered from that role's flags. */
  lemma RoleOfOneDecides(st: Snapshot, c: Config, q: Query)
    requires (c.kind == Organization || c.kind == Space) && q.endpoint != ""
    ensures q.orgOrSpace != "" && q.endpoint !in st.cf ==> CfCheck(st, c, q) == Silent
    ensures q.endpoint in st.cf && c.kind == Organization && q.orgOrSpace != "" && q.space != ALL_SPACES ==>
      (CfCheck(st, c, q) == Says(true) <==>
         var orgs := st.cf[q.endpoint].orgs; q.orgOrSpace in orgs && c.permission in orgs[q.orgOrSpace].flags)
    ensures q.endpoint in st.cf && c.kind == Space && q.space != "" && q.space != ALL_SPACES ==>
      (CfCheck(st, c, q) == Says(true) <==>
         var spaces := st.cf[q.endpoint].spaces; q.space in spaces && c.permission in spaces[q.space])
    ensures q.endpoint in st.cf && c.kind == Space && q.space == "" && q.orgOrSpace != "" ==>
      (CfCheck(st, c, q) == Says(true) <==>
         var spaces := st.cf[q.endpoint].spaces; q.orgOrSpace in spaces && c.permission in spaces[q.orgOrSpace])
    ensures q.endpoint in st.cf && q.space == ALL_SPACES && q.orgOrSpace != "" ==>
      (CfCheck(st, c, q) == Says(true) <==>
         var state := st.cf[q.endpoint];
         && q.orgOrSpace in state.orgs
         && exists s <- state.orgs[q.orgOrSpace].spaceGuids :: s in state.spaces && c.permission in state.spaces[s])
  {
  }

  /** Without an organisation or space it is enough to have the role anywhere on an endpoint of the question. */
  lemma AnyRoleDecides(st: Snapshot, c: Config, q: Query)
    requires (c.kind == Organization || c.kind == Space) && q.orgOrSpace == ""
    requires q.space == "" || q.space == ALL_SPACES || c.kind == Organization
    ensures EndpointGuids(st, q) == [] ==> CfCheck(st, c, q) == Silent
    ensures EndpointGuids(st, q) != [] ==>
      CfCheck(st, c, q) == Says(
        exists e <- EndpointGuids(st, q) :: e in st.cf
          && if c.kind == Space then exists g <- st.cf[e].spaces :: c.permission in st.cf[e].spaces[g]
             else exists g <- st.cf[e].orgs :: c.permission in st.cf[e].orgs[g].flags)
  {
    var guids := EndpointGuids(st, q);
    var signals := seq(|guids|, i requires 0 <= i < |guids| => Says(AnyOfType(st, c, guids[i])));
    forall e <- guids
      ensures Says(AnyOfType(st, c, e)) in signals
    {
      var i :| 0 <= i < |guids| && guids[i] == e;
      assert signals[i] == Says(AnyOfType(st, c, e));
    }
    if Says(true) in signals {
      var i :| 0 <= i < |signals| && signals[i] == Says(true);
      assert guids[i] in guids && AnyOfType(st, c, guids[i]);
    }
  }

  /** A feature flag is enabled if it is on some endpoint of the question; all of them must be loaded. */
  lemma FeatureDecides(st: Snapshot, permission: string, q: Query)
    ensures var guids := EndpointGuids(st, q);
      FeatureCheck(st, permission, q) ==
        if guids == [] || exists g <- guids :: g !in st.features then Silent
        else Says(exists g <- guids :: permission in st.features[g] && st.features[g][permission])
  {
    var guids := EndpointGuids(st, q);
    var signals := seq(|guids|, i requires 0 <= i < |guids| => FeatureOf(st, permission, guids[i]));
    forall g <- guids
      ensures FeatureOf(st, permission, g) in signals
    {
      var i :| 0 <= i < |guids| && guids[i] == g;
      assert signals[i] == FeatureOf(st, permission, g);
    }
    forall s <- signals
      ensures exists g <- guids :: s == FeatureOf(st, permission, g)
    {
      var i :| 0 <= i < |signals| && signals[i] == s;
      assert guids[i] in guids;
    }
  }

  /** A scope is asked of the one endpoint that is given; without one it is never granted. */
  lemma ScopeDecides(st: Snapshot, permission: string, q: Query)
    ensures q.endpoint in st.cf && q.endpoint != "" ==>
      ScopeCheck(st, permission, q) == Says(permission in st.cf[q.endpoint].global.scopes)
    ensures q.endpoint !in st.cf && q.endpoint != "" ==> ScopeCheck(st, permission, q) == Throws
    ensures q.endpoint == "" ==> ScopeCheck(st, permission, q) == if st.registered == [] then Silent else Says(false)
  {
    var guids := EndpointGuids(st, q);
    var signals := seq(|guids|, _ =>
      if q.endpoint == "" then Says(false)
      else if q.endpoint in st.cf then Says(permission in st.cf[q.endpoint].global.scopes)
      else Throws);
    assert guids != [] ==> signals[0] in signals;
    assert forall s <- signals :: s == signals[0];
  }
  /** A question about an organisation or space that names no endpoint is denied. */
  lemma RoleNeedsEndpoint(st: Snapshot, c: Config, q: Query)
    requires (c.kind == Organization || c.kind == Space) && q.endpoint == ""
    requires q.orgOrSpace != "" || (c.kind == Space && q.space != "" && q.space != ALL_SPACES)
    ensures CfCheck(st, c, q) == Says(false)
  {
  }

  /**
   Administrators have no say in the other types: a simple configuration is answered by the flags or scopes
   it names, for every user.
   */
  lemma OtherTypesDecide(st: Snapshot, permission: string, q: Query)
    ensures Can(st, Some(Simple(Config(Stratos, permission))), q) == Says(permission in st.stratosFlags)
    ensures Can(st, Some(Simple(Config(StratosScope, permission))), q) == Says(permission in st.stratosScopes)
    ensures Can(st, Some(Simple(Config(Endpoint, permission))), q)
            == if q.endpoint in st.cf then Says(permission in st.cf[q.endpoint].global.flags) else Throws
    ensures Can(st, Some(Simple(Config(EndpointScope, permission))), q) == ScopeCheck(st, permission, q)
    ensures Can(st, Some(Simple(Config(FeatureFlag, permission))), q) == FeatureCheck(st, permission, q)
  {
  }

  /** An action without a configuration is for the administrators of the endpoint, and for nobody without one. */
  lemma UnknownActionIsForAdmins(st: Snapshot, q: Query)
    ensures Can(st, None, q) ==
      if q.endpoint == "" then Says(false) else if q.endpoint !in st.cf then Silent else Says(IsAdmin(st, q.endpoint))
  {
  }

  /** What a list of one configuration means; an endpoint flag is looked up among the scopes there. */
  lemma MeaningOfOne(st: Snapshot, kind: Kind, permission: string, q: Query)
    ensures Meaning(st, [Config(kind, permission)], q) ==
      match kind
      case Stratos => Throws
      case Endpoint => Says(permission in st.stratosScopes)
      case StratosScope => Says(permission in st.stratosScopes)
      case EndpointScope => ScopeCheck(st, permission, q)
      case FeatureFlag => FeatureCheck(st, permission, q)
      case _ => CfCheck(st, Config(kind, permission), q)
  {
    var c := Config(kind, permission);
    assert forall d <- [c] :: d == c;
    assert c in [c];
    assert GroupedCheck(st, c, q) == Says(true) ==> Granted(st, [c], q, c);
  }

  /** A list with a Stratos flag makes the decision crash, even for administrators. */
  lemma StratosFlagInListCrashes(st: Snapshot, configs: seq<Config>, q: Query)
    ensures (exists c <- configs :: c.kind == Stratos) ==> Can(st, Some(Complex(configs)), q) == Throws
    ensures Handled(configs) <==> forall i | 0 <= i < |configs| :: configs[i].kind != Stratos
  {
  }
}
