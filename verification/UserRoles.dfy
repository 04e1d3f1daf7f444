/** Summaries of a user's roles in organisations and spaces, and the question whether there are any. */
module UserRoles {
  import opened Wrappers

  /** A listed resource: the GUID and name of the entity, and the GUID in its metadata. */
  datatype Org = Org(guid: string, metadataGuid: string, name: string)

  datatype Space = Space(guid: string, metadataGuid: string, name: string, orgGuid: string)

  /** The role lists of a user; a list that was not fetched is absent. */
  datatype CfUser = CfUser(
    organizations: Option<seq<Org>>, audited: Option<seq<Org>>, billing: Option<seq<Org>>, managed: Option<seq<Org>>,
    spaces: Option<seq<Space>>, auditedSpaces: Option<seq<Space>>, managedSpaces: Option<seq<Space>>)

  datatype OrgEntry = OrgEntry(name: string, orgGuid: string, manager: bool, billing: bool, auditor: bool, user: bool)

  datatype SpaceEntry = SpaceEntry(name: string, orgGuid: string, spaceGuid: string, manager: bool, auditor: bool,
                                   developer: bool)

  function Listed<T>(list: Option<seq<T>>): seq<T> {
    if list.Some? then list.value else []
  }

  predicate HasOrgRole(list: Option<seq<Org>>, guid: string) {
    list.Some? && exists o <- list.value :: o.metadataGuid == guid
  }

  predicate HasSpaceRole(list: Option<seq<Space>>, guid: string) {
    list.Some? && exists s <- list.value :: s.metadataGuid == guid
  }

  function OrgEntryOf(user: CfUser, org: Org): OrgEntry {
    OrgEntry(org.name, org.metadataGuid, HasOrgRole(user.managed, org.guid), HasOrgRole(user.billing, org.guid),
             HasOrgRole(user.audited, org.guid), HasOrgRole(user.organizations, org.guid))
  }

  function SpaceEntryOf(user: CfUser, space: Space): SpaceEntry {
    SpaceEntry(space.name, space.orgGuid, space.guid, HasSpaceRole(user.managedSpaces, space.guid),
               HasSpaceRole(user.auditedSpaces, space.guid), HasSpaceRole(user.spaces, space.guid))
  }

  /** The first resource of every entity GUID that was not processed before. */
  function NewOrgs(processed: set<string>, orgs: seq<Org>): seq<Org>
    decreases |orgs|
  {
    if orgs == [] then []
    else if orgs[0].guid in processed then NewOrgs(processed, orgs[1..])
    else [orgs[0]] + NewOrgs(processed + {orgs[0].guid}, orgs[1..])
  }

  function NewSpaces(processed: set<string>, spaces: seq<Space>): seq<Space>
    decreases |spaces|
  {
    if spaces == [] then []
    else if spaces[0].guid in processed then NewSpaces(processed, spaces[1..])
    else [spaces[0]] + NewSpaces(processed + {spaces[0].guid}, spaces[1..])
  }

  function OrgEntries(user: CfUser, orgs: seq<Org>): seq<OrgEntry> {
    seq(|orgs|, i requires 0 <= i < |orgs| => OrgEntryOf(user, orgs[i]))
  }

  function SpaceEntries(user: CfUser, spaces: seq<Space>): seq<SpaceEntry> {
    seq(|spaces|, i requires 0 <= i < |spaces| => SpaceEntryOf(user, spaces[i]))
  }

  function GuidsOf(orgs: seq<Org>): set<string> {
    set o | o in orgs :: o.guid
  }

  function SpaceGuidsOf(spaces: seq<Space>): set<string> {
    set s | s in spaces :: s.guid
  }

  function AllOrgs(user: CfUser): seq<Org> {
    Listed(user.organizations) + Listed(user.audited) + Listed(user.billing) + Listed(user.managed)
  }

  function AllSpaces(user: CfUser): seq<Space> {
    Listed(user.spaces) + Listed(user.auditedSpaces) + Listed(user.managedSpaces)
  }

  function OrgSummary(user: CfUser): seq<OrgEntry> {
    OrgEntries(user, NewOrgs({}, AllOrgs(user)))
  }

  function SpaceSummary(user: CfUser): seq<SpaceEntry> {
    SpaceEntries(user, NewSpaces({}, AllSpaces(user)))
  }

  /** The result list and the set of processed GUIDs that the parsing of several lists shares. */
  class Summary {
    const user: CfUser
    var processed: set<string>
    var orgs: seq<OrgEntry>
    var spaces: seq<SpaceEntry>

    constructor (user: CfUser)
      ensures this.user == user && processed == {} && orgs == [] && spaces == []
    {
      this.user := user;
      processed, orgs, spaces := {}, [], [];
    }

    method ParseOrgRole(orgsToProcess: seq<Org>)
      modifies this`processed, this`orgs
      ensures orgs == old(orgs) + OrgEntries(user, NewOrgs(old(processed), orgsToProcess))
      ensures processed == old(processed) + GuidsOf(orgsToProcess)
    {
      for i := 0 to |orgsToProcess|
        invariant old(orgs) + OrgEntries(user, NewOrgs(old(processed), orgsToProcess))
                  == orgs + OrgEntries(user, NewOrgs(processed, orgsToProcess[i..]))
        invariant processed == old(processed) + GuidsOf(orgsToProcess[..i])
      {
        var org := orgsToProcess[i];
        assert orgsToProcess[i..][1..] == orgsToProcess[i + 1..]
            && orgsToProcess[..i + 1] == orgsToProcess[..i] + [org];
        if org.guid !in processed {
          ghost var rest := NewOrgs(processed + {org.guid}, orgsToProcess[i + 1..]);
          FirstOrgEntry(user, org, rest);
          assert orgs + ([OrgEntryOf(user, org)] + OrgEntries(user, rest))
              == (orgs + [OrgEntryOf(user, org)]) + OrgEntries(user, rest);
          orgs := orgs + [OrgEntryOf(user, org)];
          processed := processed + {org.guid};
        }
      }
      assert orgsToProcess[..|orgsToProcess|] == orgsToProcess;
    }

    method ParseSpaceRole(spacesToProcess: seq<Space>)
      modifies this`processed, this`spaces
      ensures spaces == old(spaces) + SpaceEntries(user, NewSpaces(old(processed), spacesToProcess))
      ensures processed == old(processed) + SpaceGuidsOf(spacesToProcess)
    {
      for i := 0 to |spacesToProcess|
        invariant old(spaces) + SpaceEntries(user, NewSpaces(old(processed), spacesToProcess))
                  == spaces + SpaceEntries(user, NewSpaces(processed, spacesToProcess[i..]))
        invariant processed == old(processed) + SpaceGuidsOf(spacesToProcess[..i])
      {
        var space := spacesToProcess[i];
        assert spacesToProcess[i..][1..] == spacesToProcess[i + 1..];
        assert spacesToProcess[..i + 1] == spacesToProcess[..i] + [space];
        if space.guid !in processed {
          ghost var rest := NewSpaces(processed + {space.guid}, spacesToProcess[i + 1..]);
          FirstSpaceEntry(user, space, rest);
          assert spaces + ([SpaceEntryOf(user, space)] + SpaceEntries(user, rest))
              == (spaces + [SpaceEntryOf(user, space)]) + SpaceEntries(user, rest);
          spaces := spaces + [SpaceEntryOf(user, space)];
          processed := processed + {space.guid};
        }
      }
      assert spacesToProcess[..|spacesToProcess|] == spacesToProcess;
    }
  }

  lemma FirstOrgEntry(user: CfUser, org: Org, rest: seq<Org>)
    ensures OrgEntries(user, [org] + rest) == [OrgEntryOf(user, org)] + OrgEntries(user, rest)
  {
  }

  lemma FirstSpaceEntry(user: CfUser, space: Space, rest: seq<Space>)
    ensures SpaceEntries(user, [space] + rest) == [SpaceEntryOf(user, space)] + SpaceEntries(user, rest)
  {
  }

  lemma {:induction false} NewOrgsOfTwo(processed: set<string>, a: seq<Org>, b: seq<Org>)
    ensures NewOrgs(processed, a + b) == NewOrgs(processed, a) + NewOrgs(processed + GuidsOf(a), b)
    decreases |a|
  {
    if a == [] {
      assert a + b == b && processed + GuidsOf([]) == processed;
    } else {
      assert (a + b)[1..] == a[1..] + b && a == [a[0]] + a[1..];
      if a[0].guid in processed {
        NewOrgsOfTwo(processed, a[1..], b);
        assert processed + GuidsOf(a[1..]) == processed + GuidsOf(a);
      } else {
        NewOrgsOfTwo(processed + {a[0].guid}, a[1..], b);
        assert processed + {a[0].guid} + GuidsOf(a[1..]) == processed + GuidsOf(a);
      }
    }
  }

  lemma {:induction false} NewSpacesOfTwo(processed: set<string>, a: seq<Space>, b: seq<Space>)
    ensures NewSpaces(processed, a + b) == NewSpaces(processed, a) + NewSpaces(processed + SpaceGuidsOf(a), b)
    decreases |a|
  {
    if a == [] {
      assert a + b == b && processed + SpaceGuidsOf([]) == processed;
    } else {
      assert (a + b)[1..] == a[1..] + b && a == [a[0]] + a[1..];
      if a[0].guid in processed {
        NewSpacesOfTwo(processed, a[1..], b);
        assert processed + SpaceGuidsOf(a[1..]) == processed + SpaceGuidsOf(a);
      } else {
        NewSpacesOfTwo(processed + {a[0].guid}, a[1..], b);
        assert processed + {a[0].guid} + SpaceGuidsOf(a[1..]) == processed + SpaceGuidsOf(a);
      }
    }
  }

  lemma OrgEntriesOfTwo(user: CfUser, a: seq<Org>, b: seq<Org>)
    ensures OrgEntries(user, a + b) == OrgEntries(user, a) + OrgEntries(user, b)
  {
  }

  lemma SpaceEntriesOfTwo(user: CfUser, a: seq<Space>, b: seq<Space>)
    ensures SpaceEntries(user, a + b) == SpaceEntries(user, a) + SpaceEntries(user, b)
  {
  }

  /** Parsing one more list after others is parsing their concatenation. */
  lemma ParsedOrgs(user: CfUser, a: seq<Org>, b: seq<Org>)
    ensures OrgEntries(user, NewOrgs({}, a + b))
        == OrgEntries(user, NewOrgs({}, a)) + OrgEntries(user, NewOrgs(GuidsOf(a), b))
    ensures GuidsOf(a + b) == GuidsOf(a) + GuidsOf(b)
  {
    NewOrgsOfTwo({}, a, b);
    assert {} + GuidsOf(a) == GuidsOf(a);
    OrgEntriesOfTwo(user, NewOrgs({}, a), NewOrgs(GuidsOf(a), b));
  }

  lemma ParsedSpaces(user: CfUser, a: seq<Space>, b: seq<Space>)
    ensures SpaceEntries(user, NewSpaces({}, a + b))
            == SpaceEntries(user, NewSpaces({}, a)) + SpaceEntries(user, NewSpaces(SpaceGuidsOf(a), b))
    ensures SpaceGuidsOf(a + b) == SpaceGuidsOf(a) + SpaceGuidsOf(b)
  {
    NewSpacesOfTwo({}, a, b);
    assert {} + SpaceGuidsOf(a) == SpaceGuidsOf(a);
    SpaceEntriesOfTwo(user, NewSpaces({}, a), NewSpaces(SpaceGuidsOf(a), b));
  }

  /** The summary of one given organisation, or of all four role lists. */
  method GetOrgRolesFromUser(user: CfUser, org: Option<Org>) returns (res: seq<OrgEntry>)
    ensures res == if org.Some? then [OrgEntryOf(user, org.value)] else OrgSummary(user)
  {
    var summary := new Summary(user);
    if org.Some? {
      summary.ParseOrgRole([org.value]);
      assert NewOrgs({}, [org.value]) == [org.value] + NewOrgs({} + {org.value.guid}, [org.value][1..]);
    } else {
      var a, b, c, d := Listed(user.organizations), Listed(user.audited), Listed(user.billing), Listed(user.managed);
      summary.ParseOrgRole(a);
      assert summary.orgs == OrgEntries(user, NewOrgs({}, a)) && summary.processed == GuidsOf(a);
      summary.ParseOrgRole(b);
      ParsedOrgs(user, a, b);
      assert summary.orgs == OrgEntries(user, NewOrgs({}, a + b)) && summary.processed == GuidsOf(a + b);
      summary.ParseOrgRole(c);
      ParsedOrgs(user, a + b, c);
      summary.ParseOrgRole(d);
      ParsedOrgs(user, a + b + c, d);
    }
    return summary.orgs;
  }

  method GetSpaceRolesFromUser(user: CfUser, spaces: Option<seq<Space>>) returns (res: seq<SpaceEntry>)
    ensures res == if spaces.Some? then SpaceEntries(user, NewSpaces({}, spaces.value)) else SpaceSummary(user)
  {
    var summary := new Summary(user);
    if spaces.Some? {
      summary.ParseSpaceRole(spaces.value);
    } else {
      var a, b, c := Listed(user.spaces), Listed(user.auditedSpaces), Listed(user.managedSpaces);
      summary.ParseSpaceRole(a);
      assert summary.spaces == SpaceEntries(user, NewSpaces({}, a)) && summary.processed == SpaceGuidsOf(a);
      summary.ParseSpaceRole(b);
      ParsedSpaces(user, a, b);
      summary.ParseSpaceRole(c);
      ParsedSpaces(user, a + b, c);
    }
    return summary.spaces;
  }

  // ---------------------------------------------------------------- what the summaries say

  predicate DifferentGuids(orgs: seq<Org>) {
    forall i, j | 0 <= i < j < |orgs| :: orgs[i].guid != orgs[j].guid
  }

  lemma {:induction false} NewOrgsAreListed(processed: set<string>, orgs: seq<Org>)
    ensures forall i | 0 <= i < |NewOrgs(processed, orgs)| ::
      NewOrgs(processed, orgs)[i] in orgs && NewOrgs(processed, orgs)[i].guid !in processed
    decreases |orgs|
  {
    if orgs != [] {
      assert orgs == [orgs[0]] + orgs[1..];
      NewOrgsAreListed(if orgs[0].guid in processed then processed else processed + {orgs[0].guid}, orgs[1..]);
    }
  }

  lemma {:induction false} NewOrgsCover(processed: set<string>, orgs: seq<Org>, k: nat) returns (i: nat)
    requires k < |orgs| && orgs[k].guid !in processed
    ensures i < |NewOrgs(processed, orgs)| && NewOrgs(processed, orgs)[i].guid == orgs[k].guid
    decreases |orgs|
  {
    if orgs[0].guid in processed {
      i := NewOrgsCover(processed, orgs[1..], k - 1);
    } else if orgs[k].guid == orgs[0].guid {
      i := 0;
    } else {
      i := NewOrgsCover(processed + {orgs[0].guid}, orgs[1..], k - 1);
      i := i + 1;
    }
  }

  lemma {:induction false} NewOrgsDiffer(processed: set<string>, orgs: seq<Org>)
    ensures DifferentGuids(NewOrgs(processed, orgs))
    decreases |orgs|
  {
    if orgs != [] {
      if orgs[0].guid in processed {
        NewOrgsDiffer(processed, orgs[1..]);
      } else {
        NewOrgsDiffer(processed + {orgs[0].guid}, orgs[1..]);
        NewOrgsAreListed(processed + {orgs[0].guid}, orgs[1..]);
      }
    }
  }

  lemma {:induction false} NewSpacesAreListed(processed: set<string>, spaces: seq<Space>)
    ensures forall i | 0 <= i < |NewSpaces(processed, spaces)| ::
      NewSpaces(processed, spaces)[i] in spaces && NewSpaces(processed, spaces)[i].guid !in processed
    decreases |spaces|
  {
    if spaces != [] {
      assert spaces == [spaces[0]] + spaces[1..];
      NewSpacesAreListed(if spaces[0].guid in processed then processed else processed + {spaces[0].guid}, spaces[1..]);
    }
  }

  lemma {:induction false} NewSpacesCover(processed: set<string>, spaces: seq<Space>, k: nat) returns (i: nat)
    requires k < |spaces| && spaces[k].guid !in processed
    ensures i < |NewSpaces(processed, spaces)| && NewSpaces(processed, spaces)[i].guid == spaces[k].guid
    decreases |spaces|
  {
    if spaces[0].guid in processed {
      i := NewSpacesCover(processed, spaces[1..], k - 1);
    } else if spaces[k].guid == spaces[0].guid {
      i := 0;
    } else {
      i := NewSpacesCover(processed + {spaces[0].guid}, spaces[1..], k - 1);
      i := i + 1;
    }
  }

  lemma {:induction false} NewSpacesDiffer(processed: set<string>, spaces: seq<Space>)
    ensures forall i, j | 0 <= i < j < |NewSpaces(processed, spaces)| ::
      NewSpaces(processed, spaces)[i].guid != NewSpaces(processed, spaces)[j].guid
    decreases |spaces|
  {
    if spaces != [] {
      if spaces[0].guid in processed {
        NewSpacesDiffer(processed, spaces[1..]);
      } else {
        NewSpacesDiffer(processed + {spaces[0].guid}, spaces[1..]);
        NewSpacesAreListed(processed + {spaces[0].guid}, spaces[1..]);
      }
    }
  }

  /** Metadata and entity of an organisation carry the same GUID, as they do once the store has them. */
  ghost predicate OrgGuidsAgree(user: CfUser) {
    forall o <- AllOrgs(user) :: o.metadataGuid == o.guid
  }

  ghost predicate SpaceGuidsAgree(user: CfUser) {
    forall s <- AllSpaces(user) :: s.metadataGuid == s.guid
  }

  ghost predicate OneOrgPerSpace(user: CfUser) {
    forall s, t | s in AllSpaces(user) && t in AllSpaces(user) && s.guid == t.guid :: s.orgGuid == t.orgGuid
  }

  predicate IsSpaceListed(list: Option<seq<Space>>, guid: string) {
    list.Some? && exists s <- list.value :: s.guid == guid
  }

  lemma SpaceCovered(user: CfUser, guid: string) returns (i: nat)
    requires guid in SpaceGuidsOf(AllSpaces(user))
    ensures i < |SpaceSummary(user)| && SpaceSummary(user)[i].spaceGuid == guid
  {
    var s :| s in AllSpaces(user) && s.guid == guid;
    var k :| 0 <= k < |AllSpaces(user)| && AllSpaces(user)[k] == s;
    i := NewSpacesCover({}, AllSpaces(user), k);
  }

  /**
   Every space of the three lists has exactly one entry in the summary, with the organisation of a space
   listed under its GUID, and no other has one. Its flags tell in which lists its GUID is that of
   metadata, and so, where metadata and entities agree, its memberships.
   */
  lemma SpaceSummaryIsExact(user: CfUser)
    ensures var res := SpaceSummary(user);
      && (forall i, j | 0 <= i < j < |res| :: res[i].spaceGuid != res[j].spaceGuid)
      && (forall g :: g in SpaceGuidsOf(AllSpaces(user)) <==> exists i :: 0 <= i < |res| && res[i].spaceGuid == g)
      && forall i | 0 <= i < |res| ::
           && (exists s <- AllSpaces(user) ::
               s.guid == res[i].spaceGuid && s.orgGuid == res[i].orgGuid && s.name == res[i].name)
           && res[i].manager == HasSpaceRole(user.managedSpaces, res[i].spaceGuid)
           && res[i].auditor == HasSpaceRole(user.auditedSpaces, res[i].spaceGuid)
           && res[i].developer == HasSpaceRole(user.spaces, res[i].spaceGuid)
    ensures SpaceGuidsAgree(user) ==> forall g ::
      && HasSpaceRole(user.managedSpaces, g) == IsSpaceListed(user.managedSpaces, g)
      && HasSpaceRole(user.auditedSpaces, g) == IsSpaceListed(user.auditedSpaces, g)
      && HasSpaceRole(user.spaces, g) == IsSpaceListed(user.spaces, g)
  {
    var spaces, res := NewSpaces({}, AllSpaces(user)), SpaceSummary(user);
    NewSpacesDiffer({}, AllSpaces(user));
    NewSpacesAreListed({}, AllSpaces(user));
    forall g | g in SpaceGuidsOf(AllSpaces(user))
      ensures exists i :: 0 <= i < |res| && res[i].spaceGuid == g
    {
      var i := SpaceCovered(user, g);
    }
    forall i | 0 <= i < |res|
      ensures spaces[i] in AllSpaces(user) && res[i] == SpaceEntryOf(user, spaces[i])
    {
    }
  }

  predicate IsListed(list: Option<seq<Org>>, guid: string) {
    list.Some? && exists o <- list.value :: o.guid == guid
  }

  lemma RoleIsListed(user: CfUser, list: Option<seq<Org>>, guid: string)
    requires OrgGuidsAgree(user) && forall o <- Listed(list) :: o in AllOrgs(user)
    ensures HasOrgRole(list, guid) == IsListed(list, guid)
  {
  }

  /** Entry `i` of the summary is that of the `i`-th different organisation. */
  lemma SummaryEntry(user: CfUser, i: nat)
    requires OrgGuidsAgree(user) && i < |OrgSummary(user)|
    ensures var org, e := NewOrgs({}, AllOrgs(user))[i], OrgSummary(user)[i];
      && org in AllOrgs(user) && e.orgGuid == org.guid
      && e.manager == IsListed(user.managed, org.guid) && e.billing == IsListed(user.billing, org.guid)
      && e.auditor == IsListed(user.audited, org.guid) && e.user == IsListed(user.organizations, org.guid)
  {
    var orgs := NewOrgs({}, AllOrgs(user));
    NewOrgsAreListed({}, AllOrgs(user));
    RoleIsListed(user, user.managed, orgs[i].guid);
    RoleIsListed(user, user.billing, orgs[i].guid);
    RoleIsListed(user, user.audited, orgs[i].guid);
    RoleIsListed(user, user.organizations, orgs[i].guid);
  }

  /**
   Whether metadata and entities agree or not: the summary has one entry per entity GUID. It shows the
   metadata GUID of the first organisation listed under it, and its flags tell in which lists the entity
   GUID is that of metadata.
   */
  lemma OneEntryPerOrg(user: CfUser)
    ensures var orgs, res := NewOrgs({}, AllOrgs(user)), OrgSummary(user);
      && |res| == |orgs| && DifferentGuids(orgs)
      && (forall g :: g in GuidsOf(AllOrgs(user)) <==> exists i :: 0 <= i < |orgs| && orgs[i].guid == g)
      && forall i | 0 <= i < |res| ::
           && orgs[i] in AllOrgs(user) && res[i].orgGuid == orgs[i].metadataGuid
           && res[i].manager == HasOrgRole(user.managed, orgs[i].guid)
           && res[i].billing == HasOrgRole(user.billing, orgs[i].guid)
           && res[i].auditor == HasOrgRole(user.audited, orgs[i].guid)
           && res[i].user == HasOrgRole(user.organizations, orgs[i].guid)
  {
    var orgs := NewOrgs({}, AllOrgs(user));
    NewOrgsDiffer({}, AllOrgs(user));
    NewOrgsAreListed({}, AllOrgs(user));
    forall g | g in GuidsOf(AllOrgs(user))
      ensures exists i :: 0 <= i < |orgs| && orgs[i].guid == g
    {
      var o :| o in AllOrgs(user) && o.guid == g;
      var k :| 0 <= k < |AllOrgs(user)| && AllOrgs(user)[k] == o;
      var i := NewOrgsCover({}, AllOrgs(user), k);
    }
  }

  lemma EntryOf(user: CfUser, guid: string) returns (i: nat)
    requires OrgGuidsAgree(user) && guid in GuidsOf(AllOrgs(user))
    ensures i < |OrgSummary(user)| && OrgSummary(user)[i].orgGuid == guid
  {
    var o :| o in AllOrgs(user) && o.guid == guid;
    var k :| 0 <= k < |AllOrgs(user)| && AllOrgs(user)[k] == o;
    i := NewOrgsCover({}, AllOrgs(user), k);
    SummaryEntry(user, i);
  }

  /**
   Every organisation of the four lists has exactly one entry in the summary, no other has one, and
   its flags are its memberships of the lists.
   */
  lemma OrgSummaryIsExact(user: CfUser)
    requires OrgGuidsAgree(user)
    ensures var res := OrgSummary(user);
      && (forall i, j | 0 <= i < j < |res| :: res[i].orgGuid != res[j].orgGuid)
      && (forall g :: g in GuidsOf(AllOrgs(user)) <==> exists i :: 0 <= i < |res| && res[i].orgGuid == g)
      && forall i | 0 <= i < |res| ::
           && res[i].manager == IsListed(user.managed, res[i].orgGuid)
           && res[i].billing == IsListed(user.billing, res[i].orgGuid)
           && res[i].auditor == IsListed(user.audited, res[i].orgGuid)
           && res[i].user == IsListed(user.organizations, res[i].orgGuid)
  {
    var orgs, res := NewOrgs({}, AllOrgs(user)), OrgSummary(user);
    NewOrgsDiffer({}, AllOrgs(user));
    forall i | 0 <= i < |res|
      ensures orgs[i] in AllOrgs(user) && res[i].orgGuid == orgs[i].guid
      ensures res[i].manager == IsListed(user.managed, res[i].orgGuid)
          && res[i].billing == IsListed(user.billing, res[i].orgGuid)
      ensures res[i].auditor == IsListed(user.audited, res[i].orgGuid)
          && res[i].user == IsListed(user.organizations, res[i].orgGuid)
    {
      SummaryEntry(user, i);
    }
    forall g | g in GuidsOf(AllOrgs(user))
      ensures exists i :: 0 <= i < |res| && res[i].orgGuid == g
    {
      var i := EntryOf(user, g);
    }
  }

  // ---------------------------------------------------------------- has the user any role

  predicate AnyInOrg(list: Option<seq<Space>>, orgGuid: string) {
    list.Some? && exists s <- list.value :: s.orgGuid == orgGuid
  }

  predicate HasSpaceRolesInOrg(user: CfUser, orgGuid: string) {
    AnyInOrg(user.auditedSpaces, orgGuid) || AnyInOrg(user.managedSpaces, orgGuid) || AnyInOrg(user.spaces, orgGuid)
  }

  predicate HasRolesInOrg(user: CfUser, orgGuid: string, excludeOrgUser: bool) {
    || HasOrgRole(user.audited, orgGuid) || HasOrgRole(user.billing, orgGuid) || HasOrgRole(user.managed, orgGuid)
    || (!excludeOrgUser && HasOrgRole(user.organizations, orgGuid))
    || HasSpaceRolesInOrg(user, orgGuid)
  }

  /** Every space in the summary is one of the user's spaces. */
  lemma SummarisedSpace(user: CfUser, e: SpaceEntry)
    requires e in SpaceSummary(user)
    ensures HasSpaceRolesInOrg(user, e.orgGuid)
  {
    var spaces, res := NewSpaces({}, AllSpaces(user)), SpaceSummary(user);
    NewSpacesAreListed({}, AllSpaces(user));
    var i :| 0 <= i < |res| && res[i] == e;
    assert spaces[i] in AllSpaces(user);
  }

  lemma SpaceEntryFor(user: CfUser, s: Space) returns (e: SpaceEntry)
    requires OneOrgPerSpace(user) && s in AllSpaces(user)
    ensures e in SpaceSummary(user) && e.orgGuid == s.orgGuid
  {
    var k :| 0 <= k < |AllSpaces(user)| && AllSpaces(user)[k] == s;
    var i := NewSpacesCover({}, AllSpaces(user), k);
    NewSpacesAreListed({}, AllSpaces(user));
    e := SpaceSummary(user)[i];
  }

  lemma SpaceRolesAreSummarised(user: CfUser, orgGuid: string)
    requires OneOrgPerSpace(user)
    ensures HasSpaceRolesInOrg(user, orgGuid) <==> exists e <- SpaceSummary(user) :: e.orgGuid == orgGuid
  {
    if HasSpaceRolesInOrg(user, orgGuid) {
      var s :| s in AllSpaces(user) && s.orgGuid == orgGuid;
      var e := SpaceEntryFor(user, s);
    }
    forall e <- SpaceSummary(user)
      ensures HasSpaceRolesInOrg(user, e.orgGuid)
    {
      SummarisedSpace(user, e);
    }
  }

  predicate ShowsRole(e: OrgEntry, excludeOrgUser: bool) {
    e.manager || e.billing || e.auditor || (!excludeOrgUser && e.user)
  }

  lemma OrgRolesAreSummarised(user: CfUser, orgGuid: string, excludeOrgUser: bool)
    requires OrgGuidsAgree(user)
    ensures (exists e <- OrgSummary(user) :: e.orgGuid == orgGuid && ShowsRole(e, excludeOrgUser)) <==>
      || IsListed(user.audited, orgGuid) || IsListed(user.billing, orgGuid) || IsListed(user.managed, orgGuid)
      || (!excludeOrgUser && IsListed(user.organizations, orgGuid))
  {
    var res := OrgSummary(user);
    if orgGuid in GuidsOf(AllOrgs(user)) {
      var i := EntryOf(user, orgGuid);
      SummaryEntry(user, i);
      assert res[i] in res;
    }
    forall e <- res
      ensures exists i :: 0 <= i < |res| && res[i] == e && res[i].orgGuid in GuidsOf(AllOrgs(user))
    {
      var i :| 0 <= i < |res| && res[i] == e;
      SummaryEntry(user, i);
    }
    OrgSummaryIsExact(user);
  }

  /**
   A user has roles in an organisation exactly if the organisation's entry in the summary shows one,
   or the summary of spaces has an entry in it.
   */
  lemma RolesAreSummarised(user: CfUser, orgGuid: string, excludeOrgUser: bool)
    requires OrgGuidsAgree(user) && OneOrgPerSpace(user)
    ensures HasRolesInOrg(user, orgGuid, excludeOrgUser) <==>
      || (exists e <- OrgSummary(user) :: e.orgGuid == orgGuid && ShowsRole(e, excludeOrgUser))
      || (exists e <- SpaceSummary(user) :: e.orgGuid == orgGuid)
  {
    OrgRolesAreSummarised(user, orgGuid, excludeOrgUser);
    SpaceRolesAreSummarised(user, orgGuid);
    RoleIsListed(user, user.managed, orgGuid);
    RoleIsListed(user, user.billing, orgGuid);
    RoleIsListed(user, user.audited, orgGuid);
    RoleIsListed(user, user.organizations, orgGuid);
  }
}
