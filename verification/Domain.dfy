/** Hierarchies, membership snapshots and role policies: validation, lookup and permissions. */
module Domain {
  import opened Basics
  import Text

  type Id = string

  datatype ScopeDefinition = ScopeDefinition(scope: VoiceScope, displayName: string, priority: int, maxSpeakers: Option<nat>)
  datatype GroupNode = GroupNode(id: Id, displayName: string, active: bool)
  datatype SpecializationNode = SpecializationNode(id: Id, groupId: Id, displayName: string)
  datatype TeamNode = TeamNode(id: Id, specializationId: Id, displayName: string)

  datatype Hierarchy = Hierarchy(
    id: Id,
    scopes: seq<ScopeDefinition>,
    groups: seq<GroupNode>,
    specializations: seq<SpecializationNode>,
    teams: seq<TeamNode>)

  datatype BanStatus = NotBanned | Temporary | Permanent

  datatype Membership = Membership(
    player: Id,
    groupId: Id,
    specializationId: Id,
    teamId: Id,
    roles: seq<Id>,
    connected: bool,
    canReceive: bool,
    transmitMuted: bool,
    ban: BanStatus)

  datatype Snapshot = Snapshot(version: nat, hierarchy: Hierarchy, memberships: seq<Membership>)

  datatype Role = Role(id: Id, transmit: seq<VoiceScope>, receive: seq<VoiceScope>)
  datatype RolePolicy = RolePolicy(roles: seq<Role>)

  // ---------------------------------------------------------------- lookup: the first match, as the finders return it

  function FindScope(scopes: seq<ScopeDefinition>, scope: VoiceScope): Option<ScopeDefinition> {
    if scopes == [] then None else if scopes[0].scope == scope then Some(scopes[0]) else FindScope(scopes[1..], scope)
  }

  function FindGroup(groups: seq<GroupNode>, id: Id): Option<GroupNode> {
    if groups == [] then None else if groups[0].id == id then Some(groups[0]) else FindGroup(groups[1..], id)
  }

  function FindSpecialization(specializations: seq<SpecializationNode>, id: Id): Option<SpecializationNode> {
    if specializations == [] then None
    else if specializations[0].id == id then Some(specializations[0])
    else FindSpecialization(specializations[1..], id)
  }

  function FindTeam(teams: seq<TeamNode>, id: Id): Option<TeamNode> {
    if teams == [] then None else if teams[0].id == id then Some(teams[0]) else FindTeam(teams[1..], id)
  }

  function FindRole(roles: seq<Role>, id: Id): Option<Role> {
    if roles == [] then None else if roles[0].id == id then Some(roles[0]) else FindRole(roles[1..], id)
  }

  predicate CanTransmit(policy: RolePolicy, roles: seq<Id>, scope: VoiceScope) {
    exists id :: id in roles && var role := FindRole(policy.roles, id); role.Some? && scope in role.value.transmit
  }

  predicate CanReceive(policy: RolePolicy, roles: seq<Id>, scope: VoiceScope) {
    exists id :: id in roles && var role := FindRole(policy.roles, id); role.Some? && scope in role.value.receive
  }

  /** The role at `i` counts for whoever holds these role ids: of several roles with one id, the first does. */
  predicate InForce(policy: RolePolicy, roles: seq<Id>, i: int) {
    0 <= i < |policy.roles| && policy.roles[i].id in roles && forall j :: 0 <= j < i ==> policy.roles[j].id != policy.roles[i].id
  }

  lemma {:induction false} FindRoleIsFirst(roles: seq<Role>, id: Id)
    ensures FindRole(roles, id).None? ==> forall i :: 0 <= i < |roles| ==> roles[i].id != id
    ensures FindRole(roles, id).Some? ==>
      exists i :: 0 <= i < |roles| && roles[i] == FindRole(roles, id).value && roles[i].id == id && forall j :: 0 <= j < i ==> roles[j].id != id
  {
    if roles != [] && roles[0].id != id {
      FindRoleIsFirst(roles[1..], id);
      if FindRole(roles, id).Some? {
        var i :| 0 <= i < |roles[1..]| && roles[1..][i] == FindRole(roles, id).value && roles[1..][i].id == id
          && forall j :: 0 <= j < i ==> roles[1..][j].id != id;
        assert roles[i + 1] == FindRole(roles, id).value;
        assert forall j :: 0 <= j < i + 1 ==> roles[j].id != id;
      } else {
        assert forall i :: 0 < i < |roles| ==> roles[i] == roles[1..][i - 1];
      }
    }
  }

  /** The role a policy has in force for an id. */
  lemma RoleInForce(policy: RolePolicy, roles: seq<Id>, i: int)
    requires InForce(policy, roles, i)
    ensures FindRole(policy.roles, policy.roles[i].id) == Some(policy.roles[i])
  {
    FindRoleIsFirst(policy.roles, policy.roles[i].id);
  }

  /** A scope is open for transmitting exactly if a role in force lists it for transmitting. */
  lemma TransmitIsListed(policy: RolePolicy, roles: seq<Id>, scope: VoiceScope)
    ensures CanTransmit(policy, roles, scope) <==> exists i :: InForce(policy, roles, i) && scope in policy.roles[i].transmit
  {
    if CanTransmit(policy, roles, scope) {
      var id :| id in roles && var role := FindRole(policy.roles, id); role.Some? && scope in role.value.transmit;
      FindRoleIsFirst(policy.roles, id);
    }
    forall i | InForce(policy, roles, i) && scope in policy.roles[i].transmit ensures CanTransmit(policy, roles, scope) {
      RoleInForce(policy, roles, i);
    }
  }

  /** And for receiving exactly if one lists it for receiving. */
  lemma ReceiveIsListed(policy: RolePolicy, roles: seq<Id>, scope: VoiceScope)
    ensures CanReceive(policy, roles, scope) <==> exists i :: InForce(policy, roles, i) && scope in policy.roles[i].receive
  {
    if CanReceive(policy, roles, scope) {
      var id :| id in roles && var role := FindRole(policy.roles, id); role.Some? && scope in role.value.receive;
      FindRoleIsFirst(policy.roles, id);
    }
    forall i | InForce(policy, roles, i) && scope in policy.roles[i].receive ensures CanReceive(policy, roles, scope) {
      RoleInForce(policy, roles, i);
    }
  }

  /** The hierarchy node a member addresses at a scope. */
  function ScopeNodeId(m: Membership, scope: VoiceScope): Id {
    match scope
    case Team => m.teamId
    case Specialization => m.specializationId
    case Group => m.groupId
  }

  // ---------------------------------------------------------------- validation

  ghost predicate Distinct<T(!new)>(items: seq<T>) {
    forall i, j :: 0 <= i < j < |items| ==> items[i] != items[j]
  }

  /** The pairwise comparison every constructor makes over its identifiers. */
  method RequireUnique(ids: seq<Id>) returns (unique: bool)
    ensures unique <==> Distinct(ids)
  {
    for current := 0 to |ids|
      invariant forall i, j :: 0 <= i < current && i < j < |ids| ==> ids[i] != ids[j]
    {
      for candidate := current + 1 to |ids|
        invariant forall j :: current < j < candidate ==> ids[current] != ids[j]
      {
        if ids[current] == ids[candidate] { return false; }
      }
    }
    return true;
  }

  function GroupIds(groups: seq<GroupNode>): seq<Id> { seq(|groups|, i requires 0 <= i < |groups| => groups[i].id) }

  function SpecializationIds(items: seq<SpecializationNode>): seq<Id> {
    seq(|items|, i requires 0 <= i < |items| => items[i].id)
  }

  function TeamIds(teams: seq<TeamNode>): seq<Id> { seq(|teams|, i requires 0 <= i < |teams| => teams[i].id) }

  function Players(memberships: seq<Membership>): seq<Id> {
    seq(|memberships|, i requires 0 <= i < |memberships| => memberships[i].player)
  }

  ghost predicate ValidHierarchy(h: Hierarchy) {
    && Distinct(GroupIds(h.groups)) && Distinct(SpecializationIds(h.specializations)) && Distinct(TeamIds(h.teams))
    && (forall s <- h.scopes :: s.displayName != "")
    && (forall i, j :: 0 <= i < j < |h.scopes| ==> h.scopes[i].scope != h.scopes[j].scope)
    && (forall s <- h.specializations :: FindGroup(h.groups, s.groupId).Some?)
    && (forall t <- h.teams :: FindSpecialization(h.specializations, t.specializationId).Some?)
  }

  /** A membership names a team of a specialization of a group, all of this hierarchy. */
  predicate OnPath(h: Hierarchy, m: Membership) {
    var group := FindGroup(h.groups, m.groupId);
    var specialization := FindSpecialization(h.specializations, m.specializationId);
    var team := FindTeam(h.teams, m.teamId);
    && group.Some? && specialization.Some? && team.Some?
    && specialization.value.groupId == group.value.id
    && team.value.specializationId == specialization.value.id
  }

  ghost predicate Sorted(memberships: seq<Membership>) {
    forall i, j :: 0 <= i < j < |memberships| ==> Text.Less(memberships[i].player, memberships[j].player)
  }

  ghost predicate ValidSnapshot(s: Snapshot) {
    && s.version > 0
    && ValidHierarchy(s.hierarchy)
    && (forall m <- s.memberships :: OnPath(s.hierarchy, m))
    && Sorted(s.memberships)
  }

  lemma {:induction false} GroupIsListed(groups: seq<GroupNode>, id: Id)
    ensures FindGroup(groups, id).Some? <==> exists g :: g in groups && g.id == id
  {
    if groups != [] {
      GroupIsListed(groups[1..], id);
      assert groups == [groups[0]] + groups[1..];
    }
  }

  lemma {:induction false} SpecializationIsListed(items: seq<SpecializationNode>, id: Id)
    ensures FindSpecialization(items, id).Some? <==> exists s :: s in items && s.id == id
  {
    if items != [] {
      SpecializationIsListed(items[1..], id);
      assert items == [items[0]] + items[1..];
    }
  }

  /** Whose specializations all have a group, and whose teams all have a specialization. */
  ghost predicate Joined(h: Hierarchy) {
    && (forall s <- h.specializations :: exists g :: g in h.groups && g.id == s.groupId)
    && (forall t <- h.teams :: exists s :: s in h.specializations && s.id == t.specializationId)
  }

  /** A hierarchy is valid exactly if it is joined, its identifiers and scopes are unique, and its scopes have names. */
  lemma ValidExactly(h: Hierarchy)
    ensures ValidHierarchy(h) <==>
      && Joined(h)
      && (forall i, j :: 0 <= i < j < |h.groups| ==> h.groups[i].id != h.groups[j].id)
      && (forall i, j :: 0 <= i < j < |h.specializations| ==> h.specializations[i].id != h.specializations[j].id)
      && (forall i, j :: 0 <= i < j < |h.teams| ==> h.teams[i].id != h.teams[j].id)
      && (forall i, j :: 0 <= i < j < |h.scopes| ==> h.scopes[i].scope != h.scopes[j].scope)
      && (forall i :: 0 <= i < |h.scopes| ==> h.scopes[i].displayName != "")
  {
    forall s <- h.specializations ensures FindGroup(h.groups, s.groupId).Some? <==> exists g :: g in h.groups && g.id == s.groupId {
      GroupIsListed(h.groups, s.groupId);
    }
    forall t <- h.teams
      ensures FindSpecialization(h.specializations, t.specializationId).Some? <==> exists s :: s in h.specializations && s.id == t.specializationId
    {
      SpecializationIsListed(h.specializations, t.specializationId);
    }
    IdsDiffer(h);
  }

  lemma IdsDiffer(h: Hierarchy)
    ensures Distinct(GroupIds(h.groups)) <==> forall i, j :: 0 <= i < j < |h.groups| ==> h.groups[i].id != h.groups[j].id
    ensures Distinct(SpecializationIds(h.specializations)) <==>
      forall i, j :: 0 <= i < j < |h.specializations| ==> h.specializations[i].id != h.specializations[j].id
    ensures Distinct(TeamIds(h.teams)) <==> forall i, j :: 0 <= i < j < |h.teams| ==> h.teams[i].id != h.teams[j].id
  {
    assert forall i, j :: 0 <= i < j < |h.groups| ==>
      (GroupIds(h.groups)[i] != GroupIds(h.groups)[j] <==> h.groups[i].id != h.groups[j].id);
    assert forall i, j :: 0 <= i < j < |h.specializations| ==>
      (SpecializationIds(h.specializations)[i] != SpecializationIds(h.specializations)[j] <==> h.specializations[i].id != h.specializations[j].id);
    assert forall i, j :: 0 <= i < j < |h.teams| ==> (TeamIds(h.teams)[i] != TeamIds(h.teams)[j] <==> h.teams[i].id != h.teams[j].id);
  }

  method CreateHierarchy(h: Hierarchy) returns (valid: bool)
    ensures valid <==> ValidHierarchy(h)
  {
    var uniqueGroups := RequireUnique(GroupIds(h.groups));
    if !uniqueGroups { return false; }
    var uniqueSpecializations := RequireUnique(SpecializationIds(h.specializations));
    if !uniqueSpecializations { return false; }
    var uniqueTeams := RequireUnique(TeamIds(h.teams));
    if !uniqueTeams { return false; }
    for current := 0 to |h.scopes|
      invariant forall i :: 0 <= i < current ==> h.scopes[i].displayName != ""
      invariant forall i, j :: 0 <= i < current && i < j < |h.scopes| ==> h.scopes[i].scope != h.scopes[j].scope
    {
      if h.scopes[current].displayName == "" { return false; }
      for candidate := current + 1 to |h.scopes|
        invariant forall j :: current < j < candidate ==> h.scopes[current].scope != h.scopes[j].scope
      {
        if h.scopes[current].scope == h.scopes[candidate].scope { return false; }
      }
    }
    for i := 0 to |h.specializations|
      invariant forall k :: 0 <= k < i ==> FindGroup(h.groups, h.specializations[k].groupId).Some?
    {
      if FindGroup(h.groups, h.specializations[i].groupId).None? { return false; }
    }
    for i := 0 to |h.teams|
      invariant forall k :: 0 <= k < i ==> FindSpecialization(h.specializations, h.teams[k].specializationId).Some?
    {
      if FindSpecialization(h.specializations, h.teams[i].specializationId).None? { return false; }
    }
    return true;
  }

  function Insert(m: Membership, sorted: seq<Membership>): seq<Membership> {
    if sorted == [] || !Text.Less(sorted[0].player, m.player) then [m] + sorted
    else [sorted[0]] + Insert(m, sorted[1..])
  }

  function Sort(memberships: seq<Membership>): seq<Membership> {
    if memberships == [] then [] else Insert(memberships[0], Sort(memberships[1..]))
  }

  lemma {:induction false} InsertKeeps(m: Membership, sorted: seq<Membership>)
    ensures multiset(Insert(m, sorted)) == multiset{m} + multiset(sorted)
  {
    if sorted == [] || !Text.Less(sorted[0].player, m.player) {
    } else {
      InsertKeeps(m, sorted[1..]);
      assert sorted == [sorted[0]] + sorted[1..];
    }
  }

  lemma {:induction false} SortKeeps(memberships: seq<Membership>)
    ensures multiset(Sort(memberships)) == multiset(memberships)
  {
    if memberships != [] {
      SortKeeps(memberships[1..]);
      InsertKeeps(memberships[0], Sort(memberships[1..]));
      assert memberships == [memberships[0]] + memberships[1..];
    }
  }

  lemma {:induction false} InsertSorts(m: Membership, sorted: seq<Membership>)
    requires Sorted(sorted) && forall other <- sorted :: other.player != m.player
    ensures Sorted(Insert(m, sorted))
  {
    if sorted == [] {
    } else if !Text.Less(sorted[0].player, m.player) {
      Text.LessIsTotal(sorted[0].player, m.player);
      forall i | 0 < i < |sorted| ensures Text.Less(m.player, sorted[i].player) {
        Text.LessIsTransitive(m.player, sorted[0].player, sorted[i].player);
      }
    } else {
      var rest := Insert(m, sorted[1..]);
      InsertSorts(m, sorted[1..]);
      InsertKeeps(m, sorted[1..]);
      forall i | 0 <= i < |rest| ensures Text.Less(sorted[0].player, rest[i].player) {
        assert rest[i] in multiset(rest);
        assert rest[i] == m || rest[i] in sorted[1..];
      }
    }
  }

  lemma {:induction false} SortSorts(memberships: seq<Membership>)
    requires Distinct(Players(memberships))
    ensures Sorted(Sort(memberships))
  {
    if memberships != [] {
      var rest := memberships[1..];
      assert forall i :: 0 <= i < |rest| ==> Players(rest)[i] == Players(memberships)[i + 1];
      SortSorts(rest);
      SortKeeps(rest);
      forall other | other in Sort(rest) ensures other.player != memberships[0].player {
        assert other in multiset(Sort(rest));
        var i :| 0 <= i < |rest| && rest[i] == other;
        assert Players(memberships)[0] != Players(memberships)[i + 1];
      }
      InsertSorts(memberships[0], Sort(rest));
    }
  }

  /** Sorting neither adds nor drops anybody. */
  lemma SortHasSame(memberships: seq<Membership>, m: Membership)
    ensures m in Sort(memberships) <==> m in memberships
  {
    SortKeeps(memberships);
    assert m in multiset(Sort(memberships)) <==> m in multiset(memberships);
  }

  /** A snapshot is created exactly from a positive version, distinct players and valid paths; it sorts its members. */
  method CreateSnapshot(version: nat, h: Hierarchy, memberships: seq<Membership>) returns (r: Option<Snapshot>)
    requires ValidHierarchy(h)
    ensures r.Some? <==> version > 0 && Distinct(Players(memberships)) && forall m <- memberships :: OnPath(h, m)
    ensures r.Some? ==> ValidSnapshot(r.value) && r.value.version == version && r.value.hierarchy == h
    ensures r.Some? ==> multiset(r.value.memberships) == multiset(memberships)
  {
    if version == 0 { return None; }
    var unique := RequireUnique(Players(memberships));
    if !unique { return None; }
    for i := 0 to |memberships|
      invariant forall k :: 0 <= k < i ==> OnPath(h, memberships[k])
    {
      var group := FindGroup(h.groups, memberships[i].groupId);
      var specialization := FindSpecialization(h.specializations, memberships[i].specializationId);
      var team := FindTeam(h.teams, memberships[i].teamId);
      if group.None? || specialization.None? || team.None?
        || specialization.value.groupId != group.value.id || team.value.specializationId != specialization.value.id
      {
        FoundGroup(h.groups, memberships[i].groupId);
        FoundSpecialization(h.specializations, memberships[i].specializationId);
        assert memberships[i] in memberships && !OnPath(h, memberships[i]);
        return None;
      }
    }
    SortKeeps(memberships);
    SortSorts(memberships);
    forall m | m in Sort(memberships) ensures OnPath(h, m) { SortHasSame(memberships, m); }
    return Some(Snapshot(version, h, Sort(memberships)));
  }

  // ---------------------------------------------------------------- finding a member by halving

  /** The first index in `[low, high]` from which on nobody comes before the player. */
  function LowerBound(memberships: seq<Membership>, player: Id, low: nat, high: nat): nat
    requires low <= high <= |memberships|
    decreases high - low
  {
    if low == high then low
    else
      var middle := low + (high - low) / 2;
      if Text.Less(memberships[middle].player, player) then LowerBound(memberships, player, middle + 1, high)
      else LowerBound(memberships, player, low, middle)
  }

  function Find(s: Snapshot, player: Id): Option<Membership> {
    var i := LowerBound(s.memberships, player, 0, |s.memberships|);
    if i < |s.memberships| && s.memberships[i].player == player then Some(s.memberships[i]) else None
  }

  lemma {:induction false} LowerBoundSplits(memberships: seq<Membership>, player: Id, low: nat, high: nat)
    requires low <= high <= |memberships| && Sorted(memberships)
    requires forall i :: 0 <= i < low ==> Text.Less(memberships[i].player, player)
    requires forall i :: high <= i < |memberships| ==> !Text.Less(memberships[i].player, player)
    ensures var bound := LowerBound(memberships, player, low, high);
      && low <= bound <= high
      && (forall i :: 0 <= i < bound ==> Text.Less(memberships[i].player, player))
      && (forall i :: bound <= i < |memberships| ==> !Text.Less(memberships[i].player, player))
    decreases high - low
  {
    if low < high {
      var middle := low + (high - low) / 2;
      if Text.Less(memberships[middle].player, player) {
        forall i | 0 <= i < middle ensures Text.Less(memberships[i].player, player) {
          Text.LessIsTransitive(memberships[i].player, memberships[middle].player, player);
        }
        LowerBoundSplits(memberships, player, middle + 1, high);
      } else {
        forall i | middle < i < |memberships| ensures !Text.Less(memberships[i].player, player) {
          if Text.Less(memberships[i].player, player) {
            Text.LessIsTransitive(memberships[middle].player, memberships[i].player, player);
          }
        }
        LowerBoundSplits(memberships, player, low, middle);
      }
    }
  }

  lemma SortedAt(memberships: seq<Membership>, i: nat, j: nat)
    requires Sorted(memberships) && i <= j < |memberships|
    ensures i == j || Text.Less(memberships[i].player, memberships[j].player)
  {}

  /** Halving finds exactly the member there is: a snapshot has at most one per player. */
  lemma FindIsMembership(s: Snapshot, player: Id)
    requires Sorted(s.memberships)
    ensures forall m :: Find(s, player) == Some(m) <==> m in s.memberships && m.player == player
  {
    LowerBoundSplits(s.memberships, player, 0, |s.memberships|);
    var bound := LowerBound(s.memberships, player, 0, |s.memberships|);
    Text.LessIsStrict(player, player);
    forall m | m in s.memberships && m.player == player ensures Find(s, player) == Some(m) {
      var i :| 0 <= i < |s.memberships| && s.memberships[i] == m;
      SortedAt(s.memberships, bound, i);
    }
  }

  lemma {:induction false} FoundGroup(groups: seq<GroupNode>, id: Id)
    ensures FindGroup(groups, id).Some? ==> FindGroup(groups, id).value.id == id
  {
    if groups != [] { FoundGroup(groups[1..], id); }
  }

  lemma {:induction false} FoundSpecialization(items: seq<SpecializationNode>, id: Id)
    ensures FindSpecialization(items, id).Some? ==> FindSpecialization(items, id).value.id == id
  {
    if items != [] { FoundSpecialization(items[1..], id); }
  }

  /** On a valid path the node determines its ancestors: same team, same specialization; same specialization, same group. */
  lemma NodeDeterminesAncestors(h: Hierarchy, a: Membership, b: Membership)
    requires OnPath(h, a) && OnPath(h, b)
    ensures a.teamId == b.teamId ==> a.specializationId == b.specializationId
    ensures a.specializationId == b.specializationId ==> a.groupId == b.groupId
  {
    FoundSpecialization(h.specializations, a.specializationId);
    FoundSpecialization(h.specializations, b.specializationId);
    FoundGroup(h.groups, a.groupId);
    FoundGroup(h.groups, b.groupId);
  }
}
