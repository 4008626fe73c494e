/** `GET /api/admin/staff/available` (`src/app/api/admin/staff/available/route.ts`):
    the Discord guild members a staff member may flag a ticket of a given
    category to. The guild member list is an input; the route keeps the
    members holding a staff role whose highest role may access the category
    (never the caller), turns each into an entry and sorts the entries by role
    priority, then by name. */
module StaffAvailable {
  import opened Base
  import opened Model
  import Permissions
  import DiscordRoles

  datatype GuildUser = GuildUser(
    id: string,
    username: string,
    avatar: Option<string>,
    globalName: Option<string>)

  datatype GuildMember = GuildMember(user: GuildUser, nick: Option<string>, roles: seq<string>)

  /** One element of the `staff` array of the response. */
  datatype AvailableStaff = AvailableStaff(
    discordId: string,
    name: string,
    username: string,
    role: Option<string>,
    avatar: Option<string>)

  /** The outcome of the guild-member request. */
  datatype FetchResult = FetchOk(members: seq<GuildMember>) | FetchError(text: string)

  datatype StaffResponse =
    | NotAuthenticated
    | CategoryRequired
    | BotNotConfigured
    | MembersFetchFailed(details: string)
    | StaffList(staff: seq<AvailableStaff>)

  function StatusCode(r: StaffResponse): int {
    match r
    case NotAuthenticated => 401
    case CategoryRequired => 400
    case BotNotConfigured => 500
    case MembersFetchFailed(_) => 500
    case StaffList(_) => 200
  }

  /** `getRolePriority`, the route's own priority table: the same as the
      shared one, plus DEV at 100. */
  function StaffPriority(role: string): (p: int)
    ensures role != "DEV" ==> p == DiscordRoles.PriorityOf(role)
    ensures role == "DEV" ==> p == DiscordRoles.PriorityOf("CEO")
    ensures role !in Permissions.RolePermissions ==> p == 0
  {
    var priorities := map[
      "CEO" := 100,
      "DEV" := 100,
      "COMMUNITY_MANAGER" := 80,
      "COORDENADOR" := 60,
      "MODERADOR" := 40,
      "SUPORTE" := 20
    ];
    if role in priorities then priorities[role] else 0
  }

  /** No Discord role id maps to DEV, so on every role the scan can meet the
      route's table and the shared one agree. */
  lemma StaffPriorityAgreesOnMappedRoles()
    ensures forall id :: id in DiscordRoles.DiscordRoleMap ==>
      StaffPriority(DiscordRoles.DiscordRoleMap[id]) == DiscordRoles.PriorityOf(DiscordRoles.DiscordRoleMap[id])
  {
    forall id | id in DiscordRoles.DiscordRoleMap
      ensures DiscordRoles.DiscordRoleMap[id] != "DEV"
    {
    }
  }

  /** The loop the route runs (twice) over a member's role ids, with its own
      priority table: it computes exactly `getHighestRole`. */
  method MemberRole(roles: seq<string>) returns (highestRole: Option<string>)
    ensures highestRole == DiscordRoles.HighestRole(roles)
  {
    highestRole := None;
    var highestPriority := -1;
    for i := 0 to |roles|
      invariant highestRole == DiscordRoles.Scan(roles[..i], StaffPriority)
      invariant highestPriority == DiscordRoles.Rank(highestRole, StaffPriority)
    {
      assert roles[..i + 1][..i] == roles[..i];
      var roleId := roles[i];
      if roleId in DiscordRoles.DiscordRoleMap {
        var systemRole := DiscordRoles.DiscordRoleMap[roleId];
        var priority := StaffPriority(systemRole);
        if priority > highestPriority {
          highestPriority := priority;
          highestRole := Some(systemRole);
        }
      }
    }
    assert roles[..|roles|] == roles;
    StaffPriorityAgreesOnMappedRoles();
    DiscordRoles.ScanAgrees(roles, StaffPriority, DiscordRoles.PriorityOf);
  }

  /** The role the route attributes to a member. */
  function RoleOf(m: GuildMember): Option<string> {
    DiscordRoles.HighestRole(m.roles)
  }

  predicate IsCaller(m: GuildMember, callerId: Option<string>) {
    callerId.Some? && m.user.id == callerId.value
  }

  /** The predicate of the route's `filter`. */
  predicate Keep(m: GuildMember, callerId: Option<string>, category: string)
    ensures Keep(m, callerId, category) ==>
      RoleOf(m).Some? && Permissions.CanAccessCategory(RoleOf(m).value, category) && !IsCaller(m, callerId)
    ensures DiscordRoles.HasAllowedRole(m.roles) ==>
      RoleOf(m).Some? &&
      (Keep(m, callerId, category) <==> !IsCaller(m, callerId) && category in Permissions.PermissionsOf(RoleOf(m).value))
  {
    DiscordRoles.AllowedIffResolved(m.roles);
    && DiscordRoles.HasAllowedRole(m.roles)
    && !IsCaller(m, callerId)
    && RoleOf(m).Some?
    && category in Permissions.PermissionsOf(RoleOf(m).value)
  }

  function KeepFn(callerId: Option<string>, category: string): GuildMember -> bool {
    (m: GuildMember) => Keep(m, callerId, category)
  }

  /** The members the `filter` keeps, in guild order. */
  function Kept(members: seq<GuildMember>, callerId: Option<string>, category: string): seq<GuildMember> {
    Filter(members, KeepFn(callerId, category))
  }

  /** The `map` step: nickname, else global name, else username; a CDN
      avatar URL when the user has an avatar hash. */
  function ToEntry(m: GuildMember): (e: AvailableStaff)
    ensures e.discordId == m.user.id && e.username == m.user.username && e.role == RoleOf(m)
    ensures Truthy(m.nick) ==> e.name == m.nick.value
    ensures !Truthy(m.nick) && Truthy(m.user.globalName) ==> e.name == m.user.globalName.value
    ensures !Truthy(m.nick) && !Truthy(m.user.globalName) ==> e.name == m.user.username
    ensures e.avatar.None? <==> !Truthy(m.user.avatar)
    ensures e.avatar.Some? ==>
      e.avatar.value == "https://cdn.discordapp.com/avatars/" + m.user.id + "/" + m.user.avatar.value + ".png"
  {
    var avatarUrl :=
      if Truthy(m.user.avatar)
      then Some("https://cdn.discordapp.com/avatars/" + m.user.id + "/" + m.user.avatar.value + ".png")
      else None;
    AvailableStaff(
      m.user.id,
      Or(m.nick, Or(m.user.globalName, m.user.username)),
      m.user.username,
      RoleOf(m),
      avatarUrl)
  }

  /** The priority the comparator reads, `getRolePriority(a.role || '')`. */
  function SortKey(e: AvailableStaff): int {
    StaffPriority(Or(e.role, ""))
  }

  /** The comparator returns a non-positive value: higher priority first,
      then names in ascending order. */
  predicate StaffBefore(a: AvailableStaff, b: AvailableStaff) {
    SortKey(a) > SortKey(b) || (SortKey(a) == SortKey(b) && LexLe(a.name, b.name))
  }

  lemma StaffBeforeIsTotalPreorder()
    ensures TotalPreorder(StaffBefore)
  {
    forall a, b ensures StaffBefore(a, b) || StaffBefore(b, a) {
      LexLeTotal(a.name, b.name);
    }
    forall a, b, c | StaffBefore(a, b) && StaffBefore(b, c) ensures StaffBefore(a, c) {
      if SortKey(a) == SortKey(b) && SortKey(b) == SortKey(c) {
        LexLeTransitive(a.name, b.name, c.name);
      }
    }
  }

  /** The response's staff list for a guild member list. */
  function AvailableStaffList(members: seq<GuildMember>, callerId: Option<string>, category: string): (staff: seq<AvailableStaff>)
    ensures |staff| == |Kept(members, callerId, category)| <= |members|
    ensures multiset(staff) == multiset(Map(Kept(members, callerId, category), ToEntry))
  {
    Sort(Map(Kept(members, callerId, category), ToEntry), StaffBefore)
  }

  /** The `filter` callback, with its own role loop. */
  method IsAvailable(m: GuildMember, callerId: Option<string>, category: string) returns (keep: bool)
    ensures keep == Keep(m, callerId, category)
  {
    if !DiscordRoles.HasAllowedRole(m.roles) {
      return false;
    }
    if IsCaller(m, callerId) {
      return false;
    }
    var highestRole := MemberRole(m.roles);
    if highestRole.None? {
      return false;
    }
    keep := category in Permissions.PermissionsOf(highestRole.value);
  }

  /** The `map` callback, with its own role loop. */
  method MakeEntry(m: GuildMember) returns (e: AvailableStaff)
    ensures e == ToEntry(m)
  {
    var highestRole := MemberRole(m.roles);
    var avatarUrl := None;
    if Truthy(m.user.avatar) {
      avatarUrl := Some("https://cdn.discordapp.com/avatars/" + m.user.id + "/" + m.user.avatar.value + ".png");
    }
    e := AvailableStaff(m.user.id, Or(m.nick, Or(m.user.globalName, m.user.username)), m.user.username, highestRole, avatarUrl);
  }

  /** The `filter` / `map` / `sort` chain. */
  method ListAvailable(members: seq<GuildMember>, callerId: Option<string>, category: string)
    returns (staff: seq<AvailableStaff>)
    ensures staff == AvailableStaffList(members, callerId, category)
  {
    var kept := FilterAvailable(members, callerId, category);
    var entries := MakeEntries(kept);
    staff := Sort(entries, StaffBefore);
  }

  /** The `filter` stage. */
  method FilterAvailable(members: seq<GuildMember>, callerId: Option<string>, category: string)
    returns (kept: seq<GuildMember>)
    ensures kept == Kept(members, callerId, category)
  {
    kept := [];
    for i := 0 to |members|
      invariant kept == Kept(members[..i], callerId, category)
    {
      var keep := IsAvailable(members[i], callerId, category);
      assert members[..i + 1] == members[..i] + [members[i]];
      FilterAppend(members[..i], [members[i]], KeepFn(callerId, category));
      if keep {
        kept := kept + [members[i]];
      }
    }
    assert members[..|members|] == members;
  }

  /** The `map` stage. */
  method MakeEntries(kept: seq<GuildMember>) returns (entries: seq<AvailableStaff>)
    ensures entries == Map(kept, ToEntry)
  {
    entries := [];
    for i := 0 to |kept|
      invariant entries == Map(kept[..i], ToEntry)
    {
      var e := MakeEntry(kept[i]);
      entries := entries + [e];
    }
  }

  /** The handler: the checks that need no guild data come first, in order. */
  method Get(session: Option<AdminSession>, category: Option<string>, botToken: Option<string>, fetch: FetchResult)
    returns (r: StaffResponse)
    ensures session.None? ==> r == NotAuthenticated
    ensures session.Some? && !Truthy(category) ==> r == CategoryRequired
    ensures session.Some? && Truthy(category) && !Truthy(botToken) ==> r == BotNotConfigured
    ensures session.Some? && Truthy(category) && Truthy(botToken) && fetch.FetchError? ==>
      r == MembersFetchFailed(fetch.text)
    ensures session.Some? && Truthy(category) && Truthy(botToken) && fetch.FetchOk? ==>
      r == StaffList(AvailableStaffList(fetch.members, session.value.discordId, category.value))
  {
    if session.None? {
      return NotAuthenticated;
    }
    if !Truthy(category) {
      return CategoryRequired;
    }
    if !Truthy(botToken) {
      return BotNotConfigured;
    }
    if fetch.FetchError? {
      return MembersFetchFailed(fetch.text);
    }
    var staff := ListAvailable(fetch.members, session.value.discordId, category.value);
    r := StaffList(staff);
  }

  // ---------------------------------------------------------------------
  // What the list promises

  /** Each entry is the entry of a member the filter keeps. */
  lemma EntriesComeFromKeptMembers(members: seq<GuildMember>, callerId: Option<string>, category: string, k: int)
    requires 0 <= k < |AvailableStaffList(members, callerId, category)|
    ensures exists m :: (m in members && Keep(m, callerId, category) &&
      AvailableStaffList(members, callerId, category)[k] == ToEntry(m))
  {
    var kept := Kept(members, callerId, category);
    var entries := Map(kept, ToEntry);
    var r := AvailableStaffList(members, callerId, category);
    assert r[k] in multiset(r);
    assert r[k] in multiset(entries);
    var j :| 0 <= j < |entries| && entries[j] == r[k];
    assert kept[j] in members && Keep(kept[j], callerId, category);
  }

  /** Every listed member's role may access the category, and the member
      holds a staff role id. */
  lemma OnlyPermittedRoles(members: seq<GuildMember>, callerId: Option<string>, category: string, k: int)
    requires 0 <= k < |AvailableStaffList(members, callerId, category)|
    ensures AvailableStaffList(members, callerId, category)[k].role.Some?
    ensures Permissions.CanAccessCategory(AvailableStaffList(members, callerId, category)[k].role.value, category)
  {
    EntriesComeFromKeptMembers(members, callerId, category, k);
  }

  /** The caller never appears in the list. */
  lemma CallerExcluded(members: seq<GuildMember>, callerId: Option<string>, category: string, k: int)
    requires callerId.Some?
    requires 0 <= k < |AvailableStaffList(members, callerId, category)|
    ensures AvailableStaffList(members, callerId, category)[k].discordId != callerId.value
  {
    EntriesComeFromKeptMembers(members, callerId, category, k);
  }

  /** A member with no staff role id is never listed, whatever its id. */
  lemma UnmappedMembersExcluded(members: seq<GuildMember>, callerId: Option<string>, category: string, k: int)
    requires 0 <= k < |AvailableStaffList(members, callerId, category)|
    ensures exists m :: (m in members && AvailableStaffList(members, callerId, category)[k] == ToEntry(m) &&
      exists i :: 0 <= i < |m.roles| && m.roles[i] in DiscordRoles.DiscordRoleMap)
  {
    EntriesComeFromKeptMembers(members, callerId, category, k);
  }

  /** Every member that passes the filter is listed. */
  lemma KeptMembersListed(members: seq<GuildMember>, callerId: Option<string>, category: string, m: GuildMember)
    requires m in members && Keep(m, callerId, category)
    ensures ToEntry(m) in AvailableStaffList(members, callerId, category)
  {
    var kept := Kept(members, callerId, category);
    var i :| 0 <= i < |members| && members[i] == m;
    assert m in kept;
    var j :| 0 <= j < |kept| && kept[j] == m;
    var entries := Map(kept, ToEntry);
    assert entries[j] == ToEntry(m);
    assert ToEntry(m) in multiset(entries);
  }

  /** The list is ordered by role priority, highest first, then by name. */
  lemma ListIsSorted(members: seq<GuildMember>, callerId: Option<string>, category: string)
    ensures SortedBy(AvailableStaffList(members, callerId, category), StaffBefore)
  {
    StaffBeforeIsTotalPreorder();
    SortIsSorted(Map(Kept(members, callerId, category), ToEntry), StaffBefore);
  }

  /** Reordering the guild's member list lists the same entries. */
  lemma ListIgnoresMemberOrder(a: seq<GuildMember>, b: seq<GuildMember>, callerId: Option<string>, category: string)
    requires multiset(a) == multiset(b)
    ensures multiset(AvailableStaffList(a, callerId, category)) == multiset(AvailableStaffList(b, callerId, category))
  {
    FilterPermutation(a, b, KeepFn(callerId, category));
    MapPermutation(Kept(a, callerId, category), Kept(b, callerId, category), ToEntry);
  }

}
