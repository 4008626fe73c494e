/** Resolution of a Discord member's guild role ids to one system role
    (`src/lib/discord-roles.ts`). A member may hold several staff roles; the
    one of highest priority wins. */
module DiscordRoles {
  import opened Base

  const CeoId := "1046404063689977986"
  const DevId := "1046404063689977984"
  const CommunityManagerId := "1046404063522197521"
  const ModeratorId := "1226907937117569128"
  const CoordinatorId := "1226903187055972484"
  const SupportId := "1046404063673192542"

  /** Discord role id -> system role. The DEV id maps to CEO. */
  const DiscordRoleMap: map<string, string> := map[
    CeoId := "CEO",
    DevId := "CEO",
    CommunityManagerId := "COMMUNITY_MANAGER",
    ModeratorId := "MODERADOR",
    CoordinatorId := "COORDENADOR",
    SupportId := "SUPORTE"
  ]

  /** `Object.keys(DISCORD_ROLE_MAP)`, in insertion order. */
  const AllowedRoleIds: seq<string> :=
    [CeoId, DevId, CommunityManagerId, ModeratorId, CoordinatorId, SupportId]

  const RolePriority: map<string, int> := map[
    "CEO" := 100,
    "COMMUNITY_MANAGER" := 80,
    "COORDENADOR" := 60,
    "MODERADOR" := 40,
    "SUPORTE" := 20
  ]

  /** `ROLE_PRIORITY[role] || 0`. */
  function PriorityOf(role: string): int {
    if role in RolePriority then RolePriority[role] else 0
  }

  /** The value of `highestPriority` for a given `highestRole`: -1 before any
      mapped role has been seen. */
  function Rank(held: Option<string>, priority: string -> int): int {
    if held.None? then -1 else priority(held.value)
  }

  /** The value of `highestRole` after the loop has scanned `ids`, for a
      given priority function: a mapped role replaces the held one only when
      its priority is strictly greater. */
  function Scan(ids: seq<string>, priority: string -> int): Option<string> {
    if ids == [] then None
    else
      var held := Scan(ids[..|ids| - 1], priority);
      var id := ids[|ids| - 1];
      if id in DiscordRoleMap && priority(DiscordRoleMap[id]) > Rank(held, priority)
      then Some(DiscordRoleMap[id])
      else held
  }

  /** What `getHighestRole` returns. */
  function HighestRole(ids: seq<string>): (r: Option<string>)
    ensures r.None? <==> forall i :: 0 <= i < |ids| ==> ids[i] !in DiscordRoleMap
    ensures r.Some? ==> exists i :: 0 <= i < |ids| && ids[i] in DiscordRoleMap && DiscordRoleMap[ids[i]] == r.value
  {
    PriorityOfSeparatesRoles();
    ScanNoneIffUnmapped(ids, PriorityOf);
    assert forall i :: 0 <= i < |ids| ==> (Mapped(ids, i) <==> ids[i] in DiscordRoleMap);
    var found := Scan(ids, PriorityOf);
    if found.Some? then ScanComesFromInput(ids, PriorityOf); found else found
  }

  ghost predicate NonNegativeOnMapped(priority: string -> int) {
    forall id :: id in DiscordRoleMap ==> priority(DiscordRoleMap[id]) >= 0
  }

  ghost predicate InjectiveOnMapped(priority: string -> int) {
    forall id1, id2 ::
      (id1 in DiscordRoleMap && id2 in DiscordRoleMap &&
       priority(DiscordRoleMap[id1]) == priority(DiscordRoleMap[id2])) ==>
        DiscordRoleMap[id1] == DiscordRoleMap[id2]
  }

  predicate Mapped(ids: seq<string>, i: int) {
    0 <= i < |ids| && ids[i] in DiscordRoleMap
  }

  lemma {:induction false} ScanNoneIffUnmapped(ids: seq<string>, priority: string -> int)
    requires NonNegativeOnMapped(priority)
    ensures Scan(ids, priority).None? <==> forall i :: 0 <= i < |ids| ==> !Mapped(ids, i)
  {
    if ids != [] {
      var front := ids[..|ids| - 1];
      ScanNoneIffUnmapped(front, priority);
      forall i | 0 <= i < |front| ensures Mapped(front, i) == Mapped(ids, i) {
      }
      var id := ids[|ids| - 1];
      assert Mapped(ids, |ids| - 1) == (id in DiscordRoleMap);
      if id in DiscordRoleMap {
        assert priority(DiscordRoleMap[id]) >= 0;
      }
    }
  }

  lemma {:induction false} ScanComesFromInput(ids: seq<string>, priority: string -> int)
    requires Scan(ids, priority).Some?
    ensures exists i :: Mapped(ids, i) && DiscordRoleMap[ids[i]] == Scan(ids, priority).value
  {
    var front := ids[..|ids| - 1];
    var id := ids[|ids| - 1];
    if id in DiscordRoleMap && priority(DiscordRoleMap[id]) > Rank(Scan(front, priority), priority) {
      assert Mapped(ids, |ids| - 1);
    } else {
      ScanComesFromInput(front, priority);
      var i :| Mapped(front, i) && DiscordRoleMap[front[i]] == Scan(front, priority).value;
      assert Mapped(ids, i);
    }
  }

  lemma {:induction false} ScanIsMaximal(ids: seq<string>, priority: string -> int)
    ensures forall i :: Mapped(ids, i) ==> priority(DiscordRoleMap[ids[i]]) <= Rank(Scan(ids, priority), priority)
  {
    if ids != [] {
      var front := ids[..|ids| - 1];
      ScanIsMaximal(front, priority);
      forall i | Mapped(ids, i)
        ensures priority(DiscordRoleMap[ids[i]]) <= Rank(Scan(ids, priority), priority)
      {
        if i < |ids| - 1 {
          assert Mapped(front, i);
        }
      }
    }
  }

  /** Two priority functions that agree on every mapped role resolve every
      id list to the same role. */
  lemma {:induction false} ScanAgrees(ids: seq<string>, p1: string -> int, p2: string -> int)
    requires forall id :: id in DiscordRoleMap ==> p1(DiscordRoleMap[id]) == p2(DiscordRoleMap[id])
    ensures Scan(ids, p1) == Scan(ids, p2)
  {
    if ids != [] {
      var front := ids[..|ids| - 1];
      ScanAgrees(front, p1, p2);
      if Scan(front, p1).Some? {
        ScanComesFromInput(front, p1);
      }
    }
  }

  /** With priorities that separate the mapped roles, the result depends only
      on the set of ids held: order and repetition do not matter. */
  lemma ScanDependsOnlyOnIdSet(a: seq<string>, b: seq<string>, priority: string -> int)
    requires NonNegativeOnMapped(priority) && InjectiveOnMapped(priority)
    requires forall x :: x in a <==> x in b
    ensures Scan(a, priority) == Scan(b, priority)
  {
    ScanNoneIffUnmapped(a, priority);
    ScanNoneIffUnmapped(b, priority);
    if Scan(a, priority).Some? {
      assert !(forall i :: 0 <= i < |a| ==> !Mapped(a, i));
      var k :| 0 <= k < |a| && Mapped(a, k);
      assert a[k] in a;
      var kb :| 0 <= kb < |b| && b[kb] == a[k];
      assert Mapped(b, kb);
      assert Scan(b, priority).Some?;
      ScanComesFromInput(a, priority);
      ScanComesFromInput(b, priority);
      ScanIsMaximal(a, priority);
      ScanIsMaximal(b, priority);
      var i :| Mapped(a, i) && DiscordRoleMap[a[i]] == Scan(a, priority).value;
      var j :| Mapped(b, j) && DiscordRoleMap[b[j]] == Scan(b, priority).value;
      assert a[i] in a && b[j] in b;
      var i' :| 0 <= i' < |b| && b[i'] == a[i];
      var j' :| 0 <= j' < |a| && a[j'] == b[j];
      assert Mapped(b, i') && Mapped(a, j');
      assert priority(DiscordRoleMap[b[j]]) <= Rank(Scan(a, priority), priority);
      assert priority(DiscordRoleMap[a[i]]) <= Rank(Scan(b, priority), priority);
      assert priority(DiscordRoleMap[a[i]]) == priority(DiscordRoleMap[b[j]]);
      assert DiscordRoleMap[a[i]] == DiscordRoleMap[b[j]];
    } else {
      forall i | 0 <= i < |b| ensures !Mapped(b, i) {
        assert b[i] in b;
        var k :| 0 <= k < |a| && a[k] == b[i];
        assert !Mapped(a, k);
      }
    }
  }

  lemma PriorityOfSeparatesRoles()
    ensures NonNegativeOnMapped(PriorityOf) && InjectiveOnMapped(PriorityOf)
  {
  }

  /** `getHighestRole`: scans the ids keeping the mapped role of strictly
      greatest priority. */
  method GetHighestRole(discordRoleIds: seq<string>) returns (highestRole: Option<string>)
    ensures highestRole == HighestRole(discordRoleIds)
    ensures highestRole.None? <==> forall i :: 0 <= i < |discordRoleIds| ==> discordRoleIds[i] !in DiscordRoleMap
    ensures highestRole.Some? ==>
      exists i :: 0 <= i < |discordRoleIds| && discordRoleIds[i] in DiscordRoleMap &&
        DiscordRoleMap[discordRoleIds[i]] == highestRole.value
    ensures highestRole.Some? ==>
      forall i :: 0 <= i < |discordRoleIds| && discordRoleIds[i] in DiscordRoleMap ==>
        PriorityOf(DiscordRoleMap[discordRoleIds[i]]) <= PriorityOf(highestRole.value)
  {
    highestRole := None;
    var highestPriority := -1;
    for i := 0 to |discordRoleIds|
      invariant highestRole == Scan(discordRoleIds[..i], PriorityOf)
      invariant highestPriority == Rank(highestRole, PriorityOf)
    {
      assert discordRoleIds[..i + 1][..i] == discordRoleIds[..i];
      var roleId := discordRoleIds[i];
      if roleId in DiscordRoleMap {
        var systemRole := DiscordRoleMap[roleId];
        var priority := PriorityOf(systemRole);
        if priority > highestPriority {
          highestPriority := priority;
          highestRole := Some(systemRole);
        }
      }
    }
    assert discordRoleIds[..|discordRoleIds|] == discordRoleIds;
    PriorityOfSeparatesRoles();
    ScanNoneIffUnmapped(discordRoleIds, PriorityOf);
    ScanIsMaximal(discordRoleIds, PriorityOf);
    if highestRole.Some? {
      ScanComesFromInput(discordRoleIds, PriorityOf);
    }
  }

  /** `hasAllowedRole`: some id is one of the allowed ids. */
  function HasAllowedRole(discordRoleIds: seq<string>): (r: bool)
    ensures r <==> exists i :: 0 <= i < |discordRoleIds| && discordRoleIds[i] in DiscordRoleMap
  {
    exists i :: 0 <= i < |discordRoleIds| && discordRoleIds[i] in AllowedRoleIds
  }

  /** Holding an allowed id and resolving to a role are the same thing. */
  lemma AllowedIffResolved(discordRoleIds: seq<string>)
    ensures HasAllowedRole(discordRoleIds) <==> HighestRole(discordRoleIds).Some?
  {
    PriorityOfSeparatesRoles();
    ScanNoneIffUnmapped(discordRoleIds, PriorityOf);
    forall i | 0 <= i < |discordRoleIds|
      ensures Mapped(discordRoleIds, i) == (discordRoleIds[i] in DiscordRoleMap)
    {
    }
  }

  /** Permuting or repeating the role ids never changes the resolved role. */
  lemma HighestRoleIgnoresOrder(a: seq<string>, b: seq<string>)
    requires forall x :: x in a <==> x in b
    ensures HighestRole(a) == HighestRole(b)
  {
    PriorityOfSeparatesRoles();
    ScanDependsOnlyOnIdSet(a, b, PriorityOf);
  }

  /** A member holding both the moderator and the coordinator role, and no
      role above them, resolves to COORDENADOR. */
  lemma ModeratorAndCoordinatorResolveToCoordinator(ids: seq<string>)
    requires ModeratorId in ids && CoordinatorId in ids
    requires forall i :: 0 <= i < |ids| && ids[i] in DiscordRoleMap ==>
      DiscordRoleMap[ids[i]] in {"MODERADOR", "COORDENADOR", "SUPORTE"}
    ensures HighestRole(ids) == Some("COORDENADOR")
  {
    PriorityOfSeparatesRoles();
    var k :| 0 <= k < |ids| && ids[k] == CoordinatorId;
    assert Mapped(ids, k);
    ScanNoneIffUnmapped(ids, PriorityOf);
    ScanComesFromInput(ids, PriorityOf);
    ScanIsMaximal(ids, PriorityOf);
  }
}
