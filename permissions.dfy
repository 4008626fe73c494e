/** The static role -> category table of `src/lib/permissions.ts` and the
    check every admin route uses to decide whether a staff role may see a
    ticket category. */
module Permissions {

  const RolePermissions: map<string, seq<string>> := map[
    "SUPORTE" := ["SUPORTE", "BUGS", "BOOST", "CASAS"],
    "AJUDANTE" := ["SUPORTE", "BUGS"],
    "MODERADOR" := ["SUPORTE", "BUGS", "BOOST", "CASAS"],
    "COORDENADOR" := ["SUPORTE", "BUGS", "BOOST", "CASAS", "DENUNCIAS", "REVISAO"],
    "COMMUNITY_MANAGER" := ["SUPORTE", "BUGS", "BOOST", "CASAS", "DENUNCIAS", "REVISAO"],
    "CEO" := ["SUPORTE", "BUGS", "DOACOES", "BOOST", "CASAS", "DENUNCIAS", "REVISAO"],
    "DEV" := ["SUPORTE", "BUGS", "DOACOES", "BOOST", "CASAS", "DENUNCIAS", "REVISAO"]
  ]

  const RoleLabels: map<string, string> := map[
    "SUPORTE" := "Suporte",
    "AJUDANTE" := "Ajudante",
    "MODERADOR" := "Moderador",
    "COORDENADOR" := "Coordenador",
    "COMMUNITY_MANAGER" := "Community Manager",
    "CEO" := "CEO",
    "DEV" := "Desenvolvedor"
  ]

  /** `ROLE_PERMISSIONS[role] || []`, the form the category and export routes use. */
  function PermissionsOf(role: string): (categories: seq<string>)
    ensures categories == [] <==> role !in RolePermissions
    ensures role in RolePermissions ==> categories == RolePermissions[role]
  {
    if role in RolePermissions then RolePermissions[role] else []
  }

  /** `canAccessCategory`: an unknown role is denied everything; a known role
      may access exactly the categories listed for it. */
  function CanAccessCategory(role: string, category: string): (r: bool)
    ensures role !in RolePermissions ==> !r
    ensures r <==> category in PermissionsOf(role)
  {
    if role !in RolePermissions then false else category in RolePermissions[role]
  }

  /** The two top roles carry the same rights. */
  lemma CeoAndDevAlike(category: string)
    ensures CanAccessCategory("CEO", category) == CanAccessCategory("DEV", category)
  {
  }

  /** Only CEO and DEV may see donation tickets. */
  lemma OnlyCeoAndDevSeeDonations(role: string)
    ensures CanAccessCategory(role, "DOACOES") <==> role == "CEO" || role == "DEV"
  {
  }

  /** Every role of the table may see support and bug tickets, and AJUDANTE's
      rights are contained in every other role's. */
  lemma AjudanteIsTheFloor(role: string, category: string)
    requires role in RolePermissions
    ensures CanAccessCategory(role, "SUPORTE") && CanAccessCategory(role, "BUGS")
    ensures CanAccessCategory("AJUDANTE", category) ==> CanAccessCategory(role, category)
  {
  }

  /** COORDENADOR and COMMUNITY_MANAGER have the same rights, and both include
      MODERADOR's. */
  lemma CoordinatorTier(category: string)
    ensures CanAccessCategory("COORDENADOR", category) == CanAccessCategory("COMMUNITY_MANAGER", category)
    ensures CanAccessCategory("MODERADOR", category) ==> CanAccessCategory("COORDENADOR", category)
  {
  }

  /** Reports and reviews are reserved to the four senior roles. */
  lemma ReportsAndReviewsAreSenior(role: string)
    ensures CanAccessCategory(role, "DENUNCIAS") <==> role in {"COORDENADOR", "COMMUNITY_MANAGER", "CEO", "DEV"}
    ensures CanAccessCategory(role, "REVISAO") <==> role in {"COORDENADOR", "COMMUNITY_MANAGER", "CEO", "DEV"}
  {
  }

  /** Every role with permissions has a display label, and no label is orphaned. */
  lemma LabelsCoverRoles()
    ensures RolePermissions.Keys == RoleLabels.Keys
  {
  }
}
