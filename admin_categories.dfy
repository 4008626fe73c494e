/** `GET /api/admin/categories` (`src/app/api/admin/categories/route.ts`): the
    categories a staff member may work on. The answer is the role's base list,
    plus CASAS for a holder of the Discord "Corretor" role whose staff role is
    not one of the three top roles. Whether the member holds that role is
    decided elsewhere and arrives here as a boolean. */
module AdminCategories {
  import opened Base
  import opened Model
  import Permissions

  datatype CategoriesResponse = NotAuthenticated | AllowedCategories(categories: seq<string>)

  const Casas := "CASAS"

  predicate IsTopRole(role: string) {
    role == "COMMUNITY_MANAGER" || role == "DEV" || role == "CEO"
  }

  /** Whether the route pushes CASAS onto the list. */
  predicate AddsCasas(session: AdminSession, hasCorretor: bool) {
    Truthy(session.discordId) && hasCorretor && !IsTopRole(session.role) &&
    Casas !in Permissions.PermissionsOf(session.role)
  }

  predicate NoDuplicates(s: seq<string>) {
    forall i, j :: 0 <= i < j < |s| ==> s[i] != s[j]
  }

  /** Copies the role's base list and pushes CASAS in place when the
      conditions hold. `hasCorretor` is the answer `hasCorretorRole` would give
      for the session's Discord id; it is only consulted when that id is set. */
  method AllowedCategoriesFor(session: AdminSession, hasCorretor: bool) returns (allowed: seq<string>)
    ensures AddsCasas(session, hasCorretor) ==> allowed == Permissions.PermissionsOf(session.role) + [Casas]
    ensures !AddsCasas(session, hasCorretor) ==> allowed == Permissions.PermissionsOf(session.role)
    ensures Casas in allowed <==>
      Casas in Permissions.PermissionsOf(session.role) ||
      (Truthy(session.discordId) && hasCorretor && !IsTopRole(session.role))
    ensures forall c :: c in allowed <==> c in Permissions.PermissionsOf(session.role) || (c == Casas && AddsCasas(session, hasCorretor))
    ensures NoDuplicates(Permissions.PermissionsOf(session.role)) ==> NoDuplicates(allowed)
  {
    var baseCategories := Permissions.PermissionsOf(session.role);
    allowed := baseCategories;
    if Truthy(session.discordId) {
      if hasCorretor && session.role != "COMMUNITY_MANAGER" && session.role != "DEV" && session.role != "CEO" {
        if Casas !in allowed {
          allowed := allowed + [Casas];
        }
      }
    }
  }

  /** The handler. */
  method Get(session: Option<AdminSession>, hasCorretor: bool) returns (r: CategoriesResponse)
    ensures session.None? <==> r == NotAuthenticated
    ensures session.Some? ==> r.AllowedCategories?
    ensures session.Some? ==>
      r.categories == if AddsCasas(session.value, hasCorretor) then Permissions.PermissionsOf(session.value.role) + [Casas]
                      else Permissions.PermissionsOf(session.value.role)
    ensures session.Some? ==> forall c :: c in Permissions.PermissionsOf(session.value.role) ==> c in r.categories
    ensures session.Some? ==> forall c :: c in r.categories && c != Casas ==> c in Permissions.PermissionsOf(session.value.role)
  {
    if session.None? {
      return NotAuthenticated;
    }
    var allowed := AllowedCategoriesFor(session.value, hasCorretor);
    r := AllowedCategories(allowed);
  }

  /** The three top roles get exactly their base list, whatever the Corretor
      answer. */
  lemma TopRolesGetTheirBaseList(session: AdminSession, hasCorretor: bool)
    requires IsTopRole(session.role)
    ensures !AddsCasas(session, hasCorretor)
    ensures Casas in Permissions.PermissionsOf(session.role)
  {
  }

  /** Every listed role other than AJUDANTE already carries CASAS, so the
      augmentation changes the answer only for AJUDANTE and for roles outside
      the table. */
  lemma AugmentationOnlyMattersForAjudanteAndUnknownRoles(session: AdminSession, hasCorretor: bool)
    requires AddsCasas(session, hasCorretor)
    ensures session.role == "AJUDANTE" || session.role !in Permissions.RolePermissions
  {
  }

  /** Every base list in the table is free of duplicates. */
  lemma BaseListsHaveNoDuplicates(role: string)
    ensures NoDuplicates(Permissions.PermissionsOf(role))
  {
  }
}
