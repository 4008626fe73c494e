/** `GET /api/admin/tickets` (`src/app/api/admin/tickets/route.ts`): the
    staff ticket list. The database query applies the optional status and
    category parameters and the ordering; the route then drops every ticket
    whose category the caller's role may not access. The query result is an
    input that satisfies the query's `where`. */
module AdminTickets {
  import opened Base
  import opened Model
  import Permissions

  datatype AdminTicketsResponse = NotAuthenticated | AdminTicketList(tickets: seq<Ticket>)

  /** The query's `where`: a parameter constrains the list only when it is
      present and non-empty. */
  predicate MatchesQuery(t: Ticket, status: Option<string>, category: Option<string>) {
    (!Truthy(status) || t.status == status.value) && (!Truthy(category) || t.category == category.value)
  }

  function VisibleTo(role: string): Ticket -> bool {
    (t: Ticket) => Permissions.CanAccessCategory(role, t.category)
  }

  /** The route's `filter`: exactly the tickets the role may access. */
  function Visible(role: string, tickets: seq<Ticket>): (r: seq<Ticket>)
    ensures forall i :: 0 <= i < |r| ==> Permissions.CanAccessCategory(role, r[i].category)
    ensures forall i :: 0 <= i < |r| ==> r[i] in tickets
    ensures forall i :: 0 <= i < |tickets| && Permissions.CanAccessCategory(role, tickets[i].category) ==> tickets[i] in r
    ensures role !in Permissions.RolePermissions ==> r == []
  {
    var r := Filter(tickets, VisibleTo(role));
    assert r != [] ==> Permissions.CanAccessCategory(role, r[0].category);
    r
  }

  /** The handler, given the query result. */
  function Get(session: Option<AdminSession>, status: Option<string>, category: Option<string>, tickets: seq<Ticket>)
    : (r: AdminTicketsResponse)
    requires forall i :: 0 <= i < |tickets| ==> MatchesQuery(tickets[i], status, category)
    ensures r.NotAuthenticated? <==> session.None?
    ensures r.AdminTicketList? ==> forall i :: 0 <= i < |r.tickets| ==>
      MatchesQuery(r.tickets[i], status, category) && Permissions.CanAccessCategory(session.value.role, r.tickets[i].category)
    ensures r.AdminTicketList? ==> forall i ::
      (0 <= i < |tickets| && Permissions.CanAccessCategory(session.value.role, tickets[i].category)) ==>
        tickets[i] in r.tickets
  {
    if session.None? then NotAuthenticated
    else AdminTicketList(Visible(session.value.role, tickets))
  }

  /** The filter is exact: a ticket occurs in the result as often as in the
      query result when the role may access its category, and never
      otherwise. */
  lemma VisibleIsExact(role: string, tickets: seq<Ticket>, t: Ticket)
    ensures multiset(Visible(role, tickets))[t] ==
      if Permissions.CanAccessCategory(role, t.category) then multiset(tickets)[t] else 0
  {
    FilterMultiplicity(tickets, VisibleTo(role), t);
  }

  /** Whatever order the query returned the tickets in is kept. */
  lemma VisibleKeepsQueryOrder(role: string, tickets: seq<Ticket>, le: (Ticket, Ticket) -> bool)
    requires SortedBy(tickets, le)
    ensures SortedBy(Visible(role, tickets), le)
  {
    FilterKeepsSorted(tickets, VisibleTo(role), le);
  }

  /** Relative order is kept: filtering two consecutive runs of the query
      result gives two consecutive runs of the answer. */
  lemma VisibleDistributes(role: string, a: seq<Ticket>, b: seq<Ticket>)
    ensures Visible(role, a + b) == Visible(role, a) + Visible(role, b)
  {
    FilterAppend(a, b, VisibleTo(role));
  }

  /** The answer, as a collection, does not depend on the query's order. */
  lemma VisibleIgnoresOrder(role: string, a: seq<Ticket>, b: seq<Ticket>)
    requires multiset(a) == multiset(b)
    ensures multiset(Visible(role, a)) == multiset(Visible(role, b))
  {
    FilterPermutation(a, b, VisibleTo(role));
  }
}
