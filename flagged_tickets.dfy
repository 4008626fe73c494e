/** `GET /api/admin/tickets/flagged` (`src/app/api/admin/tickets/flagged/route.ts`):
    the queue of unresolved flags addressed to the caller's role. The query
    returns those flags newest first, each with its ticket; the route drops
    the flags on tickets the role may not access and turns each remaining
    flag into one entry: the ticket plus the flag's data. */
module FlaggedTickets {
  import opened Base
  import opened Model
  import Permissions

  /** The `flaggedBy` selection: the staff member who raised the flag. */
  datatype StaffSummary = StaffSummary(id: string, name: string, role: string, avatar: Option<string>)

  /** A row of the `TicketFlag` table, with its ticket. */
  datatype Flag = Flag(
    ticket: Ticket,
    flaggedBy: StaffSummary,
    flaggedToRole: string,
    message: Option<string>,
    resolved: bool,
    createdAt: int)

  /** One entry of the response: the ticket's fields spread, then the flag's. */
  datatype FlaggedTicket = FlaggedTicket(
    ticket: Ticket,
    flaggedBy: StaffSummary,
    flaggedToRole: string,
    flagMessage: Option<string>,
    flaggedAt: int)

  datatype FlaggedResponse = NotAuthenticated | FlaggedList(tickets: seq<FlaggedTicket>)

  /** The query's `where`: addressed to the role and not resolved. */
  predicate InQueue(f: Flag, role: string) {
    f.flaggedToRole == role && !f.resolved
  }

  /** The query's `orderBy: { createdAt: 'desc' }`. */
  predicate FlagNewerFirst(a: Flag, b: Flag) {
    a.createdAt >= b.createdAt
  }

  predicate EntryNewerFirst(a: FlaggedTicket, b: FlaggedTicket) {
    a.flaggedAt >= b.flaggedAt
  }

  function OnAccessibleTicket(role: string): Flag -> bool {
    (f: Flag) => Permissions.CanAccessCategory(role, f.ticket.category)
  }

  /** The `map` step. */
  function ToEntry(f: Flag): (e: FlaggedTicket)
    ensures e.ticket == f.ticket && e.flaggedBy == f.flaggedBy && e.flaggedToRole == f.flaggedToRole
    ensures e.flagMessage == f.message && e.flaggedAt == f.createdAt
  {
    FlaggedTicket(f.ticket, f.flaggedBy, f.flaggedToRole, f.message, f.createdAt)
  }

  /** The `filter` then `map` chain. */
  function Queue(role: string, flags: seq<Flag>): (queue: seq<FlaggedTicket>)
    ensures |queue| <= |flags|
    ensures forall i :: 0 <= i < |queue| ==> Permissions.CanAccessCategory(role, queue[i].ticket.category)
  {
    Map(Filter(flags, OnAccessibleTicket(role)), ToEntry)
  }

  /** The handler, given the query result. */
  function Get(session: Option<AdminSession>, flags: seq<Flag>): (r: FlaggedResponse)
    requires session.Some? ==> forall i :: 0 <= i < |flags| ==> InQueue(flags[i], session.value.role)
    ensures r.NotAuthenticated? <==> session.None?
    ensures r.FlaggedList? ==> forall i :: 0 <= i < |r.tickets| ==>
      r.tickets[i].flaggedToRole == session.value.role &&
      Permissions.CanAccessCategory(session.value.role, r.tickets[i].ticket.category)
    ensures r.FlaggedList? ==> forall i ::
      (0 <= i < |flags| && Permissions.CanAccessCategory(session.value.role, flags[i].ticket.category)) ==>
        ToEntry(flags[i]) in r.tickets
  {
    if session.None? then NotAuthenticated
    else
      var role := session.value.role;
      var r := Queue(role, flags);
      assert forall i :: 0 <= i < |r| ==>
        r[i].flaggedToRole == role && Permissions.CanAccessCategory(role, r[i].ticket.category) by {
        forall i | 0 <= i < |r|
          ensures r[i].flaggedToRole == role && Permissions.CanAccessCategory(role, r[i].ticket.category)
        {
          EntryComesFromFlag(role, flags, i);
          var f :| f in flags && r[i] == ToEntry(f) && Permissions.CanAccessCategory(role, f.ticket.category);
          var j :| 0 <= j < |flags| && flags[j] == f;
          assert InQueue(flags[j], role);
        }
      }
      FlaggedList(r)
  }

  /** Each entry is made from one flag of the queue on an accessible ticket. */
  lemma EntryComesFromFlag(role: string, flags: seq<Flag>, k: int)
    requires 0 <= k < |Queue(role, flags)|
    ensures exists f :: (f in flags && Queue(role, flags)[k] == ToEntry(f) &&
      Permissions.CanAccessCategory(role, f.ticket.category))
  {
    var kept := Filter(flags, OnAccessibleTicket(role));
    assert Queue(role, flags)[k] == ToEntry(kept[k]);
    assert kept[k] in flags;
  }

  /** Every flag of the queue on an accessible ticket has its entry. */
  lemma AccessibleFlagsAreListed(role: string, flags: seq<Flag>, f: Flag)
    requires f in flags && Permissions.CanAccessCategory(role, f.ticket.category)
    ensures ToEntry(f) in Queue(role, flags)
  {
    var kept := Filter(flags, OnAccessibleTicket(role));
    var i :| 0 <= i < |flags| && flags[i] == f;
    assert f in kept;
    var j :| 0 <= j < |kept| && kept[j] == f;
    assert Queue(role, flags)[j] == ToEntry(f);
  }

  /** One entry per surviving flag: the flags on inaccessible tickets are the
      only ones missing. */
  lemma OneEntryPerAccessibleFlag(role: string, flags: seq<Flag>)
    ensures |Queue(role, flags)| == |flags| - CountNot(flags, OnAccessibleTicket(role))
  {
    FilterLength(flags, OnAccessibleTicket(role));
  }

  /** Newest-first flags give a newest-first queue. */
  lemma QueueIsNewestFirst(role: string, flags: seq<Flag>)
    requires SortedBy(flags, FlagNewerFirst)
    ensures SortedBy(Queue(role, flags), EntryNewerFirst)
  {
    var kept := Filter(flags, OnAccessibleTicket(role));
    FilterKeepsSorted(flags, OnAccessibleTicket(role), FlagNewerFirst);
    var q := Queue(role, flags);
    forall i, j | 0 <= i < j < |q| ensures EntryNewerFirst(q[i], q[j]) {
      assert FlagNewerFirst(kept[i], kept[j]);
    }
  }
}
