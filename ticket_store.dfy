/** `GET` and `POST /api/tickets` (`src/app/api/tickets/route.ts`): an end user
    lists their tickets and opens a new one. The database is an in-memory store
    of tickets and messages; the store assigns the next identifier and ticket
    number, and the clock is a parameter. */
module TicketStore {
  import opened Base
  import opened Model
  import Categories

  const ValidCategories: seq<string> := ["SUPORTE", "BUGS", "DENUNCIAS", "DOACOES", "BOOST", "CASAS", "REVISAO"]

  /** The statuses that block a new ticket in the same category. */
  const ActiveStatuses: seq<string> := [Aberto, EmAtendimento, AguardandoResposta]

  const CategoryLabels: map<string, string> := map[
    "SUPORTE" := "Suporte",
    "BUGS" := "Reportar Bugs",
    "DENUNCIAS" := "Denúncias",
    "DOACOES" := "Doações",
    "BOOST" := "Boost",
    "CASAS" := "Casas",
    "REVISAO" := "Revisão"
  ]

  /** The JSON body of a creation request; any field may be absent. */
  datatype CreateRequest = CreateRequest(category: Option<string>, subject: Option<string>, message: Option<string>)

  /** The creation outcomes: 401, three kinds of 400, and 201. */
  datatype CreateResponse =
    | NotAuthenticated
    | MissingFields
    | InvalidCategory
    | AlreadyOpen(error: string)
    | Created(ticket: Ticket, ticketMessages: seq<Message>)

  /** `category`, `subject` and `message` are all present and non-empty. */
  predicate FieldsPresent(body: CreateRequest) {
    Truthy(body.category) && Truthy(body.subject) && Truthy(body.message)
  }

  datatype ListResponse = ListUnauthenticated | TicketList(tickets: seq<Ticket>)

  predicate IsActive(t: Ticket) {
    t.status in ActiveStatuses
  }

  /** `t` is a ticket that stops `userId` from opening another in `category`. */
  predicate Blocks(t: Ticket, userId: string, category: string) {
    t.userId == userId && t.category == category && IsActive(t)
  }

  /** The `findFirst` of the route finds something: a ticket of the user in
      the category that is not closed. */
  predicate HasActiveTicket(tickets: seq<Ticket>, userId: string, category: string)
    ensures HasActiveTicket(tickets, userId, category) ==>
      exists i :: 0 <= i < |tickets| && tickets[i].userId == userId && tickets[i].category == category &&
        tickets[i].status != Fechado
  {
    exists i :: 0 <= i < |tickets| && Blocks(tickets[i], userId, category)
  }

  /** At most one active ticket per user and category. */
  predicate OneActivePerUserCategory(tickets: seq<Ticket>) {
    forall i, j :: 0 <= i < j < |tickets| && IsActive(tickets[i]) && IsActive(tickets[j]) ==>
      tickets[i].userId != tickets[j].userId || tickets[i].category != tickets[j].category
  }

  /** `categoryLabels[category] || category`. */
  function CategoryLabel(category: string): string {
    if category in CategoryLabels && CategoryLabels[category] != "" then CategoryLabels[category] else category
  }

  function AlreadyOpenError(category: string): string {
    "Você já possui um ticket aberto ou em atendimento na categoria \"" + CategoryLabel(category) +
    "\". Feche o ticket anterior antes de abrir um novo na mesma categoria."
  }

  /** The `where` of the list query: the user's tickets, of the given status
      when one is supplied. */
  function ListedBy(userId: string, status: Option<string>): Ticket -> bool {
    (t: Ticket) => t.userId == userId && (!Truthy(status) || t.status == status.value)
  }

  /** The `orderBy: { updatedAt: 'desc' }` of the list query. */
  predicate NewerFirst(a: Ticket, b: Ticket) {
    a.updatedAt >= b.updatedAt
  }

  lemma NewerFirstIsTotalPreorder()
    ensures TotalPreorder(NewerFirst)
  {
  }

  class Store {
    var tickets: seq<Ticket>
    var messages: seq<Message>

    /** Identifiers and ticket numbers follow creation order, every message
        belongs to a stored ticket, every ticket has a message, and no user
        has two active tickets in one category. */
    ghost predicate Valid()
      reads this
    {
      && OneActivePerUserCategory(tickets)
      && (forall i :: 0 <= i < |tickets| ==> tickets[i].id == i + 1 && tickets[i].ticketNumber == i + 1)
      && (forall k :: 0 <= k < |messages| ==> messages[k].id == k + 1 && 1 <= messages[k].ticketId <= |tickets|)
      && (forall i :: 0 <= i < |tickets| ==> exists k :: 0 <= k < |messages| && messages[k].ticketId == tickets[i].id)
    }

    constructor()
      ensures Valid()
      ensures tickets == [] && messages == []
    {
      tickets := [];
      messages := [];
    }

    /** `POST`: the early returns in order, then the creation of the ticket
        together with its first message. A rejected request changes nothing. */
    method Create(sessionUserId: Option<string>, body: CreateRequest, now: int) returns (r: CreateResponse)
      requires Valid()
      modifies this
      ensures Valid()
      ensures !Truthy(sessionUserId) ==> r == NotAuthenticated
      ensures Truthy(sessionUserId) && !FieldsPresent(body) ==> r == MissingFields
      ensures Truthy(sessionUserId) && FieldsPresent(body) && body.category.value !in ValidCategories ==>
        r == InvalidCategory
      ensures (Truthy(sessionUserId) && FieldsPresent(body) && body.category.value in ValidCategories &&
               HasActiveTicket(old(tickets), sessionUserId.value, body.category.value)) ==>
        r == AlreadyOpen(AlreadyOpenError(body.category.value))
      ensures r.Created? <==>
        && Truthy(sessionUserId) && FieldsPresent(body)
        && body.category.value in ValidCategories
        && !HasActiveTicket(old(tickets), sessionUserId.value, body.category.value)
      ensures !r.Created? ==> tickets == old(tickets) && messages == old(messages)
      ensures r.Created? ==>
        && r.ticket == Ticket(|old(tickets)| + 1, |old(tickets)| + 1, body.category.value, body.subject.value,
                              Aberto, sessionUserId.value, None, now, now, None, None)
        && r.ticketMessages == [Message(|old(messages)| + 1, r.ticket.id, body.message.value,
                                        Some(sessionUserId.value), None, false, now)]
        && tickets == old(tickets) + [r.ticket]
        && messages == old(messages) + r.ticketMessages
    {
      if !Truthy(sessionUserId) {
        return NotAuthenticated;
      }
      var userId := sessionUserId.value;
      if !Truthy(body.category) || !Truthy(body.subject) || !Truthy(body.message) {
        return MissingFields;
      }
      var category := body.category.value;
      if category !in ValidCategories {
        return InvalidCategory;
      }
      if HasActiveTicket(tickets, userId, category) {
        return AlreadyOpen(AlreadyOpenError(category));
      }
      var ticket := Ticket(|tickets| + 1, |tickets| + 1, category, body.subject.value,
                           Aberto, userId, None, now, now, None, None);
      var message := Message(|messages| + 1, ticket.id, body.message.value, Some(userId), None, false, now);
      CreationKeepsOneActive(tickets, ticket);
      ghost var oldTickets := tickets;
      ghost var oldMessages := messages;
      tickets := tickets + [ticket];
      messages := messages + [message];
      assert forall i :: 0 <= i < |oldTickets| ==>
        exists k :: 0 <= k < |messages| && messages[k].ticketId == tickets[i].id by {
        forall i | 0 <= i < |oldTickets|
          ensures exists k :: 0 <= k < |messages| && messages[k].ticketId == tickets[i].id
        {
          var k :| 0 <= k < |oldMessages| && oldMessages[k].ticketId == oldTickets[i].id;
          assert messages[k] == oldMessages[k];
        }
      }
      assert messages[|messages| - 1].ticketId == tickets[|tickets| - 1].id;
      r := Created(ticket, [message]);
    }

    /** `GET`: the signed-in user's tickets, most recently updated first. */
    function List(sessionUserId: Option<string>, status: Option<string>): (r: ListResponse)
      reads this
      ensures r.ListUnauthenticated? <==> !Truthy(sessionUserId)
      ensures r.TicketList? ==>
        multiset(r.tickets) == multiset(Filter(tickets, ListedBy(sessionUserId.value, status)))
    {
      if !Truthy(sessionUserId) then ListUnauthenticated
      else TicketList(Sort(Filter(tickets, ListedBy(sessionUserId.value, status)), NewerFirst))
    }
  }

  // ---------------------------------------------------------------------
  // What the creation rule promises

  /** Closed tickets, other users' tickets and other categories' tickets
      never block a creation. */
  lemma OnlySameUserSameCategoryActiveTicketsBlock(tickets: seq<Ticket>, userId: string, category: string)
    requires forall i :: 0 <= i < |tickets| ==>
      tickets[i].status == Fechado || tickets[i].userId != userId || tickets[i].category != category
    ensures !HasActiveTicket(tickets, userId, category)
  {
    forall i | 0 <= i < |tickets| ensures !Blocks(tickets[i], userId, category) {
      assert Fechado !in ActiveStatuses;
    }
  }

  /** Adding a ticket when nothing blocks it keeps at most one active ticket
      per user and category. */
  lemma CreationKeepsOneActive(tickets: seq<Ticket>, t: Ticket)
    requires OneActivePerUserCategory(tickets)
    requires !HasActiveTicket(tickets, t.userId, t.category)
    ensures OneActivePerUserCategory(tickets + [t])
  {
    var s := tickets + [t];
    forall i, j | 0 <= i < j < |s| && IsActive(s[i]) && IsActive(s[j])
      ensures s[i].userId != s[j].userId || s[i].category != s[j].category
    {
      if j == |tickets| {
        assert s[i] == tickets[i];
        assert !Blocks(tickets[i], t.userId, t.category);
      } else {
        assert s[i] == tickets[i] && s[j] == tickets[j];
      }
    }
  }

  /** Right after a creation, the same user asking again in the same category
      is refused: the new ticket is active. */
  lemma NewTicketBlocksTheNext(tickets: seq<Ticket>, t: Ticket)
    requires t.status == Aberto
    ensures HasActiveTicket(tickets + [t], t.userId, t.category)
  {
    assert (tickets + [t])[|tickets|] == t;
  }

  /** The server-side list of valid categories is the category table's ids,
      in the same order, and the conflict message's labels are its names. */
  lemma ValidCategoriesMatchTable()
    ensures ValidCategories == Categories.CategoryIds()
    ensures forall i :: 0 <= i < |Categories.Categories| ==>
      CategoryLabel(Categories.Categories[i].id) == Categories.Categories[i].name
  {
    var ids := Categories.CategoryIds();
    assert |ids| == 7;
    assert ids == ValidCategories;
  }

  /** The list holds exactly the user's tickets with the requested status,
      most recently updated first. */
  lemma ListIsTheUsersTickets(s: Store, userId: string, status: Option<string>, k: int)
    requires userId != ""
    requires 0 <= k < |s.List(Some(userId), status).tickets|
    ensures s.List(Some(userId), status).tickets[k].userId == userId
    ensures Truthy(status) ==> s.List(Some(userId), status).tickets[k].status == status.value
    ensures s.List(Some(userId), status).tickets[k] in s.tickets
  {
    var r := s.List(Some(userId), status).tickets;
    var f := Filter(s.tickets, ListedBy(userId, status));
    assert r[k] in multiset(r);
    assert r[k] in multiset(f);
    var j :| 0 <= j < |f| && f[j] == r[k];
  }

  /** Every ticket of the user with the requested status is listed. */
  lemma ListIsComplete(s: Store, userId: string, status: Option<string>, t: Ticket)
    requires userId != ""
    requires t in s.tickets && t.userId == userId && (!Truthy(status) || t.status == status.value)
    ensures t in s.List(Some(userId), status).tickets
  {
    var f := Filter(s.tickets, ListedBy(userId, status));
    assert t in f;
    assert t in multiset(s.List(Some(userId), status).tickets);
  }

  lemma ListIsNewestFirst(s: Store, userId: string, status: Option<string>)
    requires userId != ""
    ensures SortedBy(s.List(Some(userId), status).tickets, NewerFirst)
  {
    NewerFirstIsTotalPreorder();
    SortIsSorted(Filter(s.tickets, ListedBy(userId, status)), NewerFirst);
  }
}
