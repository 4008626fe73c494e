/** `GET /api/admin/tickets/export-all` (`src/app/api/admin/tickets/export-all/route.ts`):
    every ticket the caller's role may see, optionally restricted to open or
    closed ones, as one transcript per ticket in a zip archive. The query
    result is an input satisfying the query's `where` and `orderBy`; the zip
    encoding itself is not modelled, only the sequence of named entries. */
module ExportAll {
  import opened Base
  import opened Model
  import Permissions
  import Transcript

  datatype StatusFilter = OnlyOpen | OnlyClosed | AnyStatus

  /** `searchParams.get('status') || 'all'`, read by the two comparisons. */
  function StatusFilterOf(param: Option<string>): (f: StatusFilter)
    ensures f == OnlyOpen <==> param == Some("abertos")
    ensures f == OnlyClosed <==> param == Some("fechados")
  {
    var statusFilter := Or(param, "all");
    if statusFilter == "abertos" then OnlyOpen
    else if statusFilter == "fechados" then OnlyClosed
    else AnyStatus
  }

  /** The status part of the query's `where`. */
  predicate Admits(f: StatusFilter, status: string) {
    match f
    case OnlyOpen => status != Fechado
    case OnlyClosed => status == Fechado
    case AnyStatus => true
  }

  /** The label in the archive's file name. */
  function StatusLabel(f: StatusFilter): (name: string)
    ensures name in {"abertos", "fechados", "todos"}
  {
    match f
    case OnlyOpen => "abertos"
    case OnlyClosed => "fechados"
    case AnyStatus => "todos"
  }

  /** The query's `where`: a category of the role, and the status filter. */
  predicate Selected(t: Transcript.TicketWithRelations, role: string, f: StatusFilter) {
    t.ticket.category in Permissions.PermissionsOf(role) && Admits(f, t.ticket.status)
  }

  /** The query's `orderBy: { ticketNumber: 'asc' }`, with the numbers unique. */
  predicate ByTicketNumber(tickets: seq<Transcript.TicketWithRelations>) {
    forall i, j :: 0 <= i < j < |tickets| ==> tickets[i].ticket.ticketNumber < tickets[j].ticket.ticketNumber
  }

  // ---------------------------------------------------------------------
  // Entry names

  predicate IsAsciiAlphanumeric(c: char) {
    'a' <= c <= 'z' || 'A' <= c <= 'Z' || '0' <= c <= '9'
  }

  predicate IsSlugChar(c: char) {
    'a' <= c <= 'z' || '0' <= c <= '9' || c == '-'
  }

  /** `/[^a-z0-9]/gi` replaced by '-', then lower-cased. */
  function SlugChar(c: char): (r: char)
    ensures IsSlugChar(r)
    ensures IsAsciiAlphanumeric(c) ==> r == AsciiLower(c)
    ensures !IsAsciiAlphanumeric(c) ==> r == '-'
  {
    if IsAsciiAlphanumeric(c) then AsciiLower(c) else '-'
  }

  function Sanitize(s: string): (r: string)
    ensures |r| == |s|
    ensures forall i :: 0 <= i < |s| ==> r[i] == SlugChar(s[i])
  {
    if s == [] then [] else [SlugChar(s[0])] + Sanitize(s[1..])
  }

  /** `subject.replace(/[^a-z0-9]/gi, '-').toLowerCase().substring(0, 50)`. */
  function Slug(subject: string): (r: string)
    ensures |r| == if |subject| < 50 then |subject| else 50
    ensures forall i :: 0 <= i < |r| ==> IsSlugChar(r[i]) && r[i] == SlugChar(subject[i])
  {
    var s := Sanitize(subject);
    if |s| < 50 then s else s[..50]
  }

  /** `ticket-<number>-<slug>.html`. */
  function EntryName(t: Ticket): string {
    "ticket-" + NatToString(t.ticketNumber) + "-" + Slug(t.subject) + ".html"
  }

  /** A run of digits followed by '-' is recovered from the text it starts. */
  lemma DigitsBeforeDash(x: string, y: string, x': string, y': string)
    requires forall k :: 0 <= k < |x| ==> IsDigit(x[k])
    requires forall k :: 0 <= k < |x'| ==> IsDigit(x'[k])
    requires x + "-" + y == x' + "-" + y'
    ensures x == x'
  {
    var s := x + "-" + y;
    assert forall k :: 0 <= k < |x| ==> s[k] == x[k];
    assert forall k :: 0 <= k < |x'| ==> s[k] == x'[k];
    assert s[|x|] == '-' && s[|x'|] == '-';
    assert x == s[..|x|] && x' == s[..|x'|];
  }

  /** Names `p + digits + "-" + rest` with different digit runs differ. */
  lemma PrefixedDigitsDistinct(p: string, x: string, y: string, x': string, y': string)
    requires forall k :: 0 <= k < |x| ==> IsDigit(x[k])
    requires forall k :: 0 <= k < |x'| ==> IsDigit(x'[k])
    requires x != x'
    ensures p + x + "-" + y != p + x' + "-" + y'
  {
    if p + x + "-" + y == p + x' + "-" + y' {
      assert p + x + "-" + y == p + (x + "-" + y);
      assert p + x' + "-" + y' == p + (x' + "-" + y');
      assert (p + (x + "-" + y))[|p|..] == x + "-" + y;
      assert (p + (x' + "-" + y'))[|p|..] == x' + "-" + y';
      DigitsBeforeDash(x, y, x', y');
    }
  }

  /** Different ticket numbers give different entry names, whatever the
      subjects. */
  lemma EntryNamesDistinct(a: Ticket, b: Ticket)
    requires a.ticketNumber != b.ticketNumber
    ensures EntryName(a) != EntryName(b)
  {
    var na, nb := NatToString(a.ticketNumber), NatToString(b.ticketNumber);
    if na == nb {
      NatToStringInjective(a.ticketNumber, b.ticketNumber);
    }
    var ta, tb := Slug(a.subject) + ".html", Slug(b.subject) + ".html";
    assert EntryName(a) == "ticket-" + na + "-" + ta;
    assert EntryName(b) == "ticket-" + nb + "-" + tb;
    PrefixedDigitsDistinct("ticket-", na, ta, nb, tb);
  }

  // ---------------------------------------------------------------------
  // The archive

  datatype ArchiveEntry = ArchiveEntry(name: string, document: Transcript.Document)

  datatype ExportResponse =
    | NotAuthenticated
    | NothingFound
    | ZipArchive(filename: string, entries: seq<ArchiveEntry>)

  function StatusCode(r: ExportResponse): int {
    match r
    case NotAuthenticated => 401
    case NothingFound => 404
    case ZipArchive(_, _) => 200
  }

  const NothingFoundError := "Nenhum ticket encontrado"

  /** The archive's entry for one ticket. `generatedAt` is the clock reading
      its transcript's footer shows. */
  function Entry(t: Transcript.TicketWithRelations, formatDate: int -> string, generatedAt: int): ArchiveEntry {
    ArchiveEntry(EntryName(t.ticket), Transcript.GenerateTranscript(t, formatDate, generatedAt))
  }

  /** The loop appending one entry per ticket: its name, and the transcript
      `render(ticket, i)` generated for the `i`-th ticket. */
  method BuildArchive(tickets: seq<Transcript.TicketWithRelations>,
                      render: (Transcript.TicketWithRelations, nat) -> Transcript.Document)
    returns (entries: seq<ArchiveEntry>)
    ensures |entries| == |tickets|
    ensures forall i :: 0 <= i < |tickets| ==>
      entries[i] == ArchiveEntry(EntryName(tickets[i].ticket), render(tickets[i], i))
  {
    entries := [];
    for i := 0 to |tickets|
      invariant |entries| == i
      invariant forall k :: 0 <= k < i ==>
        entries[k] == ArchiveEntry(EntryName(tickets[k].ticket), render(tickets[k], k))
    {
      var html := render(tickets[i], i);
      var filename := EntryName(tickets[i].ticket);
      entries := entries + [ArchiveEntry(filename, html)];
    }
  }

  /** The handler, given the query result, the date formatter, the clock and
      the current date as `YYYY-MM-DD`. `clock(i)` is the time at which the
      `i`-th transcript is generated. */
  method Export(session: Option<AdminSession>, statusParam: Option<string>,
                tickets: seq<Transcript.TicketWithRelations>,
                formatDate: int -> string, clock: nat -> int, today: string)
    returns (r: ExportResponse)
    requires session.Some? ==>
      forall i :: 0 <= i < |tickets| ==> Selected(tickets[i], session.value.role, StatusFilterOf(statusParam))
    requires ByTicketNumber(tickets)
    ensures session.None? ==> r == NotAuthenticated
    ensures session.Some? && tickets == [] ==> r == NothingFound
    ensures session.Some? && tickets != [] ==> r.ZipArchive?
    ensures r.ZipArchive? ==> session.Some? && |r.entries| == |tickets| > 0
    ensures r.ZipArchive? ==> r.filename == "tickets-" + StatusLabel(StatusFilterOf(statusParam)) + "-" + today + ".zip"
    ensures r.ZipArchive? ==> forall i :: 0 <= i < |tickets| ==>
      r.entries[i] == Entry(tickets[i], formatDate, clock(i)) &&
      tickets[i].ticket.category in Permissions.PermissionsOf(session.value.role)
    ensures r.ZipArchive? ==> forall i, j :: 0 <= i < j < |r.entries| ==> r.entries[i].name != r.entries[j].name
  {
    if session.None? {
      return NotAuthenticated;
    }
    var statusFilter := StatusFilterOf(statusParam);
    if |tickets| == 0 {
      return NothingFound;
    }
    var entries := BuildArchive(tickets, (t, i: nat) => Transcript.GenerateTranscript(t, formatDate, clock(i)));
    forall i, j | 0 <= i < j < |entries| ensures entries[i].name != entries[j].name {
      EntryNamesDistinct(tickets[i].ticket, tickets[j].ticket);
    }
    var statusLabel := StatusLabel(statusFilter);
    r := ZipArchive("tickets-" + statusLabel + "-" + today + ".zip", entries);
  }

  /** 'abertos' keeps exactly the tickets not closed, 'fechados' exactly the
      closed ones, and any other value every status. */
  lemma StatusFilterMeaning(param: Option<string>, status: string)
    ensures param == Some("abertos") ==> (Admits(StatusFilterOf(param), status) <==> status != Fechado)
    ensures param == Some("fechados") ==> (Admits(StatusFilterOf(param), status) <==> status == Fechado)
    ensures param != Some("abertos") && param != Some("fechados") ==> Admits(StatusFilterOf(param), status)
    ensures param != Some("abertos") && param != Some("fechados") ==> StatusLabel(StatusFilterOf(param)) == "todos"
  {
  }
}
