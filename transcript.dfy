/** The HTML transcript of a ticket (`src/lib/export-transcript.ts`). The model
    keeps the document's structure: the header with the category emoji and
    status badge, the information items, one block per message with its
    author, CSS class, avatar, time, formatted content and attachments, and
    the footer. The fixed stylesheet and the template's whitespace are not
    reproduced. Dates are formatted by a function given as a parameter, and
    the moment of generation is a parameter too.

    Three literals of the source file are mis-encoded: they hold the UTF-8
    bytes of a character read back as Windows-1252 text. The model keeps
    them as written ("UsuÃ¡rio", "HistÃ³rico", and the emoji fallbacks below). */
module Transcript {
  import opened Base
  import opened Model
  import Categories

  datatype StatusInfo = StatusInfo(text: string, color: string)

  const StatusLabels: map<string, StatusInfo> := map[
    Aberto := StatusInfo("Aberto", "#6366F1"),
    EmAtendimento := StatusInfo("Em Atendimento", "#F59E0B"),
    AguardandoResposta := StatusInfo("Aguardando Resposta", "#EAF207"),
    Fechado := StatusInfo("Fechado", "#EF4444")
  ]

  /** The clipboard emoji as the source file spells it (U+1F4CB mis-encoded). */
  const ClipboardFallback := "ðŸ“‹"
  /** The paperclip emoji as the source file spells it (U+1F4CE mis-encoded). */
  const PaperclipPrefix := "ðŸ“Ž"
  /** "Usuário" as the source file spells it. */
  const UnknownUser := "UsuÃ¡rio"
  const MessagesTitlePrefix := "HistÃ³rico de Mensagens ("

  /** A message as the export query loads it. */
  datatype MessageWithRelations = MessageWithRelations(
    message: Message,
    user: Option<User>,
    staff: Option<Staff>,
    attachments: seq<Attachment>)

  /** A ticket as the export query loads it. */
  datatype TicketWithRelations = TicketWithRelations(
    ticket: Ticket,
    user: User,
    assignedTo: Option<Staff>,
    messages: seq<MessageWithRelations>)

  /** `STATUS_LABELS[status] || { label: status, color: '#EAF207' }`. */
  function StatusInfoOf(status: string): (r: StatusInfo)
    ensures status in StatusLabels ==> r == StatusLabels[status]
    ensures status !in StatusLabels ==> r == StatusInfo(status, "#EAF207")
    ensures r.text != "" || status == ""
  {
    if status in StatusLabels then StatusLabels[status] else StatusInfo(status, "#EAF207")
  }

  // ---------------------------------------------------------------------
  // formatMessageContent

  /** `.replace(/\n/g, '<br>')`. */
  function NewlinesToBr(s: string): (r: string)
    ensures '\n' !in r
    ensures '\n' !in s ==> r == s
    ensures |r| == |s| + 3 * Occurrences(s, '\n')
  {
    if s == [] then []
    else (if s[0] == '\n' then "<br>" else [s[0]]) + NewlinesToBr(s[1..])
  }

  function Occurrences(s: string, c: char): nat {
    if s == [] then 0 else (if s[0] == c then 1 else 0) + Occurrences(s[1..], c)
  }

  /** The characters the regular expression's `.` does not match. */
  predicate IsLineTerminator(c: char) {
    c == '\n' || c == '\r' || c == '\U{2028}' || c == '\U{2029}'
  }

  const Marker := "[imagem]("

  /** Where the lazy group `(.*?)\)` starting at `k` ends: the first ')' at or
      after `k`, provided no line terminator comes before it. */
  function UrlEnd(s: string, k: nat): (r: Option<nat>)
    decreases |s| - k
    ensures r.Some? ==> k <= r.value < |s| && s[r.value] == ')'
    ensures r.Some? ==> forall t :: k <= t < r.value ==> s[t] != ')' && !IsLineTerminator(s[t])
    ensures r.None? ==> forall j :: k <= j < |s| && s[j] == ')' ==> exists t :: k <= t < j && IsLineTerminator(s[t])
  {
    if k >= |s| then None
    else if s[k] == ')' then Some(k)
    else if IsLineTerminator(s[k]) then None
    else UrlEnd(s, k + 1)
  }

  /** The replacement text for one marker. */
  function Anchor(url: string): string {
    "<a href=\"" + url + "\" target=\"_blank\"" + " style=\"color: #EAF207;\">" + "[Imagem]</a>"
  }

  /** `.replace(/\[imagem\]\((.*?)\)/g, …)`: scanning left to right, each
      marker that has a closing parenthesis on its line becomes an anchor, and
      scanning resumes after that parenthesis. */
  function ReplaceImageMarkers(s: string): string
    decreases |s|
  {
    if s == [] then []
    else if StartsWith(s, Marker) && UrlEnd(s, |Marker|).Some? then
      var j := UrlEnd(s, |Marker|).value;
      Anchor(s[|Marker|..j]) + ReplaceImageMarkers(s[j + 1..])
    else [s[0]] + ReplaceImageMarkers(s[1..])
  }

  /** `formatMessageContent`: line breaks become `<br>`, then image markers
      become links. The result holds no line feed, and text with neither
      is returned as it is. */
  function FormatMessageContent(content: string): (r: string)
    ensures '\n' !in r
    ensures '\n' !in content && (forall i :: 0 <= i < |content| ==> !OccursAt(content, Marker, i)) ==> r == content
  {
    ReplaceAddsNoNewline(NewlinesToBr(content));
    if '\n' !in content && (forall i :: 0 <= i < |content| ==> !OccursAt(content, Marker, i)) then
      NoMarkerUnchanged(content);
      ReplaceImageMarkers(NewlinesToBr(content))
    else
      ReplaceImageMarkers(NewlinesToBr(content))
  }

  /** Text without a marker is left as it is. */
  lemma {:induction false} NoMarkerUnchanged(s: string)
    requires forall i :: !OccursAt(s, Marker, i)
    ensures ReplaceImageMarkers(s) == s
  {
    if s != [] {
      assert !OccursAt(s, Marker, 0);
      forall i ensures !OccursAt(s[1..], Marker, i) {
        OccursAtShift(s, Marker, i);
      }
      NoMarkerUnchanged(s[1..]);
    }
  }

  lemma OccursAtShift(s: string, t: string, i: int)
    requires s != []
    ensures OccursAt(s[1..], t, i) ==> OccursAt(s, t, i + 1)
  {
    if OccursAt(s[1..], t, i) {
      assert s[i + 1..i + 1 + |t|] == s[1..][i..i + |t|];
    }
  }

  /** A marker whose url has neither ')' nor a line break becomes an anchor
      to that url, and the text after it is formatted on its own. */
  lemma MarkerBecomesAnchor(url: string, rest: string)
    requires forall t :: 0 <= t < |url| ==> url[t] != ')' && !IsLineTerminator(url[t])
    ensures ReplaceImageMarkers(Marker + url + ")" + rest) == Anchor(url) + ReplaceImageMarkers(rest)
  {
    var s := Marker + url + ")" + rest;
    assert StartsWith(s, Marker);
    UrlEndAfterCleanRun(s, |Marker|, |Marker| + |url|);
    assert s[|Marker|..|Marker| + |url|] == url;
    assert s[|Marker| + |url| + 1..] == rest;
  }

  lemma {:induction false} UrlEndAfterCleanRun(s: string, k: nat, j: nat)
    requires k <= j < |s| && s[j] == ')'
    requires forall t :: k <= t < j ==> s[t] != ')' && !IsLineTerminator(s[t])
    ensures UrlEnd(s, k) == Some(j)
    decreases j - k
  {
    if k < j {
      UrlEndAfterCleanRun(s, k + 1, j);
    }
  }

  /** Marker replacement introduces no line feed. */
  lemma {:induction false} ReplaceAddsNoNewline(s: string)
    requires '\n' !in s
    ensures '\n' !in ReplaceImageMarkers(s)
  {
    if s != [] {
      if StartsWith(s, Marker) && UrlEnd(s, |Marker|).Some? {
        var j := UrlEnd(s, |Marker|).value;
        var url := s[|Marker|..j];
        assert '\n' !in url by {
          forall t | 0 <= t < |url| ensures url[t] != '\n' {
            assert url[t] == s[|Marker| + t];
          }
        }
        var tail := s[j + 1..];
        assert '\n' !in tail by {
          forall t | 0 <= t < |tail| ensures tail[t] != '\n' {
            assert tail[t] == s[j + 1 + t];
          }
        }
        ReplaceAddsNoNewline(s[j + 1..]);
        AnchorHasNoNewline(url);
        NotInConcat(Anchor(url), ReplaceImageMarkers(tail), '\n');
      } else {
        assert '\n' !in s[1..] by {
          forall t | 0 <= t < |s[1..]| ensures s[1..][t] != '\n' {
            assert s[1..][t] == s[1 + t];
          }
        }
        ReplaceAddsNoNewline(s[1..]);
        NotInConcat([s[0]], ReplaceImageMarkers(s[1..]), '\n');
      }
    }
  }

  lemma NotInConcat(a: string, b: string, c: char)
    requires c !in a && c !in b
    ensures c !in a + b
  {
    forall i | 0 <= i < |a + b| ensures (a + b)[i] != c {
      if i < |a| {
        assert (a + b)[i] == a[i];
      } else {
        assert (a + b)[i] == b[i - |a|];
      }
    }
  }

  lemma AnchorHasNoNewline(url: string)
    requires '\n' !in url
    ensures '\n' !in Anchor(url)
  {
    var open := "<a href=\"";
    var target, style, text := "\" target=\"_blank\"", " style=\"color: #EAF207;\">", "[Imagem]</a>";
    NotInConcat(open, url, '\n');
    NotInConcat(open + url, target, '\n');
    NotInConcat(open + url + target, style, '\n');
    NotInConcat(open + url + target + style, text, '\n');
  }

  // ---------------------------------------------------------------------
  // One message block

  datatype AvatarView = AvatarImage(src: string) | AvatarPlaceholder(initial: char)

  datatype MessageView = MessageView(
    messageClass: string,
    avatar: AvatarView,
    author: string,
    time: string,
    content: string,
    attachments: Option<string>)

  /** The author line: system messages, then staff, then the user's display
      name, username, or the generic label. */
  function Author(m: MessageWithRelations): (r: string)
    ensures r != ""
    ensures m.message.isSystemMessage ==> r == "Sistema"
    ensures !m.message.isSystemMessage && m.staff.Some? ==>
      r == m.staff.value.name + " (" + m.staff.value.role + ")"
    ensures !m.message.isSystemMessage && m.staff.None? && m.user.Some? && Truthy(m.user.value.displayName) ==>
      r == m.user.value.displayName.value
    ensures !m.message.isSystemMessage && m.staff.None? && m.user.Some? && !Truthy(m.user.value.displayName) ==>
      r == Or(Some(m.user.value.username), UnknownUser)
    ensures !m.message.isSystemMessage && m.staff.None? && m.user.None? ==> r == UnknownUser
  {
    if m.message.isSystemMessage then "Sistema"
    else if m.staff.Some? then m.staff.value.name + " (" + m.staff.value.role + ")"
    else
      Or(if m.user.Some? then m.user.value.displayName else None,
         Or(if m.user.Some? then Some(m.user.value.username) else None, UnknownUser))
  }

  /** The avatar URL the block shows, if any. */
  function AvatarUrl(m: MessageWithRelations): (url: Option<string>)
    ensures m.message.isSystemMessage ==> url.None?
    ensures !m.message.isSystemMessage && m.staff.Some? ==> url == m.staff.value.avatar
    ensures url.Some? ==> (m.staff.Some? && url == m.staff.value.avatar) || (m.user.Some? && url == m.user.value.avatar)
  {
    if m.message.isSystemMessage then None
    else if m.staff.Some? then m.staff.value.avatar
    else if m.user.Some? then m.user.value.avatar
    else None
  }

  function MessageClass(m: MessageWithRelations): (r: string)
    ensures r in {"message-system", "message-staff", "message-user"}
    ensures r == "message-system" <==> m.message.isSystemMessage
    ensures r == "message-staff" <==> !m.message.isSystemMessage && m.staff.Some?
  {
    if m.message.isSystemMessage then "message-system"
    else if m.staff.Some? then "message-staff"
    else "message-user"
  }

  /** One attachment: an inline image exactly for image types, a link
      otherwise. */
  function RenderAttachment(a: Attachment): (html: string)
    ensures StartsWith(html, "<img") <==> StartsWith(a.mimeType, "image/")
  {
    if StartsWith(a.mimeType, "image/") then
      var html := "<img src=\"" + a.url + "\" alt=\"" + a.filename + "\" class=\"attachment-image\" />";
      assert html[..4] == "<img";
      html
    else
      var html := "<a href=\"" + a.url + "\" target=\"_blank\" class=\"attachment-link\">" + PaperclipPrefix + " " + a.filename + "</a>";
      assert html[1] == 'a';
      html
  }

  /** `attachments.map(…).join('')`. */
  function JoinAttachments(atts: seq<Attachment>): string {
    if atts == [] then [] else RenderAttachment(atts[0]) + JoinAttachments(atts[1..])
  }

  function RenderMessage(m: MessageWithRelations, formatDate: int -> string): (v: MessageView)
    ensures v.author == Author(m) && v.messageClass == MessageClass(m)
    ensures v.time == formatDate(m.message.createdAt) && '\n' !in v.content
    ensures v.attachments.Some? <==> |m.attachments| > 0
  {
    var author := Author(m);
    var avatarUrl := AvatarUrl(m);
    MessageView(
      MessageClass(m),
      if Truthy(avatarUrl) then AvatarImage(avatarUrl.value) else AvatarPlaceholder(AsciiUpper(author[0])),
      author,
      formatDate(m.message.createdAt),
      FormatMessageContent(m.message.content),
      if |m.attachments| > 0 then Some(JoinAttachments(m.attachments)) else None)
  }

  /** The avatar slot shows the image exactly when there is a non-empty URL,
      and otherwise the author's initial. */
  lemma AvatarChoice(m: MessageWithRelations, formatDate: int -> string)
    ensures RenderMessage(m, formatDate).avatar.AvatarImage? <==> Truthy(AvatarUrl(m))
    ensures m.message.isSystemMessage ==> RenderMessage(m, formatDate).avatar == AvatarPlaceholder('S')
    ensures RenderMessage(m, formatDate).avatar.AvatarPlaceholder? ==>
      RenderMessage(m, formatDate).avatar.initial == AsciiUpper(Author(m)[0])
  {
  }

  // ---------------------------------------------------------------------
  // The document

  datatype InfoItem = InfoItem(heading: string, value: string)

  datatype Document = Document(
    title: string,
    statusColor: string,
    headerEmoji: string,
    subject: string,
    ticketNumberLine: string,
    statusLabel: string,
    info: seq<InfoItem>,
    messagesTitle: string,
    messages: seq<MessageView>,
    footer: string)

  /** The information grid: four fixed items, then the attendant, closing
      time and closing reason when present. */
  function InfoItems(t: TicketWithRelations, formatDate: int -> string): (items: seq<InfoItem>)
    ensures 4 <= |items| <= 7
    ensures items[0].heading == "Categoria"
    ensures items[1] == InfoItem("Aberto por", Or(t.user.displayName, t.user.username))
    ensures items[2] == InfoItem("Discord ID", t.user.discordId)
    ensures items[3] == InfoItem("Data de Abertura", formatDate(t.ticket.createdAt))
  {
    var info := Categories.GetCategoryInfo(t.ticket.category);
    [ InfoItem("Categoria",
        Or(if info.Some? then Some(info.value.emoji) else None, "") + " " +
        Or(if info.Some? then Some(info.value.name) else None, t.ticket.category)),
      InfoItem("Aberto por", Or(t.user.displayName, t.user.username)),
      InfoItem("Discord ID", t.user.discordId),
      InfoItem("Data de Abertura", formatDate(t.ticket.createdAt)) ]
    + (if t.assignedTo.Some?
       then [InfoItem("Atendente", t.assignedTo.value.name + " (" + t.assignedTo.value.role + ")")] else [])
    + (if t.ticket.closedAt.Some? then [InfoItem("Fechado em", formatDate(t.ticket.closedAt.value))] else [])
    + (if Truthy(t.ticket.closedReason) then [InfoItem("Motivo do Fechamento", t.ticket.closedReason.value)] else [])
  }

  predicate HasItem(items: seq<InfoItem>, heading: string) {
    exists i :: 0 <= i < |items| && items[i].heading == heading
  }

  /** Each optional item appears exactly when its field is set. */
  lemma OptionalItemsIffFieldsSet(t: TicketWithRelations, formatDate: int -> string)
    ensures HasItem(InfoItems(t, formatDate), "Atendente") <==> t.assignedTo.Some?
    ensures HasItem(InfoItems(t, formatDate), "Fechado em") <==> t.ticket.closedAt.Some?
    ensures HasItem(InfoItems(t, formatDate), "Motivo do Fechamento") <==> Truthy(t.ticket.closedReason)
  {
    var items := InfoItems(t, formatDate);
    var a := if t.assignedTo.Some? then 1 else 0;
    var c := if t.ticket.closedAt.Some? then 1 else 0;
    var w := if Truthy(t.ticket.closedReason) then 1 else 0;
    assert |items| == 4 + a + c + w;
    assert forall i :: 0 <= i < 4 ==> items[i].heading in {"Categoria", "Aberto por", "Discord ID", "Data de Abertura"};
    if t.assignedTo.Some? {
      assert items[4].heading == "Atendente";
    }
    if t.ticket.closedAt.Some? {
      assert items[4 + a].heading == "Fechado em";
    }
    if Truthy(t.ticket.closedReason) {
      assert items[4 + a + c].heading == "Motivo do Fechamento";
    }
    assert a == 1 ==> items[4].heading == "Atendente";
    assert c == 1 ==> items[4 + a].heading == "Fechado em";
    assert w == 1 ==> items[4 + a + c].heading == "Motivo do Fechamento";
  }

  function RenderMessages(ms: seq<MessageWithRelations>, formatDate: int -> string): seq<MessageView> {
    if ms == [] then [] else [RenderMessage(ms[0], formatDate)] + RenderMessages(ms[1..], formatDate)
  }

  /** `generateTranscriptHTML`. */
  function GenerateTranscript(t: TicketWithRelations, formatDate: int -> string, now: int): (d: Document)
    ensures d.title == "Transcript - " + d.ticketNumberLine
    ensures d.ticketNumberLine == "Ticket #" + NatToString(t.ticket.ticketNumber)
    ensures d.subject == t.ticket.subject
    ensures StatusInfo(d.statusLabel, d.statusColor) == StatusInfoOf(t.ticket.status)
    ensures d.info == InfoItems(t, formatDate)
    ensures d.footer == "Transcript gerado em " + formatDate(now)
    ensures |d.messages| == |t.messages|
  {
    RenderMessagesBlockwise(t.messages, formatDate);
    var info := Categories.GetCategoryInfo(t.ticket.category);
    var status := StatusInfoOf(t.ticket.status);
    var numberLine := "Ticket #" + NatToString(t.ticket.ticketNumber);
    Document(
      "Transcript - " + numberLine,
      status.color,
      Or(if info.Some? then Some(info.value.emoji) else None, ClipboardFallback),
      t.ticket.subject,
      numberLine,
      status.text,
      InfoItems(t, formatDate),
      MessagesTitlePrefix + NatToString(|t.messages|) + ")",
      RenderMessages(t.messages, formatDate),
      "Transcript gerado em " + formatDate(now))
  }

  lemma {:induction false} RenderMessagesBlockwise(ms: seq<MessageWithRelations>, formatDate: int -> string)
    ensures |RenderMessages(ms, formatDate)| == |ms|
    ensures forall i :: 0 <= i < |ms| ==> RenderMessages(ms, formatDate)[i] == RenderMessage(ms[i], formatDate)
  {
    if ms != [] {
      RenderMessagesBlockwise(ms[1..], formatDate);
    }
  }

  /** One block per message, in order; the heading counts the messages. */
  lemma OneBlockPerMessage(t: TicketWithRelations, formatDate: int -> string, now: int)
    ensures |GenerateTranscript(t, formatDate, now).messages| == |t.messages|
    ensures forall i :: 0 <= i < |t.messages| ==>
      GenerateTranscript(t, formatDate, now).messages[i] == RenderMessage(t.messages[i], formatDate)
    ensures exists digits :: (GenerateTranscript(t, formatDate, now).messagesTitle == MessagesTitlePrefix + digits + ")" &&
      (forall k :: 0 <= k < |digits| ==> IsDigit(digits[k])) && DecimalValue(digits) == |t.messages|)
  {
    RenderMessagesBlockwise(t.messages, formatDate);
    DecimalRoundTrip(|t.messages|);
    var digits := NatToString(|t.messages|);
    assert GenerateTranscript(t, formatDate, now).messagesTitle == MessagesTitlePrefix + digits + ")";
  }

  /** The header emoji is the category's, or the mis-encoded clipboard for an
      unknown category. */
  lemma HeaderEmoji(t: TicketWithRelations, formatDate: int -> string, now: int)
    ensures Categories.Known(t.ticket.category) ==>
      GenerateTranscript(t, formatDate, now).headerEmoji == Categories.GetCategoryEmoji(t.ticket.category)
    ensures !Categories.Known(t.ticket.category) ==>
      GenerateTranscript(t, formatDate, now).headerEmoji == ClipboardFallback
  {
    Categories.CategoriesAreDistinct();
  }
}
