/** `createTicketNotificationEmbed` (`src/lib/discord.ts`): the Discord embed
    sent to a user about one of their tickets. The application URL from the
    environment and the current time (already formatted as an ISO string) are
    parameters. */
module DiscordEmbeds {
  import opened Base

  datatype NotificationKind = NewMessage | TicketClosed | TicketUpdated

  /** The `data` argument. */
  datatype NotificationData = NotificationData(
    ticketNumber: nat,
    category: string,
    subject: string,
    message: Option<string>,
    staffName: Option<string>,
    url: string)

  datatype EmbedField = EmbedField(name: string, value: string, inline: bool)

  datatype Embed = Embed(
    title: string,
    description: string,
    color: int,
    fields: seq<EmbedField>,
    footer: string,
    timestamp: string)

  const DefaultAppUrl := "http://localhost:3000"

  const NewMessageColor := 0xeaf207
  const ClosedColor := 0xff6b6b
  const UpdatedColor := 0xffa500

  const SystemFooter := "StreetCarClub • Sistema de Tickets"
  const ThanksFooter := "StreetCarClub • Obrigado pelo contato!"

  /** `message?.substring(0, 200) || 'Clique para ver'`. */
  function MessagePreview(message: Option<string>): (preview: string)
    ensures message.None? || message.value == [] ==> preview == "Clique para ver"
    ensures message.Some? && 0 < |message.value| <= 200 ==> preview == message.value
    ensures message.Some? && |message.value| > 200 ==> preview == message.value[..200]
  {
    var cut := if message.None? then None
      else if |message.value| <= 200 then Some(message.value) else Some(message.value[..200]);
    Or(cut, "Clique para ver")
  }

  function TicketField(data: NotificationData): EmbedField {
    EmbedField("Ticket", "#" + NatToString(data.ticketNumber), true)
  }

  /** A Markdown link labelled "Clique aqui". */
  function AccessField(url: string): EmbedField {
    EmbedField("\U{1F517} Acessar", "[Clique aqui](" + url + ")", false)
  }

  function CreateTicketNotificationEmbed(kind: NotificationKind, data: NotificationData,
                                         appUrl: Option<string>, timestamp: string): (e: Embed)
    ensures e.timestamp == timestamp
    ensures |e.fields| >= 3 && e.fields[0] == TicketField(data)
    ensures e.footer == if kind == TicketClosed then ThanksFooter else SystemFooter
    ensures kind != TicketClosed ==> e.fields[|e.fields| - 1] == AccessField(data.url)
  {
    var baseUrl := Or(appUrl, DefaultAppUrl);
    match kind
    case NewMessage =>
      Embed(
        "\U{1F4AC} Nova Mensagem no Ticket",
        "Você recebeu uma nova resposta no seu ticket.",
        NewMessageColor,
        [ TicketField(data),
          EmbedField("Categoria", data.category, true),
          EmbedField("Assunto", data.subject, false),
          EmbedField("Mensagem", MessagePreview(data.message), false),
          AccessField(data.url) ],
        SystemFooter,
        timestamp)
    case TicketClosed =>
      Embed(
        "\U{1F512} Ticket Fechado",
        "Seu ticket foi fechado pela equipe.",
        ClosedColor,
        [ TicketField(data),
          EmbedField("Categoria", data.category, true),
          EmbedField("Fechado por", Or(data.staffName, "Staff"), true),
          EmbedField("\U{1F4DD} Avaliar", "[Avalie seu atendimento](" + baseUrl + "/avaliar)", false) ],
        ThanksFooter,
        timestamp)
    case TicketUpdated =>
      Embed(
        "\U{1F514} Atualização no Ticket",
        "Seu ticket foi atualizado. Verifique as novidades.",
        UpdatedColor,
        [ TicketField(data),
          EmbedField("Assunto", data.subject, true),
          AccessField(data.url) ],
        SystemFooter,
        timestamp)
  }

  /** The number of fields and the color of each kind. */
  lemma FieldCountsAndColors(data: NotificationData, appUrl: Option<string>, timestamp: string)
    ensures |CreateTicketNotificationEmbed(NewMessage, data, appUrl, timestamp).fields| == 5
    ensures |CreateTicketNotificationEmbed(TicketClosed, data, appUrl, timestamp).fields| == 4
    ensures |CreateTicketNotificationEmbed(TicketUpdated, data, appUrl, timestamp).fields| == 3
    ensures CreateTicketNotificationEmbed(NewMessage, data, appUrl, timestamp).color == 0xeaf207
    ensures CreateTicketNotificationEmbed(TicketClosed, data, appUrl, timestamp).color == 0xff6b6b
    ensures CreateTicketNotificationEmbed(TicketUpdated, data, appUrl, timestamp).color == 0xffa500
  {
  }

  /** Every kind opens with the inline 'Ticket' field holding '#' and the
      ticket's number, and the number can be read back from it. */
  lemma TicketFieldFirst(kind: NotificationKind, data: NotificationData, appUrl: Option<string>, timestamp: string)
    ensures var e := CreateTicketNotificationEmbed(kind, data, appUrl, timestamp);
      e.fields[0] == EmbedField("Ticket", "#" + NatToString(data.ticketNumber), true) &&
      DecimalValue(e.fields[0].value[1..]) == data.ticketNumber
  {
    var e := CreateTicketNotificationEmbed(kind, data, appUrl, timestamp);
    assert e.fields[0].value[1..] == NatToString(data.ticketNumber);
    DecimalRoundTrip(data.ticketNumber);
  }

  /** 'Mensagem' carries the preview of the message. */
  lemma MessageFieldIsPreview(data: NotificationData, appUrl: Option<string>, timestamp: string)
    ensures var f := CreateTicketNotificationEmbed(NewMessage, data, appUrl, timestamp).fields[3];
      f.name == "Mensagem" && 0 < |f.value| <= 200 &&
      (Truthy(data.message) ==> f.value <= data.message.value)
  {
  }

  /** 'Fechado por' is the staff name, or 'Staff' when absent or empty. */
  lemma ClosedByField(data: NotificationData, appUrl: Option<string>, timestamp: string)
    ensures var f := CreateTicketNotificationEmbed(TicketClosed, data, appUrl, timestamp).fields[2];
      f.name == "Fechado por" &&
      (if Truthy(data.staffName) then f.value == data.staffName.value else f.value == "Staff")
  {
  }

  /** The rating link of a closed ticket points at the application's
      '/avaliar' page and ignores the ticket's own URL. */
  lemma RatingLinkIgnoresTicketUrl(data: NotificationData, url': string, appUrl: Option<string>, timestamp: string)
    ensures var e := CreateTicketNotificationEmbed(TicketClosed, data, appUrl, timestamp);
      e == CreateTicketNotificationEmbed(TicketClosed, data.(url := url'), appUrl, timestamp) &&
      e.fields[3].value == "[Avalie seu atendimento](" + Or(appUrl, DefaultAppUrl) + "/avaliar)"
  {
  }
}
