/** `POST /api/discord/interactions` (`src/app/api/discord/interactions/route.ts`):
    the endpoint Discord calls for slash commands. A PING is answered with a
    PONG, the `sistema-ticket` command with a message holding one embed that
    points at the web ticket system, and anything else with 400. The
    application URL from the environment and the current time (as an ISO
    string) are parameters. */
module Interactions {
  import opened Base

  /** The parts of the request body the route reads: `type`, when it is a
      number, and `data.name`, when present. */
  datatype Interaction = Interaction(kind: Option<int>, commandName: Option<string>)

  datatype InfoEmbed = InfoEmbed(
    title: string,
    description: string,
    color: int,
    thumbnail: string,
    footerText: string,
    footerIcon: string,
    timestamp: string)

  datatype InteractionResponse =
    | ChannelMessage(embeds: seq<InfoEmbed>)
    | Pong
    | Unrecognized

  const Ping := 1
  const ApplicationCommand := 2
  const ChannelMessageWithSource := 4

  /** The `type` of the response body, or `None` for the 400 error. */
  function ResponseType(r: InteractionResponse): Option<int> {
    match r
    case ChannelMessage(_) => Some(ChannelMessageWithSource)
    case Pong => Some(Ping)
    case Unrecognized => None
  }

  function StatusCode(r: InteractionResponse): int {
    if r.Unrecognized? then 400 else 200
  }

  const TicketCommand := "sistema-ticket"
  const DefaultAppUrl := "https://scc-tickets.vercel.app"
  const Logo := "https://i.imgur.com/kHvmXj6.png"

  /** The description down to the "Acesse o Sistema" heading. */
  const Intro :=
    "**Bem-vindo à nossa Central de Atendimento!**\n\n" +
    "Abra um ticket no nosso sistema web para receber suporte personalizado da nossa equipe.\n\n" +
    "**\U{2757} Importante:**\n" +
    "Evite marcar a equipe. Você será atendido o mais breve possível.\n\n" +
    "**\U{1F4CB} Categorias Disponíveis:**\n" +
    "\U{2022} \U{1F3E0} **Casas** - Questões relacionadas a casas e propriedades\n" +
    "\U{2022} \U{1F48E} **Doações** - Assuntos relacionados a doações\n" +
    "\U{2022} \U{1F41B} **Reportar Bugs** - Reportar erros e problemas técnicos\n" +
    "\U{2022} \U{26A0}\U{FE0F} **Denúncias** - Reportar infrações e problemas de conduta\n" +
    "\U{2022} \U{1F680} **Boost** - Suporte para membros boosters\n" +
    "\U{2022} \U{1F50E} **Revisão** - Solicitar revisão de advertências e banimentos\n" +
    "\U{2022} \U{1F4C1} **Suporte** - Suporte técnico e ajuda geral\n\n" +
    "**\U{1F517} Acesse o Sistema:**\n"

  const LinkText := "[Clique aqui para abrir um ticket]("

  /** The description after the plain link. */
  const Steps :=
    "\n\n**\U{1F4A1} Como funciona:**\n" +
    "1. Acesse o link acima\n" +
    "2. Faça login com sua conta Discord\n" +
    "3. Selecione a categoria do seu ticket\n" +
    "4. Descreva seu problema ou solicitação\n" +
    "5. Nossa equipe responderá o mais rápido possível"

  function TicketsUrl(baseUrl: string): string {
    baseUrl + "/tickets"
  }

  function Description(baseUrl: string): string {
    Intro + LinkText + TicketsUrl(baseUrl) + ")\n\nOu acesse: " + TicketsUrl(baseUrl) + Steps
  }

  /** The embed of the command's reply; an unset or empty application URL
      falls back to the deployed one. */
  function CommandEmbed(appUrl: Option<string>, timestamp: string): (e: InfoEmbed)
    ensures Truthy(appUrl) ==> e.description == Description(appUrl.value)
    ensures !Truthy(appUrl) ==> e.description == Description(DefaultAppUrl)
    ensures e.color == 0xEAF207 && e.thumbnail == Logo && e.footerIcon == Logo && e.timestamp == timestamp
  {
    var baseUrl := Or(appUrl, DefaultAppUrl);
    InfoEmbed(
      "\U{1F4C4} Central de Atendimento - StreetCarClub",
      Description(baseUrl),
      0xEAF207,
      Logo,
      "StreetCarClub \U{2022} Atendimento de Qualidade",
      Logo,
      timestamp)
  }

  /** The handler: the command check comes first, then the PING check. */
  function Handle(body: Interaction, appUrl: Option<string>, timestamp: string): (r: InteractionResponse)
    ensures r.ChannelMessage? <==> body.kind == Some(ApplicationCommand) && body.commandName == Some(TicketCommand)
    ensures r.Pong? <==> body.kind == Some(Ping)
    ensures r.ChannelMessage? ==> |r.embeds| == 1 && ResponseType(r) == Some(4)
    ensures r.Pong? ==> ResponseType(r) == Some(1)
    ensures r.Unrecognized? <==> StatusCode(r) == 400
  {
    if body.kind == Some(ApplicationCommand) && body.commandName == Some(TicketCommand) then
      ChannelMessage([CommandEmbed(appUrl, timestamp)])
    else if body.kind == Some(Ping) then
      Pong
    else
      Unrecognized
  }

  /** Everything but a PING and the one command is refused: another type, or
      type 2 with another command name. */
  lemma OtherRequestsRefused(body: Interaction, appUrl: Option<string>, timestamp: string)
    requires body.kind != Some(1)
    requires body.kind == Some(2) ==> body.commandName != Some("sistema-ticket")
    ensures StatusCode(Handle(body, appUrl, timestamp)) == 400
  {
  }

  /** The embed's description carries the link to the ticket page twice:
      once as a Markdown link and once as plain text. */
  lemma DescriptionLinksToTickets(appUrl: Option<string>, timestamp: string)
    ensures var baseUrl := Or(appUrl, DefaultAppUrl);
      var d := CommandEmbed(appUrl, timestamp).description;
      exists i, j :: i < j && OccursAt(d, baseUrl + "/tickets", i) && OccursAt(d, baseUrl + "/tickets", j)
  {
    var url := TicketsUrl(Or(appUrl, DefaultAppUrl));
    var b := ")\n\nOu acesse: ";
    TwoOccurrences(Intro + LinkText, url, b, Steps);
  }
}
