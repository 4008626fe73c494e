/** The records the handlers exchange with the database and the admin
    credential. Identifiers the database generates (cuid strings) are natural
    numbers here; timestamps are opaque integers. */
module Model {
  import opened Base

  /** Ticket statuses (the `TicketStatus` enum). */
  const Aberto := "ABERTO"
  const EmAtendimento := "EM_ATENDIMENTO"
  const AguardandoResposta := "AGUARDANDO_RESPOSTA"
  const Fechado := "FECHADO"

  /** The payload of a verified admin token (`AdminToken`); `getAdminSession()`
      yields one of these or nothing. */
  datatype AdminSession = AdminSession(
    staffId: string,
    username: string,
    role: string,
    name: string,
    discordId: Option<string>,
    avatar: Option<string>)

  /** A row of the `Ticket` table. */
  datatype Ticket = Ticket(
    id: nat,
    ticketNumber: nat,
    category: string,
    subject: string,
    status: string,
    userId: string,
    assignedToId: Option<string>,
    createdAt: int,
    updatedAt: int,
    closedAt: Option<int>,
    closedReason: Option<string>)

  /** A row of the `Message` table. */
  datatype Message = Message(
    id: nat,
    ticketId: nat,
    content: string,
    userId: Option<string>,
    staffId: Option<string>,
    isSystemMessage: bool,
    createdAt: int)

  /** A row of the `User` table (end users, created at Discord login). */
  datatype User = User(
    id: string,
    discordId: string,
    username: string,
    displayName: Option<string>,
    avatar: Option<string>)

  /** A row of the `Staff` table. */
  datatype Staff = Staff(
    id: string,
    username: string,
    name: string,
    role: string,
    active: bool,
    avatar: Option<string>)

  /** A row of the `Attachment` table. */
  datatype Attachment = Attachment(
    filename: string,
    url: string,
    mimeType: string,
    size: int,
    messageId: string)
}
