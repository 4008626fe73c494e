# scc-tickets in Dafny

A model of the access-control and ticket-handling core of scc-tickets, the
StreetCarClub support desk: a Next.js web application where Discord users
open tickets by category and staff members, whose rank comes from their
Discord roles, answer them.

The model covers:

- **Rules and tables.** The static role → category permission table, the
  Discord role → staff role resolution, and the category catalogue.
- **Route handlers.** The user-side ticket creation and listing, the staff
  ticket list, the flagged queue, the staff lists, and the category
  augmentation for brokers.
- **Output builders.** The HTML transcript generator and the bulk export
  archive.
- **Discord and uploads.** The Discord notification embeds, the image upload
  checks and the Discord slash-command endpoint.

Each source file is one module:

| module | source |
|---|---|
| `Permissions` | `src/lib/permissions.ts` |
| `DiscordRoles` | `src/lib/discord-roles.ts` |
| `Categories` | `src/lib/categories.ts` |
| `StaffAvailable` | `src/app/api/admin/staff/available/route.ts` |
| `AdminCategories` | `src/app/api/admin/categories/route.ts` |
| `TicketStore` | `src/app/api/tickets/route.ts` |
| `AdminTickets` | `src/app/api/admin/tickets/route.ts` |
| `FlaggedTickets` | `src/app/api/admin/tickets/flagged/route.ts` |
| `StaffList` | `src/app/api/admin/staff/route.ts` |
| `Transcript` | `src/lib/export-transcript.ts` |
| `ExportAll` | `src/app/api/admin/tickets/export-all/route.ts` |
| `DiscordEmbeds` | `src/lib/discord.ts` |
| `Upload` | `src/app/api/upload/route.ts` |
| `Interactions` | `src/app/api/discord/interactions/route.ts` |

`Base` holds the shared vocabulary:

- `Option` and JavaScript truthiness for optional strings (`Truthy`, and
  `Or` for `a || b`).
- `Filter` and `Map` with their permutation lemmas.
- A stable insertion `Sort` standing for `Array.prototype.sort`.
- Lexicographic order.
- Decimal printing with its round trip.

`Model` holds the database records.

How the model is built:

- **Database queries.** A Prisma query is an input sequence. Its `where`
  and `orderBy` become preconditions on that sequence.
- **Ticket creation.** `TicketStore.Store` is the exception. It is a class
  whose `tickets` and `messages` fields stand for the two tables, so that
  ticket creation can be stated as a state change that keeps the invariant
  "at most one active ticket per user and category".
- **Attachments.** `Upload.AttachmentStore` stands for the attachment table
  in the same way.
- **Loops.** Loops of the source are methods proved against specification
  functions: `DiscordRoles.GetHighestRole`, `StaffAvailable.MemberRole` and
  `ExportAll.BuildArchive`.
- **Lambdas.** Filter predicates are named functions
  (`AdminTickets.VisibleTo`, `StaffAvailable.KeepFn`, …), so that the handler
  and the lemmas about it speak of the same predicate.

The environment is given as parameters:

- Session lookups.
- Environment variables (`NEXT_PUBLIC_APP_URL`, `DISCORD_BOT_TOKEN`).
- The clock and date formatting.
- The Discord guild-member fetch result.
- The image host's reply.
- The live Corretor check (`hasCorretor`).

Points where the code behaves in a way worth knowing:

- **Interactions route.** `src/lib/discord-verify.ts` defines
  `verifyDiscordSignature`, but the interactions route never calls it: it
  dispatches on `body.type` straight away. `Interactions.Handle` likewise
  performs no signature check.
- **Export slug.** Each character of the subject outside `[A-Za-z0-9]`
  becomes `-` in the archive's entry names (`ExportAll.Slug`).
- **Mis-encoded literals.** `src/lib/export-transcript.ts` contains
  mis-encoded literals: `UsuÃ¡rio`, `HistÃ³rico de Mensagens (`, and the
  byte-wise decodings of the clipboard and paperclip emojis. `Transcript`
  reproduces them as written.

## Model

| member | source | states |
|---|---|---|
| Permissions.PermissionsOf | src/lib/permissions.ts:3-15 | a role missing from the table has no categories and every listed role has at least one; a listed role gets exactly its table entry |
| Permissions.CanAccessCategory | src/lib/permissions.ts:13-17 | a role missing from the table is denied every category; otherwise access holds iff the category is listed for the role |
| Permissions.CeoAndDevAlike | src/lib/permissions.ts:9-10 | CEO and DEV may access exactly the same categories |
| Permissions.OnlyCeoAndDevSeeDonations | src/lib/permissions.ts:3-11 | DOACOES is accessible iff the role is CEO or DEV |
| Permissions.AjudanteIsTheFloor | src/lib/permissions.ts:3-11 | every role of the table may access SUPORTE and BUGS, and AJUDANTE's categories are included in every role's |
| Permissions.CoordinatorTier | src/lib/permissions.ts:6-8 | COORDENADOR and COMMUNITY_MANAGER have the same rights, which include MODERADOR's |
| Permissions.ReportsAndReviewsAreSenior | src/lib/permissions.ts:3-11 | DENUNCIAS and REVISAO are accessible exactly to COORDENADOR, COMMUNITY_MANAGER, CEO and DEV |
| Permissions.LabelsCoverRoles | src/lib/permissions.ts:3-27 | the label table has exactly the roles of the permission table |
| DiscordRoles.GetHighestRole | src/lib/discord-roles.ts:30-46 | the loop returns null iff no id is mapped; otherwise a role some given id maps to, whose priority is at least that of every mapped id; it equals the specification `HighestRole` |
| DiscordRoles.HighestRole | src/lib/discord-roles.ts:30-46 | the specification of `getHighestRole`: null iff no id is in the role map; otherwise the role some given id maps to |
| DiscordRoles.ScanNoneIffUnmapped | src/lib/discord-roles.ts:34-45 | the scan finds nothing iff no id is in the role map (for priorities that are non-negative on mapped roles) |
| DiscordRoles.ScanComesFromInput | src/lib/discord-roles.ts:34-45 | a found role is the mapping of some id of the input |
| DiscordRoles.ScanIsMaximal | src/lib/discord-roles.ts:34-45 | no mapped id has a higher priority than the found role |
| DiscordRoles.ScanAgrees | src/lib/discord-roles.ts:34-45 | two priority tables that agree on mapped roles resolve every id list alike |
| DiscordRoles.ScanDependsOnlyOnIdSet | src/lib/discord-roles.ts:34-45 | with priorities that separate the mapped roles, the result depends only on the set of ids, not their order or repetition |
| DiscordRoles.PriorityOfSeparatesRoles | src/lib/discord-roles.ts:21-27 | the priority table gives distinct mapped roles distinct non-negative priorities |
| DiscordRoles.HasAllowedRole | src/lib/discord-roles.ts:48-51 | true iff some id is a key of the role map |
| DiscordRoles.AllowedIffResolved | src/lib/discord-roles.ts:17-51 | a user has an allowed role iff a highest role is resolved for them |
| DiscordRoles.HighestRoleIgnoresOrder | src/lib/discord-roles.ts:30-46 | two id lists with the same elements resolve to the same role |
| DiscordRoles.ModeratorAndCoordinatorResolveToCoordinator | src/lib/discord-roles.ts:11-25 | holding only the moderator and coordinator roles resolves to COORDENADOR |
| Categories.Find | src/lib/categories.ts:87-89 | `find` returns nothing iff no entry has the id, and otherwise the first entry that has it |
| Categories.GetCategoryInfo | src/lib/categories.ts:87-89 | undefined iff the category is not in the catalogue; otherwise its catalogue entry |
| Categories.GetCategoryEmoji | src/lib/categories.ts:91-93 | the entry's emoji, or the clipboard emoji for an unknown category |
| Categories.GetCategoryColor | src/lib/categories.ts:95-97 | the entry's color, or '#EAF207' for an unknown category |
| Categories.GetCategoryClasses | src/lib/categories.ts:99-106 | the entry's three classes, or the primary-color classes for an unknown category |
| Categories.CategoryIds | src/lib/categories.ts:14-85 | the catalogue's ids in catalogue order |
| Categories.CategoriesAreDistinct | src/lib/categories.ts:14-85 | the catalogue has seven entries with distinct ids |
| Categories.PermittedCategoriesAreKnown | src/lib/permissions.ts:3-11 | every category a role may access is in the catalogue |
| StaffAvailable.StaffPriority | src/app/api/admin/staff/available/route.ts:141-151 | the route's priority table agrees with the shared one except that DEV ranks with CEO, and gives 0 to unknown roles |
| StaffAvailable.StaffPriorityAgreesOnMappedRoles | src/app/api/admin/staff/available/route.ts:141-151 | on every role the Discord map produces, the route's table and the shared table agree |
| StaffAvailable.MemberRole | src/app/api/admin/staff/available/route.ts:74-86 | the per-member loop computes the same role as `getHighestRole` |
| StaffAvailable.Keep | src/app/api/admin/staff/available/route.ts:65-93 | a kept member has a resolved role that may access the category and is not the caller; for a member holding a staff role id the role is always resolved, so the `!highestRole` check never decides |
| StaffAvailable.IsAvailable | src/app/api/admin/staff/available/route.ts:65-93 | the filter callback keeps a member iff it holds a staff role, is not the caller, and its highest role may access the category |
| StaffAvailable.MakeEntry | src/app/api/admin/staff/available/route.ts:94-121 | the map callback builds the member's entry |
| StaffAvailable.ToEntry | src/app/api/admin/staff/available/route.ts:110-120 | the name is the nickname, else the global name, else the username; the avatar is the CDN URL built from the user id and avatar hash iff the avatar is set |
| StaffAvailable.FilterAvailable | src/app/api/admin/staff/available/route.ts:64-93 | the filter keeps exactly the available members, in order |
| StaffAvailable.MakeEntries | src/app/api/admin/staff/available/route.ts:94-121 | one entry per kept member, in order |
| StaffAvailable.AvailableStaffList | src/app/api/admin/staff/available/route.ts:64-129 | one entry per kept member, never more than the guild members, and the entries are a permutation of the kept members' entries |
| StaffAvailable.ListAvailable | src/app/api/admin/staff/available/route.ts:64-129 | filter, map and sort produce the specification list |
| StaffAvailable.Get | src/app/api/admin/staff/available/route.ts:18-134 | 401 without session, 400 without category, 500 without bot token, 500 with the details when the fetch fails, else the sorted list |
| StaffAvailable.StaffBeforeIsTotalPreorder | src/app/api/admin/staff/available/route.ts:122-129 | the comparator (priority descending, then name) is a total preorder |
| StaffAvailable.EntriesComeFromKeptMembers | src/app/api/admin/staff/available/route.ts:64-121 | every listed entry is the entry of a kept member of the input |
| StaffAvailable.OnlyPermittedRoles | src/app/api/admin/staff/available/route.ts:88-92 | every listed member has a role, and that role may access the category |
| StaffAvailable.CallerExcluded | src/app/api/admin/staff/available/route.ts:71 | the caller never appears in the list |
| StaffAvailable.UnmappedMembersExcluded | src/app/api/admin/staff/available/route.ts:66-68 | every listed member holds at least one staff role id |
| StaffAvailable.KeptMembersListed | src/app/api/admin/staff/available/route.ts:64-121 | every member passing the filter is listed |
| StaffAvailable.ListIsSorted | src/app/api/admin/staff/available/route.ts:122-129 | the list is ordered by priority descending, then name |
| StaffAvailable.ListIgnoresMemberOrder | src/app/api/admin/staff/available/route.ts:64-129 | permuting the fetched members permutes the list only |
| AdminCategories.AllowedCategoriesFor | src/app/api/admin/categories/route.ts:15-33 | CASAS is appended iff the session has a Discord id, the Corretor check passes, the role is not CM/DEV/CEO and CASAS is not already there; otherwise the base list; no duplicates are introduced |
| AdminCategories.Get | src/app/api/admin/categories/route.ts:7-37 | 401 iff no session; otherwise the role's base list, with CASAS appended exactly when `AllowedCategoriesFor`'s conditions hold |
| AdminCategories.TopRolesGetTheirBaseList | src/app/api/admin/categories/route.ts:24-35 | CM, DEV and CEO are never augmented and already have CASAS |
| AdminCategories.AugmentationOnlyMattersForAjudanteAndUnknownRoles | src/app/api/admin/categories/route.ts:24-32 | an augmentation actually happens only for AJUDANTE or a role missing from the table |
| AdminCategories.BaseListsHaveNoDuplicates | src/lib/permissions.ts:3-11 | no permission list repeats a category |
| TicketStore.Store.Create | src/app/api/tickets/route.ts:44-118 | 401, 400 for missing fields, 400 for an invalid category, 400 with the category's label when an active ticket exists; a rejection changes nothing; the ticket is created iff every check passes, and creation appends an ABERTO ticket numbered next plus its first message, keeping the store invariant |
| TicketStore.Store.List | src/app/api/tickets/route.ts:8-36 | 401 iff no user; otherwise a permutation of the user's tickets with the requested status |
| TicketStore.HasActiveTicket | src/app/api/tickets/route.ts:67-77 | a blocking ticket is one of the user, in the category, and not FECHADO |
| TicketStore.OnlySameUserSameCategoryActiveTicketsBlock | src/app/api/tickets/route.ts:67-77 | closed tickets, other users' and other categories' tickets never block a creation |
| TicketStore.CreationKeepsOneActive | src/app/api/tickets/route.ts:67-116 | creating when nothing blocks keeps at most one active ticket per user and category |
| TicketStore.NewTicketBlocksTheNext | src/app/api/tickets/route.ts:67-116 | after a creation, the same user and category are blocked |
| TicketStore.ValidCategoriesMatchTable | src/app/api/tickets/route.ts:62-89 | the valid categories are the catalogue's ids in order, and the conflict labels are the catalogue's names |
| TicketStore.NewerFirstIsTotalPreorder | src/app/api/tickets/route.ts:33 | "updated later first" is a total preorder |
| TicketStore.ListIsTheUsersTickets | src/app/api/tickets/route.ts:19-34 | every listed ticket is the user's, has the requested status and is stored |
| TicketStore.ListIsComplete | src/app/api/tickets/route.ts:19-34 | every stored ticket of the user with the requested status is listed |
| TicketStore.ListIsNewestFirst | src/app/api/tickets/route.ts:33 | the list is ordered by update time, newest first |
| AdminTickets.Visible | src/app/api/admin/tickets/route.ts:53-56 | keeps exactly the tickets whose category the role may access; nothing for an unknown role |
| AdminTickets.Get | src/app/api/admin/tickets/route.ts:9-58 | 401 iff no session; every listed ticket matches the query and is accessible, and every accessible ticket of the query is listed |
| AdminTickets.VisibleIsExact | src/app/api/admin/tickets/route.ts:54-56 | each ticket keeps its multiplicity when accessible and disappears otherwise |
| AdminTickets.VisibleKeepsQueryOrder | src/app/api/admin/tickets/route.ts:47-56 | any order of the query result is preserved |
| AdminTickets.VisibleDistributes | src/app/api/admin/tickets/route.ts:54-56 | filtering distributes over concatenation |
| AdminTickets.VisibleIgnoresOrder | src/app/api/admin/tickets/route.ts:54-56 | permuting the query result permutes the answer only |
| FlaggedTickets.ToEntry | src/app/api/admin/tickets/flagged/route.ts:46-52 | an entry carries the ticket and the flag's author, target role, message and time |
| FlaggedTickets.Queue | src/app/api/admin/tickets/flagged/route.ts:44-52 | the queue has at most one entry per flag and every entry is on a ticket the role may access |
| FlaggedTickets.Get | src/app/api/admin/tickets/flagged/route.ts:6-54 | 401 iff no session; every entry is addressed to the caller's role and on an accessible ticket, and every flag on an accessible ticket has its entry |
| FlaggedTickets.EntryComesFromFlag | src/app/api/admin/tickets/flagged/route.ts:44-52 | every entry comes from a flag of the query on an accessible ticket |
| FlaggedTickets.AccessibleFlagsAreListed | src/app/api/admin/tickets/flagged/route.ts:44-52 | every flag on an accessible ticket has its entry |
| FlaggedTickets.OneEntryPerAccessibleFlag | src/app/api/admin/tickets/flagged/route.ts:44-52 | the queue is the flags minus those on inaccessible tickets |
| FlaggedTickets.QueueIsNewestFirst | src/app/api/admin/tickets/flagged/route.ts:40-52 | newest-first flags give a newest-first queue |
| StaffList.Others | src/app/api/admin/staff/route.ts:26 | drops exactly the rows with the caller's id |
| StaffList.Get | src/app/api/admin/staff/route.ts:6-28 | 401 iff no session; every row is an active staff member other than the caller, and every other staff member of the query is listed |
| StaffList.OthersKeepNameOrder | src/app/api/admin/staff/route.ts:22-26 | the name order of the query is kept |
| StaffList.AtMostOneCaller | src/app/api/admin/staff/route.ts:26 | with unique ids at most one row is the caller |
| StaffList.NoCaller | src/app/api/admin/staff/route.ts:26 | without the caller nothing is removed |
| StaffList.OthersDropAtMostOne | src/app/api/admin/staff/route.ts:14-26 | with unique ids the list loses at most one row |
| Transcript.StatusInfoOf | src/lib/export-transcript.ts:14-23 | a known status gets its label and color; an unknown one its own name and '#EAF207' |
| Transcript.NewlinesToBr | src/lib/export-transcript.ts:39 | the result has no newline, is unchanged without newlines, and grows by three per newline |
| Transcript.UrlEnd | src/lib/export-transcript.ts:40 | the lazy `(.*?)\)` match ends at the first ')' not preceded by a line terminator, and fails when every later ')' is |
| Transcript.NoMarkerUnchanged | src/lib/export-transcript.ts:40 | text without an `[imagem](` marker is unchanged |
| Transcript.MarkerBecomesAnchor | src/lib/export-transcript.ts:40 | a marker with a clean url becomes the anchor to that url, and the rest is processed on |
| Transcript.UrlEndAfterCleanRun | src/lib/export-transcript.ts:40 | the url ends at the first ')' after a run without ')' or line terminators |
| Transcript.ReplaceAddsNoNewline | src/lib/export-transcript.ts:40 | marker replacement introduces no newline |
| Transcript.AnchorHasNoNewline | src/lib/export-transcript.ts:40 | the anchor of a newline-free url has no newline |
| Transcript.FormatMessageContent | src/lib/export-transcript.ts:36-41 | formatted content holds no line feed, and text without line feeds or image markers comes back unchanged |
| Transcript.AvatarUrl | src/lib/export-transcript.ts:345-349 | no avatar for system messages; the staff avatar when a staff member wrote; otherwise the user's |
| Transcript.Author | src/lib/export-transcript.ts:339-343 | 'Sistema' for system messages, else the staff name and role, else the user's display name, else their username, else the fallback; never empty |
| Transcript.MessageClass | src/lib/export-transcript.ts:351-355 | message-system iff system; message-staff iff not system and staff present; otherwise message-user |
| Transcript.RenderAttachment | src/lib/export-transcript.ts:373-379 | an attachment renders as an image iff its MIME type starts with 'image/', otherwise as a link |
| Transcript.AvatarChoice | src/lib/export-transcript.ts:345-364 | the avatar image shows iff the chosen avatar URL is non-empty; otherwise the upper-cased initial of the author |
| Transcript.InfoItems | src/lib/export-transcript.ts:312-329 | four to seven items: category, opener (display name else username), Discord id and opening date first |
| Transcript.RenderMessage | src/lib/export-transcript.ts:336-384 | a block carries the message's author, class and formatted time, content without line feeds, and an attachment section iff there are attachments |
| Transcript.OptionalItemsIffFieldsSet | src/lib/export-transcript.ts:312-329 | the attendant, closed-at and closing-reason items appear iff the field is set |
| Transcript.RenderMessagesBlockwise | src/lib/export-transcript.ts:336-384 | one rendered block per message, each the rendering of its message |
| Transcript.OneBlockPerMessage | src/lib/export-transcript.ts:334-384 | the document has one block per message in input order, and the heading's number reads back as the message count |
| Transcript.GenerateTranscript | src/lib/export-transcript.ts:21-394 | the title is built from the ticket number line, the badge is the status's label and color, the subject, info grid and footer are the ticket's, and there is one block per message |
| Transcript.HeaderEmoji | src/lib/export-transcript.ts:287 | the header emoji is the category's, or the fallback for an unknown category |
| ExportAll.StatusFilterOf | src/app/api/admin/tickets/export-all/route.ts:19-30 | 'abertos' and 'fechados' select their filters and nothing else does |
| ExportAll.StatusFilterMeaning | src/app/api/admin/tickets/export-all/route.ts:19-30 | abertos keeps exactly non-FECHADO tickets, fechados exactly FECHADO, anything else every status, labelled 'todos' |
| ExportAll.StatusLabel | src/app/api/admin/tickets/export-all/route.ts:92 | the label is one of abertos, fechados, todos |
| ExportAll.SlugChar | src/app/api/admin/tickets/export-all/route.ts:84 | ASCII letters and digits are lower-cased, every other character becomes '-' |
| ExportAll.Sanitize | src/app/api/admin/tickets/export-all/route.ts:84 | the replacement maps each character independently and keeps the length |
| ExportAll.Slug | src/app/api/admin/tickets/export-all/route.ts:84 | the slug has length min(50, subject length) and only [a-z0-9-] |
| ExportAll.EntryNamesDistinct | src/app/api/admin/tickets/export-all/route.ts:84 | tickets with different numbers get different entry names, whatever their subjects |
| ExportAll.BuildArchive | src/app/api/admin/tickets/export-all/route.ts:82-86 | one entry per ticket, in order, named from the ticket and holding its transcript |
| ExportAll.Export | src/app/api/admin/tickets/export-all/route.ts:9-93 | 401 without session, 404 for an empty selection, and with a session and a non-empty selection always the archive named after the label and date with one entry per accessible ticket and pairwise distinct entry names |
| DiscordEmbeds.MessagePreview | src/lib/discord.ts:84 | the first 200 characters of the message, or 'Clique para ver' when absent or empty |
| DiscordEmbeds.FieldCountsAndColors | src/lib/discord.ts:76-118 | 5, 4 and 3 fields and colors 0xeaf207, 0xff6b6b, 0xffa500 for new message, closed and updated |
| DiscordEmbeds.TicketFieldFirst | src/lib/discord.ts:81-112 | every kind starts with the inline 'Ticket' field '#n', from which n reads back |
| DiscordEmbeds.MessageFieldIsPreview | src/lib/discord.ts:84 | the 'Mensagem' field is non-empty, at most 200 characters, and a prefix of a non-empty message |
| DiscordEmbeds.ClosedByField | src/lib/discord.ts:99 | 'Fechado por' is the staff name, or 'Staff' when absent or empty |
| DiscordEmbeds.RatingLinkIgnoresTicketUrl | src/lib/discord.ts:72-100 | the closed embed does not depend on the ticket URL; its rating link is the base URL plus '/avaliar' |
| DiscordEmbeds.CreateTicketNotificationEmbed | src/lib/discord.ts:61-123 | every kind carries the given timestamp and at least three fields, the first being '#n'; the closed embed has the thanks footer and the others the system footer and end with the link to the ticket's URL |
| Upload.Validate | src/app/api/upload/route.ts:14-48 | the first failing check in the order auth, file, type, size decides the rejection; none iff all pass |
| Upload.AttachmentStore.Upload | src/app/api/upload/route.ts:8-108 | rejections and host failures return without a row; with a link, a row is recorded iff a message id is given, otherwise the metadata is returned |
| Upload.LimitIsInclusive | src/app/api/upload/route.ts:42-48 | exactly 10 MiB passes and one byte more is too large |
| Upload.AcceptedFilesAreSmallImages | src/app/api/upload/route.ts:14-48 | an accepted file is an image of at most 10 MiB; rejections are 400 or 401 |
| Interactions.Handle | src/app/api/discord/interactions/route.ts:9-69 | the command with type 2 gives a type-4 message with one embed, type 1 a pong, everything else 400 |
| Interactions.OtherRequestsRefused | src/app/api/discord/interactions/route.ts:9-69 | any other type, and type 2 with another command, give 400 |
| Interactions.CommandEmbed | src/app/api/discord/interactions/route.ts:13-57 | the description is built on NEXT_PUBLIC_APP_URL, or on the deployed URL when it is unset or empty; the color, logo, footer icon and timestamp are fixed as in the route |
| Interactions.DescriptionLinksToTickets | src/app/api/discord/interactions/route.ts:13-40 | the embed's description contains `<baseUrl>/tickets` at two distinct places |

## Left out

- **Network and I/O.** None of these are modelled; their outcomes are
  parameters:
  - Discord REST calls (`sendDiscordDM`, the guild-member fetch).
  - The Imgur upload and the ImgBB key route.
  - The `archiver` zip stream.
  - Session and JWT handling, and the Ed25519 signature check.
- **Database persistence.** Only `TicketStore.Store` and
  `Upload.AttachmentStore` hold state. Every other query result is an input
  sequence constrained by its `where` and `orderBy`.
- **Exception handler.** The catch-all 500 of every route ('Erro interno',
  and 'Erro no upload' for the upload route) is not modelled. Besides I/O
  failures it also catches the database's rejection of an invalid enum
  value in a query, listed per member below.
- Upload.AttachmentStore.Upload: two failures that end in the upload
  route's catch-all 500 are not modelled: an ok reply from the image host
  whose body is not JSON, and a failing `prisma.attachment.create`. The
  host reply is given already parsed, and the store always accepts the
  row.
- **Lifecycle handlers.** Status transitions on message send, closing,
  category change, assignment and flag creation or resolution are handled
  by routes outside this core.
- **String model.** Strings are sequences of Unicode scalar values, not
  UTF-16 code units. `substring(0, 50)`, `substring(0, 200)` and the slug's
  per-unit replacement therefore differ from the model on text outside the
  Basic Multilingual Plane.
- **Upper-casing.** `toUpperCase` is modelled on ASCII letters only
  (`AsciiUpper`).
- **Name ordering.** `localeCompare` is plain lexicographic order on
  characters, without locale collation.
- **Dates.** `toLocaleString` and `toISOString` are parameters
  (`formatDate`, `timestamp`, `today`), and `new Date()` is a clock
  parameter.
- **Live Corretor check.** `hasCorretorRole` is not defined in the code this
  model covers; its answer is the `hasCorretor` parameter.
- Transcript.GenerateTranscript: builds a structured document, not the HTML
  text. It does not reproduce the stylesheet, the template whitespace or
  HTML escaping (the source does none).
- AdminTickets.Get: the query's ordering by the status enum is not
  modelled, because the enum's declaration order is not in the code this
  model covers. `VisibleKeepsQueryOrder` holds for any order the query uses.
- AdminTickets.Get, FlaggedTickets.Get and TicketStore.Store.List: the
  included relations (user, assignee, last message) are not part of the
  returned tickets.
- TicketStore.Store.List: the order of tickets updated at the same instant
  is not modelled. The database gives no order for ties, so the list is
  stated up to permutation and then proved sorted.
- TicketStore.Store.Create: the ticket's `id` is its position plus one,
  where the database's `cuid()` gives fresh unique strings. The creation
  race between two concurrent requests is not modelled, since handlers run
  one at a time.
- ExportAll.Export: requires strictly increasing ticket numbers, because
  ticket numbers are sequential and therefore unique.
- Permissions.CanAccessCategory: does not model the prototype properties of
  the JavaScript object (a role named `constructor` or `toString`).
- DiscordRoles.GetHighestRole: does not model the prototype properties of
  `DISCORD_ROLE_MAP`. In JavaScript `getHighestRole(['constructor'])` is
  non-null, because the lookup finds the inherited constructor, while
  `hasAllowedRole` is false. Discord role ids are numeric snowflakes, so no
  real id is such a key.
- DiscordRoles.AllowedIffResolved: holds only for ids that are not
  `Object.prototype` property names, for the reason given for
  `GetHighestRole`.
- TicketStore.Store.List: a `status` query value outside the four ticket
  statuses makes the database reject the query and the route answer 500.
  The model compares the value like any other and answers with the list
  of the user's tickets having that status, which is empty for tickets
  with valid statuses.
- AdminTickets.Get: a `status` or `category` query value outside its
  enumeration makes the database reject the query and the route answer 500.
  The model compares the value like any other, so no ticket with a valid
  status or category matches it, and answers with the filtered list.
- DiscordEmbeds.CreateTicketNotificationEmbed: the `default` branch that
  returns `{}` is unreachable for the three declared kinds.
