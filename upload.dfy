/** `POST /api/upload` (`src/app/api/upload/route.ts`): an image upload by a
    user or a staff member. The request passes four checks in a fixed order
    (authentication, presence of a file, image type, size); only then is the
    image sent to the image host, whose reply is an input here, and the
    attachment is recorded against a message when the request names one. */
module Upload {
  import opened Base
  import opened Model

  /** The `file` form field. */
  datatype UploadedFile = UploadedFile(name: string, mimeType: string, size: nat)

  /** What the image host answered: whether the request succeeded, and the
      `data.link` of its body. */
  datatype HostReply = HostReply(ok: bool, link: Option<string>)

  datatype UploadResponse =
    | NotAuthenticated
    | NoFile
    | TypeNotAllowed
    | TooLarge
    | HostFailed
    | NoUrl
    | Recorded(attachment: Attachment)
    | Uploaded(url: string, filename: string, mimeType: string, size: int)

  function StatusCode(r: UploadResponse): int {
    match r
    case NotAuthenticated => 401
    case NoFile => 400
    case TypeNotAllowed => 400
    case TooLarge => 400
    case HostFailed => 500
    case NoUrl => 500
    case Recorded(_) => 200
    case Uploaded(_, _, _, _) => 200
  }

  const AllowedTypes := ["image/jpeg", "image/png", "image/gif", "image/webp"]

  /** 10 MB. */
  const MaxSize := 10 * 1024 * 1024

  /** The four checks, in order: the rejection of the first one that fails,
      or `None` when the request may go to the image host. */
  function Validate(userId: Option<string>, hasAdminSession: bool, file: Option<UploadedFile>): (rejection: Option<UploadResponse>)
    ensures rejection == Some(NotAuthenticated) <==> !Truthy(userId) && !hasAdminSession
    ensures rejection == Some(NoFile) <==> (Truthy(userId) || hasAdminSession) && file.None?
    ensures rejection == Some(TypeNotAllowed) <==>
      (Truthy(userId) || hasAdminSession) && file.Some? && file.value.mimeType !in AllowedTypes
    ensures rejection == Some(TooLarge) <==>
      (Truthy(userId) || hasAdminSession) && file.Some? && file.value.mimeType in AllowedTypes && file.value.size > MaxSize
    ensures rejection.None? <==>
      (Truthy(userId) || hasAdminSession) && file.Some? && file.value.mimeType in AllowedTypes && file.value.size <= MaxSize
  {
    if !Truthy(userId) && !hasAdminSession then Some(NotAuthenticated)
    else if file.None? then Some(NoFile)
    else if file.value.mimeType !in AllowedTypes then Some(TypeNotAllowed)
    else if file.value.size > MaxSize then Some(TooLarge)
    else None
  }

  /** The `Attachment` table. */
  class AttachmentStore {
    var attachments: seq<Attachment>

    constructor ()
      ensures attachments == []
    {
      attachments := [];
    }

    /** The handler. `userId` is the user session's id, `hasAdminSession`
        whether a staff session exists, and `host` the image host's reply. A
        row is added only when every check passed, the host returned a link
        and the request named a message. */
    method Upload(userId: Option<string>, hasAdminSession: bool, file: Option<UploadedFile>,
                  messageId: Option<string>, host: HostReply)
      returns (r: UploadResponse)
      modifies this
      ensures Validate(userId, hasAdminSession, file).Some? ==> r == Validate(userId, hasAdminSession, file).value
      ensures Validate(userId, hasAdminSession, file).None? && !host.ok ==> r == HostFailed
      ensures Validate(userId, hasAdminSession, file).None? && host.ok && !Truthy(host.link) ==> r == NoUrl
      ensures Validate(userId, hasAdminSession, file).None? && host.ok && Truthy(host.link) && Truthy(messageId) ==>
        r == Recorded(Attachment(file.value.name, host.link.value, file.value.mimeType, file.value.size, messageId.value))
      ensures Validate(userId, hasAdminSession, file).None? && host.ok && Truthy(host.link) && !Truthy(messageId) ==>
        r == Uploaded(host.link.value, file.value.name, file.value.mimeType, file.value.size)
      ensures r.Recorded? ==> attachments == old(attachments) + [r.attachment]
      ensures !r.Recorded? ==> attachments == old(attachments)
    {
      var rejection := Validate(userId, hasAdminSession, file);
      if rejection.Some? {
        return rejection.value;
      }
      if !host.ok {
        return HostFailed;
      }
      if !Truthy(host.link) {
        return NoUrl;
      }
      var url := host.link.value;
      var f := file.value;
      if Truthy(messageId) {
        var attachment := Attachment(f.name, url, f.mimeType, f.size, messageId.value);
        attachments := attachments + [attachment];
        return Recorded(attachment);
      }
      r := Uploaded(url, f.name, f.mimeType, f.size);
    }
  }

  /** The limit is inclusive: a file of exactly 10 MiB passes, one byte more
      does not. */
  lemma LimitIsInclusive(userId: Option<string>, hasAdminSession: bool, name: string, mimeType: string)
    requires Truthy(userId) || hasAdminSession
    requires mimeType in AllowedTypes
    ensures Validate(userId, hasAdminSession, Some(UploadedFile(name, mimeType, 10485760))).None?
    ensures Validate(userId, hasAdminSession, Some(UploadedFile(name, mimeType, 10485761))) == Some(TooLarge)
  {
  }

  /** A file the checks let through is an image of at most 10 MiB, and each
      rejection they give is a 400 or a 401. */
  lemma AcceptedFilesAreSmallImages(userId: Option<string>, hasAdminSession: bool, file: Option<UploadedFile>)
    ensures Validate(userId, hasAdminSession, file).None? ==>
      file.Some? && StartsWith(file.value.mimeType, "image/") && file.value.size <= 10485760
    ensures Validate(userId, hasAdminSession, file).Some? ==>
      StatusCode(Validate(userId, hasAdminSession, file).value) in {400, 401}
  {
  }
}
