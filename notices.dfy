/** The records the relay reads: the notice, its attachments and the user's Foreign_link. */
module Notices {
  import opened Options

  /** A File (or its enclosure) as `getFacebookMedia` sees it. */
  datatype File = File(mimetype: string, url: string)

  /** A notice attachment: a File with a title and, possibly, a resolved enclosure. */
  datatype Attachment = Attachment(mimetype: string, url: string, title: string, enclosure: Option<File>)

  /** A local notice; `source` names the client that created it. */
  datatype Notice = Notice(id: int, content: string, source: string, attachments: seq<Attachment>)

  /**
   * The Foreign_link binding a local user to a Facebook account. `credentials` is the
   * OAuth access token ("" for users of the old Canvas application); `noticesync` is the
   * bitmask of sync preferences, a PHP integer (64 bits).
   */
  datatype ForeignLink = ForeignLink(userId: int, foreignId: string, credentials: string, noticesync: bv64)

  /** A FacebookApiException: its `getCode()` and `getMessage()`. */
  datatype FacebookError = FacebookError(code: int, message: string)

  /** The File whose type decides an attachment's media entry: its enclosure if it has one. */
  function MediaSource(a: Attachment): File {
    match a.enclosure
    case Some(e) => e
    case None => File(a.mimetype, a.url)
  }
}
