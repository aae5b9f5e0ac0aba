/**
 * The redirect endpoint: `GET /redirect?id=<id>` looks the record up and
 * sends the client to its stored link. The outcome is decided by the
 * storage read and by whether the stored link parses as a URL; the URL
 * parser is a parameter of the model.
 */
module RedirectApi {
  import opened Wrappers
  import opened Uuids
  import opened QrCodeService

  const BrokenUrlMessage := "The redirect url is broken."
  const UnknownIdMessage := "The requested qr code id could not be found."
  const InternalErrorMessage := "The redirection failed because of an internal error."

  datatype RedirectResponse =
    | Redirect(location: Url)
    | NotFound(message: string)
    | DatabaseError(message: string)
    | InvalidUrl(message: string)
  {
    /** The HTTP status of the response. */
    function Status(): int {
      match this
      case Redirect(_) => 302
      case NotFound(_) => 404
      case DatabaseError(_) => 500
      case InvalidUrl(_) => 500
    }
  }

  /** What the server logs as an error while answering. */
  datatype LogEntry = MalformedUrl(parseError: UrlError) | StorageFailed(dbError: DbErr)

  /** A response together with the error line logged while producing it, if any. */
  datatype Handled = Handled(response: RedirectResponse, log: Option<LogEntry>)

  /**
   * The four-way decision on the storage read and the parse of the stored
   * link: a parsed link redirects, an unparsable one is a logged internal
   * error, an absent record is 404, and a storage error is a logged internal
   * error distinct from 404.
   */
  function Classify(lookup: Result<Option<QrCode>, DbErr>, parse: string -> Result<Url, UrlError>): (h: Handled)
    ensures h.response.Redirect? <==>
      lookup.Success? && lookup.value.Some? && parse(lookup.value.value.link).Success?
    ensures h.response.Redirect? ==> h.response.location == parse(lookup.value.value.link).value
    ensures h.response.InvalidUrl? <==>
      lookup.Success? && lookup.value.Some? && parse(lookup.value.value.link).Failure?
    ensures h.response.InvalidUrl? ==>
      h.response.message == BrokenUrlMessage && h.log == Some(MalformedUrl(parse(lookup.value.value.link).error))
    ensures h.response.NotFound? <==> lookup == Success(None)
    ensures h.response.NotFound? ==> h.response.message == UnknownIdMessage
    ensures h.response.DatabaseError? <==> lookup.Failure?
    ensures h.response.DatabaseError? ==>
      h.response.message == InternalErrorMessage && h.log == Some(StorageFailed(lookup.error))
    ensures h.log.Some? <==> h.response.Status() == 500
  {
    match lookup
    case Success(Some(qrCode)) =>
      (match parse(qrCode.link)
       case Success(url) => Handled(Redirect(url), None)
       case Failure(why) => Handled(InvalidUrl(BrokenUrlMessage), Some(MalformedUrl(why))))
    case Success(None) => Handled(NotFound(UnknownIdMessage), None)
    case Failure(why) => Handled(DatabaseError(InternalErrorMessage), Some(StorageFailed(why)))
  }

  /**
   * The handler: one read of the registry through `Get`, then the decision
   * above. Being a function, it cannot change the registry.
   */
  function Resolve(database: QrCodeDatabase, id: Uuid, fault: Fault, parse: string -> Result<Url, UrlError>): (h: Handled)
    reads database
    ensures fault.FindFails? ==> h.response.DatabaseError? && h.log == Some(StorageFailed(fault.err))
    ensures !fault.FindFails? && id !in database.rows ==> h == Handled(NotFound(UnknownIdMessage), None)
    ensures !fault.FindFails? && id in database.rows ==>
      match parse(database.rows[id].link)
      case Success(url) => h == Handled(Redirect(url), None)
      case Failure(why) => h == Handled(InvalidUrl(BrokenUrlMessage), Some(MalformedUrl(why)))
  {
    Classify(database.Get(id, fault), parse)
  }

  /**
   * A URL the parser produced reads back as itself from its serialisation.
   * A parser that rejects non-URLs meets this as well.
   */
  ghost predicate ReadsBackSerialization(parse: string -> Result<Url, UrlError>) {
    forall s, u :: parse(s) == Success(u) ==> parse(u.ToString()) == Success(u)
  }

  /**
   * A record whose stored link is the serialisation of a parsed URL `link`
   * (as `Create` and `Update` store it) redirects to exactly `link`.
   */
  lemma RedirectsToCreatedLink(database: QrCodeDatabase, id: Uuid, link: Url, typed: string,
                               parse: string -> Result<Url, UrlError>)
    requires ReadsBackSerialization(parse)
    requires parse(typed) == Success(link)
    requires id in database.rows && database.rows[id].link == link.ToString()
    ensures Resolve(database, id, NoFault, parse) == Handled(Redirect(link), None)
  {
  }
}
