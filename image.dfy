/**
 * The image endpoint: `GET /image/<id>?img_type=png|jpg|svg` asks the
 * generator for the record's QR image and wraps the bytes in a response
 * whose content type follows the requested format.
 */
module ImageApi {
  import opened Wrappers
  import opened Uuids
  import QrCodeService

  const NoQrCodeMessage := "No qr code could be found for this id."
  const InternalErrorMessage := "Could not retrieve qr code information, because of an internal error."
  const InlineDisposition := "inline"

  /** The `img_type` query parameter (written in lower case on the wire). */
  datatype ImageType = Png | Jpg | Svg

  datatype ImageResponse =
    | Png(data: seq<byte>)
    | Jpg(data: seq<byte>)
    | Svg(data: seq<byte>, contentDisposition: string)
    | NotFound(message: string)
    | InternalError(message: string)
  {
    function Status(): int {
      match this
      case Png(_) => 200
      case Jpg(_) => 200
      case Svg(_, _) => 200
      case NotFound(_) => 404
      case InternalError(_) => 500
    }

    function ContentType(): Option<string> {
      match this
      case Png(_) => Some("image/png")
      case Jpg(_) => Some("image/jpg")
      case Svg(_, _) => Some("image/svg+xml")
      case _ => None
    }
  }

  /** The content type of a successful response for a requested type. */
  function MediaType(t: ImageType): string {
    match t
    case Png => "image/png"
    case Jpg => "image/jpg"
    case Svg => "image/svg+xml"
  }

  /** The generator format for a requested type: each format keeps its name. */
  function IntoQrImageType(t: ImageType): (q: QrCodeService.QrImageType)
    ensures q.Png? <==> t.Png?
    ensures q.Jpg? <==> t.Jpg?
    ensures q.Svg? <==> t.Svg?
  {
    match t
    case Png => QrCodeService.QrImageType.Png
    case Jpg => QrCodeService.QrImageType.Jpg
    case Svg => QrCodeService.QrImageType.Svg
  }

  /** No two requested types reach the generator as the same format. */
  lemma IntoQrImageTypeInjective(a: ImageType, b: ImageType)
    ensures IntoQrImageType(a) == IntoQrImageType(b) ==> a == b
  {
  }

  /**
   * The response for the generator's outcome: the bytes, untouched, in the
   * variant of the requested type (SVG shown inline); 404 for an unknown
   * id and 500 for any generator error, whatever the type.
   */
  function ResponseFor(generated: Result<Option<seq<byte>>, QrCodeService.QrGeneratorError>, imgType: ImageType): (r: ImageResponse)
    ensures r.Status() == 200 <==> generated.Success? && generated.value.Some?
    ensures generated.Success? && generated.value.Some? ==>
      && r.data == generated.value.value
      && (r.Png? <==> imgType.Png?)
      && (r.Jpg? <==> imgType.Jpg?)
      && (r.Svg? <==> imgType.Svg?)
    ensures r.Svg? ==> r.contentDisposition == InlineDisposition
    ensures r.Status() == 200 ==> r.ContentType() == Some(MediaType(imgType))
    ensures r.Status() != 200 ==> r.ContentType() == None
    ensures generated == Success(None) ==> r == NotFound(NoQrCodeMessage)
    ensures generated.Failure? ==> r == InternalError(InternalErrorMessage)
  {
    match generated
    case Success(Some(data)) =>
      (match imgType
       case Png => ImageResponse.Png(data)
       case Jpg => ImageResponse.Jpg(data)
       case Svg => ImageResponse.Svg(data, InlineDisposition))
    case Success(None) => NotFound(NoQrCodeMessage)
    case Failure(_) => InternalError(InternalErrorMessage)
  }

  /**
   * The handler: generate the image of record `id` in the requested format
   * and answer with it. An unknown id is 404 and a storage error 500, for
   * every format; otherwise the bytes are those of the redirect payload for
   * `id` rendered in that format.
   */
  method GetImage<S>(generator: QrCodeService.QrCodeGenerator, id: Uuid, imgType: ImageType,
                     fault: QrCodeService.Fault, codec: QrCodeService.Codec<S>)
    returns (r: ImageResponse)
    requires generator.database.Valid()
    ensures fault.FindFails? ==> r == InternalError(InternalErrorMessage)
    ensures !fault.FindFails? && id !in generator.database.rows ==> r == NotFound(NoQrCodeMessage)
    ensures !fault.FindFails? && id in generator.database.rows ==>
      var rendered := QrCodeService.Pipeline(codec, QrCodeService.RedirectPayload(generator.serverUrl, id), IntoQrImageType(imgType));
      && (rendered.Failure? ==> r == InternalError(InternalErrorMessage))
      && (rendered.Success? ==> r.Status() == 200 && r.data == rendered.value)
      && (rendered.Success? ==> ((r.Png? <==> imgType.Png?) && (r.Jpg? <==> imgType.Jpg?) && (r.Svg? <==> imgType.Svg?)))
  {
    var generated := generator.Generate(id, IntoQrImageType(imgType), fault, codec);
    r := ResponseFor(generated, imgType);
  }
}
