/**
 * The QR-code service crate: the record of one shortened link, the link
 * registry (`QrCodeDatabase`) that creates, reads, updates and deletes
 * records behind a passphrase check, and the generator that turns a
 * record's id into a QR image.
 *
 * The relational table is the map `rows`, keyed by primary key. Every
 * call takes a `Fault` saying which of its storage round trips, if any,
 * the connection fails on; the clock and the UUID generator are
 * parameters; the QR encoder and the image encoders are the function
 * values of a `Codec`.
 */
module QrCodeService {
  import opened Wrappers
  import opened Uuids

  /** A point in time as the service clock reports it (microseconds since the epoch). */
  type Timestamp = int

  /** An absolute URL, represented by its serialisation (what `to_string` returns). */
  datatype Url = Url(serialization: string) {
    function ToString(): string { serialization }
  }

  /** Why a string is not an absolute URL. */
  datatype UrlError = UrlError(reason: string)

  /** A failed storage operation. */
  datatype DbErr =
    | StorageFailure(message: string)
    | KeyConflict  // an insert whose primary key is already taken

  /** Which storage round trip of one call, if any, fails; a fault on a round trip the call does not make has no effect. */
  datatype Fault = NoFault | FindFails(err: DbErr) | WriteFails(err: DbErr)

  /** One row of the `qr_code` table. */
  datatype QrCode = QrCode(
    id: Uuid,
    link: string,
    passphrase: string,
    createdAt: Timestamp,
    modifiedAt: Option<Timestamp>)

  /** The passphrase every new record receives. */
  const InitialPassphrase := "TestPwd"

  /** A caller may change a record only by presenting exactly its stored passphrase. */
  predicate Authorized(rows: map<Uuid, QrCode>, id: Uuid, passphrase: string) {
    id in rows && rows[id].passphrase == passphrase
  }

  /** Every row is stored under its own id. */
  ghost predicate Keyed(rows: map<Uuid, QrCode>) {
    forall k :: k in rows ==> rows[k].id == k
  }

  /** No surviving record has a different id, passphrase or creation time than before. */
  ghost predicate KeepsIdentity(before: map<Uuid, QrCode>, after: map<Uuid, QrCode>) {
    forall k :: k in before && k in after ==>
      && after[k].id == before[k].id
      && after[k].passphrase == before[k].passphrase
      && after[k].createdAt == before[k].createdAt
  }

  /** The only existing record that changed or vanished is `id`, and the caller presented its passphrase. */
  ghost predicate OnlyAuthorizedChange(before: map<Uuid, QrCode>, after: map<Uuid, QrCode>, id: Uuid, passphrase: string) {
    forall k :: k in before && (k !in after || after[k] != before[k]) ==> k == id && Authorized(before, id, passphrase)
  }

  /** The link registry. */
  class QrCodeDatabase {
    var rows: map<Uuid, QrCode>

    ghost predicate Valid()
      reads this
    {
      Keyed(rows)
    }

    /** A registry over an existing table. */
    constructor (table: map<Uuid, QrCode>)
      requires Keyed(table)
      ensures Valid() && rows == table
    {
      rows := table;
    }

    /** Looks a record up by id; an absent id is `None`, not an error. */
    function Get(id: Uuid, fault: Fault): (r: Result<Option<QrCode>, DbErr>)
      reads this
      ensures r.Failure? <==> fault.FindFails?
      ensures r.Failure? ==> r.error == fault.err
      ensures r.Success? ==> (r.value.Some? <==> id in rows)
      ensures r.Success? && r.value.Some? ==> r.value.value == rows[id]
    {
      if fault.FindFails? then Failure(fault.err)
      else if id in rows then Success(Some(rows[id]))
      else Success(None)
    }

    /**
     * Inserts a new record for `link` under `newId` (the freshly drawn UUID),
     * created at `now`, with the initial passphrase and no modification time.
     */
    method Create(link: Url, newId: Uuid, now: Timestamp, fault: Fault) returns (r: Result<QrCode, DbErr>)
      requires Valid()
      modifies this
      ensures Valid()
      ensures KeepsIdentity(old(rows), rows)
      ensures old(rows).Keys <= rows.Keys
      ensures forall k :: k in old(rows) ==> rows[k] == old(rows)[k]
      ensures fault.WriteFails? ==> r == Failure(fault.err) && rows == old(rows)
      ensures !fault.WriteFails? && newId in old(rows) ==> r == Failure(KeyConflict) && rows == old(rows)
      ensures !fault.WriteFails? && newId !in old(rows) ==>
        && r == Success(QrCode(newId, link.ToString(), InitialPassphrase, now, None))
        && rows == old(rows)[newId := r.value]
        && |rows| == |old(rows)| + 1
    {
      var qrCode := QrCode(newId, link.ToString(), InitialPassphrase, now, None);
      if fault.WriteFails? {
        return Failure(fault.err);
      }
      if newId in rows {
        return Failure(KeyConflict);
      }
      rows := rows[newId := qrCode];
      return Success(qrCode);
    }

    /**
     * Replaces the link of record `id` and stamps it modified at `now`, if
     * `passphrase` is its stored passphrase. An unknown id and a wrong
     * passphrase give the same `None`.
     */
    method Update(id: Uuid, passphrase: string, link: Url, now: Timestamp, fault: Fault) returns (r: Result<Option<QrCode>, DbErr>)
      requires Valid()
      modifies this
      ensures Valid()
      ensures rows.Keys == old(rows).Keys
      ensures KeepsIdentity(old(rows), rows)
      ensures OnlyAuthorizedChange(old(rows), rows, id, passphrase)
      ensures fault.FindFails? ==> r == Failure(fault.err) && rows == old(rows)
      ensures !fault.FindFails? && id !in old(rows) ==> r == Success(None) && rows == old(rows)
      ensures !fault.FindFails? && id in old(rows) && old(rows)[id].passphrase != passphrase ==>
        r == Success(None) && rows == old(rows)
      ensures fault.WriteFails? && Authorized(old(rows), id, passphrase) ==>
        r == Failure(fault.err) && rows == old(rows)
      ensures fault == NoFault && Authorized(old(rows), id, passphrase) ==>
        var updated := old(rows)[id].(link := link.ToString(), modifiedAt := Some(now));
        r == Success(Some(updated)) && rows == old(rows)[id := updated]
    {
      var found := Get(id, fault);
      if found.Failure? {
        return Failure(found.error);
      }
      if found.value.None? {
        return Success(None);
      }
      var qrCode := found.value.value;
      if qrCode.passphrase != passphrase {
        return Success(None);
      }
      var active := qrCode.(link := link.ToString(), modifiedAt := Some(now));
      if fault.WriteFails? {
        return Failure(fault.err);
      }
      rows := rows[active.id := active];
      return Success(Some(active));
    }

    /**
     * Removes record `id` if `passphrase` is its stored passphrase and
     * returns it as it was; an unknown id and a wrong passphrase give the
     * same `None`.
     */
    method Delete(id: Uuid, passphrase: string, fault: Fault) returns (r: Result<Option<QrCode>, DbErr>)
      requires Valid()
      modifies this
      ensures Valid()
      ensures rows.Keys <= old(rows).Keys
      ensures KeepsIdentity(old(rows), rows)
      ensures OnlyAuthorizedChange(old(rows), rows, id, passphrase)
      ensures fault.FindFails? ==> r == Failure(fault.err) && rows == old(rows)
      ensures !fault.FindFails? && id !in old(rows) ==> r == Success(None) && rows == old(rows)
      ensures !fault.FindFails? && id in old(rows) && old(rows)[id].passphrase != passphrase ==>
        r == Success(None) && rows == old(rows)
      ensures fault.WriteFails? && Authorized(old(rows), id, passphrase) ==>
        r == Failure(fault.err) && rows == old(rows)
      ensures fault == NoFault && Authorized(old(rows), id, passphrase) ==>
        && r == Success(Some(old(rows)[id]))
        && rows == old(rows) - {id}
        && |rows| == |old(rows)| - 1
    {
      var found := Get(id, fault);
      if found.Failure? {
        return Failure(found.error);
      }
      if found.value.None? {
        return Success(None);
      }
      var qrCode := found.value.value;
      if qrCode.passphrase != passphrase {
        return Success(None);
      }
      if fault.WriteFails? {
        return Failure(fault.err);
      }
      rows := rows - {id};
      return Success(Some(qrCode));
    }
  }

  /**
   * One link's life as a client sees it: create it, read it, fail to
   * update it with a wrong passphrase (it reads back unchanged), delete it
   * with the right one, and find it gone.
   */
  method Lifecycle(database: QrCodeDatabase, link: Url, newLink: Url, newId: Uuid, t0: Timestamp, t1: Timestamp, wrong: string)
    returns (created: Result<QrCode, DbErr>, read: Result<Option<QrCode>, DbErr>,
             refused: Result<Option<QrCode>, DbErr>, reread: Result<Option<QrCode>, DbErr>,
             deleted: Result<Option<QrCode>, DbErr>, gone: Result<Option<QrCode>, DbErr>)
    requires database.Valid() && newId !in database.rows && wrong != InitialPassphrase
    modifies database
    ensures created.Success? && created.value.id == newId && created.value.link == link.ToString()
    ensures read == Success(Some(created.value))
    ensures refused == Success(None) && reread == read
    ensures deleted == Success(Some(created.value))
    ensures gone == Success(None)
    ensures database.rows == old(database.rows)
  {
    created := database.Create(link, newId, t0, NoFault);
    read := database.Get(newId, NoFault);
    refused := database.Update(newId, wrong, newLink, t1, NoFault);
    reread := database.Get(newId, NoFault);
    deleted := database.Delete(newId, InitialPassphrase, NoFault);
    gone := database.Get(newId, NoFault);
  }

  /** The output formats of the generator. */
  datatype QrImageType = Png | Jpg | Svg

  /** Why the QR encoder rejected a payload (for instance: too long for any symbol version). */
  datatype EncodingError = EncodingError(reason: string)

  /** Why an image encoder could not write its output. */
  datatype ImagingError = ImagingError(reason: string)

  datatype QrGeneratorError =
    | QrError(encoding: EncodingError)
    | ImageError(imaging: ImagingError)
    | DataBaseError(db: DbErr)

  /**
   * The QR encoder and the three renderers, which the model does not look
   * into: `encode` builds a symbol of type `S` from a payload; `png` and
   * `jpg` rasterise it as a grayscale bitmap and encode that; `svg` renders
   * it as an SVG document (at least 200 by 200, black on white) and yields
   * its bytes.
   */
  datatype Codec<!S> = Codec(
    encode: string -> Result<S, EncodingError>,
    png: S -> Result<seq<byte>, ImagingError>,
    jpg: S -> Result<seq<byte>, ImagingError>,
    svg: S -> seq<byte>)

  const RedirectPath := "/redirect?id="

  /**
   * The text a record's QR symbol encodes: the service's own redirect URL
   * for the record's id, never the stored link. Its tail is the id's text
   * form, which reads back as the same id.
   */
  function RedirectPayload(serverUrl: string, id: Uuid): (p: string)
    ensures |p| == |serverUrl| + |RedirectPath| + 36
    ensures p[..|serverUrl|] == serverUrl
    ensures p[|serverUrl|..|serverUrl| + |RedirectPath|] == RedirectPath
    ensures ParseHyphenated(p[|p| - 36..]) == Some(id)
  {
    var p := serverUrl + RedirectPath + Hyphenated(id);
    assert p[|p| - 36..] == Hyphenated(id);
    HyphenatedRoundTrip(id);
    p
  }

  /** Two records never share a QR payload. */
  lemma RedirectPayloadInjective(serverUrl: string, a: Uuid, b: Uuid)
    ensures RedirectPayload(serverUrl, a) == RedirectPayload(serverUrl, b) ==> a == b
  {
  }

  /** Encode the payload, then render it in the requested format. */
  function Pipeline<S>(codec: Codec<S>, payload: string, imageType: QrImageType): Result<seq<byte>, QrGeneratorError>
  {
    match codec.encode(payload)
    case Failure(e) => Failure(QrError(e))
    case Success(code) =>
      match imageType
      case Png => (match codec.png(code) case Success(b) => Success(b) case Failure(e) => Failure(ImageError(e)))
      case Jpg => (match codec.jpg(code) case Success(b) => Success(b) case Failure(e) => Failure(ImageError(e)))
      case Svg => Success(codec.svg(code))
  }

  /** Produces QR images for the records of a registry. */
  class QrCodeGenerator {
    const database: QrCodeDatabase
    const serverUrl: string

    constructor (database: QrCodeDatabase, serverUrl: string)
      ensures this.database == database && this.serverUrl == serverUrl
    {
      this.database := database;
      this.serverUrl := serverUrl;
    }

    /**
     * The image of record `id` in format `imageType`: `None` for an unknown
     * id; otherwise the payload handed to the encoder is the redirect URL
     * for `id`, so the result depends on the record only through its id.
     */
    method Generate<S>(id: Uuid, imageType: QrImageType, fault: Fault, codec: Codec<S>)
      returns (r: Result<Option<seq<byte>>, QrGeneratorError>)
      requires database.Valid()
      ensures fault.FindFails? ==> r == Failure(DataBaseError(fault.err))
      ensures !fault.FindFails? && id !in database.rows ==> r == Success(None)
      ensures !fault.FindFails? && id in database.rows ==>
        var rendered := Pipeline(codec, RedirectPayload(serverUrl, id), imageType);
        && (r.Success? <==> rendered.Success?)
        && (r.Success? ==> r.value == Some(rendered.value))
        && (r.Failure? ==> r.error == rendered.error)
    {
      var found := database.Get(id, fault);
      if found.Failure? {
        return Failure(DataBaseError(found.error));
      }
      if found.value.None? {
        return Success(None);
      }
      var qrCode := found.value.value;
      var code := codec.encode(RedirectPayload(serverUrl, qrCode.id));
      if code.Failure? {
        return Failure(QrError(code.error));
      }
      var pngBytes: seq<byte> := [];
      match imageType {
        case Png =>
          var written := codec.png(code.value);
          if written.Failure? {
            return Failure(ImageError(written.error));
          }
          pngBytes := written.value;
        case Jpg =>
          var written := codec.jpg(code.value);
          if written.Failure? {
            return Failure(ImageError(written.error));
          }
          pngBytes := written.value;
        case Svg =>
          pngBytes := codec.svg(code.value);
      }
      return Success(Some(pngBytes));
    }
  }
}
