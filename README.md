# QR link registry — a Dafny model

This project models the core of a URL-shortening service that also hands
out a scannable QR code for every shortened link. Three parts are modelled:

- **The link registry** (`QrCodeService.QrCodeDatabase`). It is a class whose
  `rows` map plays the `qr_code` table, keyed by id. `Create` inserts a record.
  `Get` reads one. `Update` and `Delete` first read the record, then compare
  the supplied passphrase with the stored one, then write. An unknown id and
  a wrong passphrase both give `Success(None)`, so a caller cannot tell them
  apart.
- **The QR generator** (`QrCodeService.QrCodeGenerator.Generate`). It looks the
  record up. An absent record is `None`. Otherwise it encodes the service's
  own redirect URL, `serverUrl + "/redirect?id=" + <id>`, and never the stored
  link. It then renders the symbol as PNG, JPEG or SVG. The id's text form is
  the hyphenated UUID form (`Uuids.Hyphenated`). Reading that form back gives
  the same id (`Uuids.HyphenatedRoundTrip`), so the payload names exactly one
  record.
- **The HTTP outcome logic.** The redirect endpoint (`RedirectApi`) decides
  among four responses: redirect, invalid stored URL, not found, and
  database error. The decision rests on the storage read and on whether the
  stored link parses. The image endpoint (`ImageApi`) maps the requested type
  onto the generator's format. It then picks the response from the
  generator's outcome.

Collaborators are parameters:

- The clock and the UUID generator become the `now` and `newId` arguments.
- The URL parser is a function argument `parse`.
- The QR encoder and the image encoders are the function fields of a `Codec`.
- A storage failure is a `Fault` argument. It names which round trip of the
  call fails: the find or the write.

Facts about the code that a reader might not expect:

- Every new record gets the passphrase `"TestPwd"`
  (service/src/qrcode.rs:109). No secret is generated, so anyone who knows
  that string passes the passphrase check of every record.
- `Get` returns the whole record, passphrase included. The registry strips
  nothing (service/src/qrcode.rs:119-125).
- `Create` takes an already parsed `Url`. URL validation happens before the
  registry is reached, so the registry has no validation error.
- `Update` does not enforce that `modifiedAt` never decreases. It stores
  whatever the clock says.

## Model

| member | source | states |
|---|---|---|
| `QrCodeService.QrCodeDatabase.constructor` | service/src/qrcode.rs:99-102 | a registry over an existing table in which every row is stored under its own id |
| `QrCodeService.QrCodeDatabase.Get` | service/src/qrcode.rs:119-125 | fails exactly when the find fails; otherwise `Some(r)` iff the id is in the table and `r` is its row, `None` iff it is absent; a function, so it changes nothing |
| `QrCodeService.QrCodeDatabase.Create` | service/src/qrcode.rs:105-117 | on success adds exactly one row under the fresh id, with the URL's serialisation as link, passphrase `"TestPwd"`, creation time `now` and no modification time; the table grows by one and every other row is unchanged; a failed insert or a taken key leaves the table unchanged |
| `QrCodeService.QrCodeDatabase.Update` | service/src/qrcode.rs:127-147 | unknown id → `None`, table unchanged; wrong passphrase → the same `None`, table unchanged; a matching passphrase replaces only `link` and sets `modifiedAt := Some(now)`, keeps id, passphrase and creation time, leaves every other row alone and returns the updated row; storage faults leave the table unchanged |
| `QrCodeService.QrCodeDatabase.Delete` | service/src/qrcode.rs:149-161 | unknown id or wrong passphrase → `None`, table unchanged; a matching passphrase removes exactly that id and returns the row as it was before removal; other rows untouched |
| `QrCodeService.Lifecycle` | service/src/qrcode.rs:104-162 | create then get returns the created link; an update with a wrong passphrase is refused and the record reads back unchanged; a delete with the right passphrase returns the record, after which get is `None` |
| `QrCodeService.RedirectPayload` | service/src/qrcode.rs:66 | the payload is the server URL, then `/redirect?id=`, then 36 characters that read back as the record's id |
| `QrCodeService.RedirectPayloadInjective` | service/src/qrcode.rs:66 | different ids never share a payload |
| `QrCodeService.QrCodeGenerator.constructor` | service/src/qrcode.rs:33-38 | a generator bound to a registry and a server URL |
| `QrCodeService.QrCodeGenerator.Generate` | service/src/qrcode.rs:57-96 | a failed find is a database error; an absent id is `None`; otherwise the result is the encode-then-render pipeline applied to the redirect payload for the id, so it depends on the record only through its id and never on its link; image-encoder and QR-encoder errors are passed on |
| `Uuids.Hyphenated` | service/src/qrcode.rs:66 | the id's text form is 36 characters: lower-case hex digits with hyphens at positions 8, 13, 18 and 23 |
| `Uuids.HyphenatedRoundTrip` | api/src/services/redirect.rs:26-30 | the id in the redirect query reads back as the id the payload was made from |
| `Uuids.HyphenatedInjective` | service/src/qrcode.rs:66 | distinct ids have distinct text forms |
| `RedirectApi.Classify` | api/src/services/redirect.rs:32-53 | redirect iff the record exists and its link parses, with `Location` the parsed link; invalid URL (500, logged) iff it exists and does not parse; not found (404, not logged) iff the read found nothing; database error (500, logged) iff the read failed, distinct from not found |
| `RedirectApi.Resolve` | api/src/services/redirect.rs:27-54 | the same decision stated on the registry's table: a storage fault is a database error, an absent id is 404, and a present id redirects to the parse of its stored link or reports it broken; the registry is only read |
| `RedirectApi.RedirectsToCreatedLink` | api/src/services/redirect.rs:35-37 | a record whose link is the serialisation of a URL the parser produced redirects to exactly that URL, for any parser that reads its own results back from their serialisation (it may reject non-URLs) |
| `ImageApi.IntoQrImageType` | api/src/services/image.rs:42-50 | total and name-preserving: Png→Png, Jpg→Jpg, Svg→Svg |
| `ImageApi.IntoQrImageTypeInjective` | api/src/services/image.rs:42-50 | no two requested types map to the same generator format |
| `ImageApi.ResponseFor` | api/src/services/image.rs:13-75 | status 200 iff the generator produced bytes; then the variant matches the requested type and the bytes pass through unchanged; an SVG response always carries `Content-Disposition: inline`; the content type is `image/png`, `image/jpg` or `image/svg+xml` per requested type; no record → 404 and generator error → 500, for every type |
| `ImageApi.GetImage` | api/src/services/image.rs:57-76 | a storage fault → 500; an unknown id → 404 for every type; otherwise the bytes of the rendered redirect payload, in the variant of the requested type, or 500 when rendering fails |

## Left out

- Database access is replaced by the in-memory `rows` map: `sea_orm` queries, inserts, connection pooling and the details of `DbErr`. A failed round trip is reduced to an error outcome that leaves the table unchanged.
- QR encoding, rasterisation, PNG/JPEG encoding and SVG rendering are library calls. They are the opaque functions of `Codec`. The 200×200 minimum and the black-on-white palette are parameters of those libraries, so nothing is proved about them.
- `QrCodeGenerator::generate_and_save` (service/src/qrcode.rs:41-55) is not modelled. It writes a file and encodes the raw link.
- UUID generation, the clock and URL parsing/serialisation are library calls. They are parameters. A `Url` is represented by its serialisation.
- Uuids.ParseHyphenated reads only the hyphenated form. The UUID parser used by the query extractor also accepts the simple, braced and URN forms; these are not modelled.
- Each registry operation is modelled as atomic. The race between the read and the write of `update`/`delete` under concurrent requests is a concurrency matter.
- The HTTP handlers in api/src/services/qr.rs are not part of this model: they are transport glue and do not match the service's signatures. Also left out: the process bootstrap in api/src/main.rs, HTML pages, configuration, the health and version endpoints, the module re-exports, and the table migration. The 512-character link limit is declared only in the migration, and no code enforces it.
- Logging is modelled only as the error entry a redirect response produces. The log's formatting and sink are not modelled.
