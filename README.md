# QR profile server — Dafny model

The server lets a visitor submit contact details through a form
(`POST /create`). It keeps each submission in an in-memory map under a
freshly generated UUID and answers with a QR code pointing at the profile
page `/p/<id>`. The page can also be downloaded as a vCard 3.0 contact card
(`/p/<id>/vcard`, RFC 2426). This project models the three pieces of logic
in `server.js` and proves their properties:

- **the vCard serialiser** (`vcard.dfy`, module `VCard`). The handler writes
  an array literal of eight candidate lines, drops the blank placeholders
  with `filter(Boolean)` and joins the rest with CRLF. The model keeps exactly
  that shape (`CandidateLines`, `Lines`, `Text`). It is proved equal to a
  field-by-field reference layout (`Layout`), which states when each
  optional line is present and in what order. Line count, line positions,
  the minimal card, the framing of the text and the round trip through a
  CRLF reader follow from that.
- **the profile store and its handlers** (`server.dfy`, module `Server`).
  `ProfileStore` is a class holding the mutable `map<string, Profile>`.
  `Create`, `View` and `ContactCard` are its handlers. The UUID, the
  timestamp and the QR-code library are inputs of `Create`: `freshId`,
  `now`, and a function `qr` from the QR request to an optional data URL
  (None when the library's promise rejects). The body of `Create` follows
  the source's order: validate, build, store, build the URL, call the QR
  library. So a QR failure answers 500 with the record already stored.
- **the profile URL builder** (`links.dfy`, module `Links`): the
  `${protocol}://${host}/p/${id}` template with its header fallback.

`jsvalues.dfy` (module `JsValues`) holds the JavaScript semantics the
handlers rely on. An absent form field or header is `undefined`, modelled as
`Option`. A string is truthy when present and non-empty. It also defines
`x || ''`, `filter(Boolean)` on strings and `Array.prototype.join`.
`SplitCrlf` is not in the source. It reads CRLF-joined text back into lines,
so that `SplitJoinCrlf` can state that joining loses nothing.
`profiles.dfy` (module `Profiles`) holds the form, the record and
`BuildProfile`.

Two details of the code matter to the model:

- Only `instagram` and `linkedin` get a `''` default (server.js:43-44).
  `phone` is stored exactly as submitted, possibly `undefined` (server.js:42),
  so `Profile.phone` is an `Option<string>`.
- The lines are joined with CRLF and nothing follows `END:VCARD`
  (server.js:90); `VCard.TextFraming` proves there is no trailing CRLF.
  RFC 2426's grammar asks for a CRLF after the END line. It also lists the
  structured name `N` as a required type, which the card does not carry.
  The model reproduces the card as written.

Responses are `Server.Reply` values. A plain-text error carries its status
code and message: 400 "Full name and email are required.", 500 "Server
error", 404 "Profile not found." (server.js:33, 61, 69, 78). A 200 carries
what the handler renders or sends.

A template literal prints a missing `host` header as the text `undefined`,
and `Links.Interpolated` models that.

## Model

| member | source | states |
|---|---|---|
| `JsValues.OrEmptyKeepsSubmitted` | server.js:43-44 | the `''` default of the social fields gives the submitted string (empty or not) when the field is present and `''` when it is absent; the result is empty exactly when the field is falsy |
| `JsValues.FilterNonEmpty` | server.js:88 | `filter(Boolean)` on strings keeps no empty string, keeps every non-empty one it was given and nothing else, and never lengthens the list |
| `JsValues.FilterNonEmptyAppend` | server.js:88 | filtering distributes over concatenation, so the kept lines stay in their original order |
| `JsValues.FilterNonEmptyKeepsAll` | server.js:88 | a list with no empty string passes the filter unchanged |
| `JsValues.JoinSnoc` | server.js:90 | joining a non-empty list extended by one line is the old text, one separator, then that line: the separator only goes between lines |
| `JsValues.OrEmpty` | server.js:43-44 | no contract of its own; specified by `JsValues.OrEmptyKeepsSubmitted` |
| `JsValues.Join` | server.js:90 | no contract of its own; specified by `JsValues.JoinSnoc`, `JsValues.JoinEndsWith` and `JsValues.SplitJoinCrlf` |
| `JsValues.JoinEndsWith` | server.js:90 | with two or more lines the joined text ends with the separator and the last line, so nothing is appended after it |
| `JsValues.SplitJoinCrlf` | server.js:90 | splitting CRLF-joined lines at CRLF returns exactly those lines when none of them holds a carriage return |
| `Profiles.Acceptable` | server.js:32 | no contract of its own; `Server.ProfileStore.Create` answers 400 exactly when it is false |
| `Profiles.BuildProfile` | server.js:29-46 | the stored record carries the fresh id, the timestamp, and the submitted full name, email and phone (phone possibly absent); instagram and linkedin are the submitted string, or `''` when absent; full name and email are non-empty |
| `VCard.CandidateLines` | server.js:79-87 | no contract of its own; specified through `VCard.Lines` by `VCard.LinesMatchLayout` |
| `VCard.Lines` | server.js:88 | no contract of its own; specified by `VCard.LinesMatchLayout`, `VCard.LineCount`, `VCard.LineOrder` and `VCard.MinimalCard` |
| `VCard.Text` | server.js:90 | no contract of its own; specified by `VCard.TextFraming` and `VCard.TextSplitsIntoLines` |
| `VCard.LinesMatchLayout` | server.js:79-88 | the filtered candidate list equals the field-by-field layout: BEGIN, VERSION, FN, TEL only for a truthy phone, EMAIL, a URL for a non-empty LinkedIn, a URL for a non-empty Instagram, END |
| `VCard.LineCount` | server.js:79-88 | the card has 5 lines plus one for each non-empty field among phone, LinkedIn and Instagram |
| `VCard.LineOrder` | server.js:79-88 | BEGIN, VERSION and FN come first; TEL (when present) is line 3, right before EMAIL; the LinkedIn URL precedes the Instagram URL; END is last; no line is empty |
| `VCard.MinimalCard` | server.js:79-88 | with phone, LinkedIn and Instagram all empty the card is exactly BEGIN, VERSION, FN, EMAIL, END |
| `VCard.TextFraming` | server.js:79-90 | the body starts with `BEGIN:VCARD` and CRLF, ends with CRLF and `END:VCARD`, and does not end with a CRLF |
| `VCard.TextSplitsIntoLines` | server.js:79-90 | a reader splitting the body at CRLF gets back exactly the card's lines when no field contains a carriage return |
| `Links.Scheme` | server.js:51 | no contract of its own; specified by `Links.SchemeChoice` |
| `Links.ProfileUrl` | server.js:52 | no contract of its own; specified by `Links.ProfileUrlSplits` and `Links.ProfileUrlInjective` |
| `Links.SchemeChoice` | server.js:51 | the scheme is the `x-forwarded-proto` header when present and non-empty, and the request's protocol when absent or empty |
| `Links.ProfileUrlSplits` | server.js:50-52 | the URL starts with `scheme://`, is the request's origin followed by `/p/` and the id, and the id is the URL's tail after `/p/` |
| `Links.ProfileUrlInjective` | server.js:37-52 | for one request, two ids give the same profile URL exactly when they are the same id |
| `Server.ProfileStore.constructor` | server.js:11 | the store starts empty |
| `Server.ProfileStore.Create` | server.js:27-62 | a falsy full name or email, and only that, answers 400 "Full name and email are required." and leaves the store unchanged; otherwise exactly the fresh id is added, mapped to the built record, with every old entry unchanged; then a rejected QR call answers 500 "Server error" with the record kept, and a successful one answers 200 with the URL, the image and the record |
| `Server.ProfileStore.View` | server.js:66-71 | 404 "Profile not found." for an id that is not stored; otherwise 200 with the stored record, whose id is the requested one; reads only |
| `Server.ProfileStore.ContactCard` | server.js:75-90 | 404 "Profile not found." for an id that is not stored; otherwise 200 with the vCard text of the stored record; reads only |
| `Server.CreateThenView` | server.js:27-71 | viewing right after a create finds the record with the submitted values for an accepted form, and finds nothing for a rejected one |
| `Server.CreateTwice` | server.js:37-71 | two accepted creates under distinct generated ids are both retrievable with their own values, and their profile URLs differ |

`View` and `ContactCard` have no `modifies` clause, so Dafny's frame rule
guarantees they leave the store unchanged.

## Left out

- Express setup, middleware, static files, the port and `app.listen` (server.js:6-8, 13-18, 93-95): HTTP plumbing with no logic of the model's concern.
- `GET /` (server.js:22-24): it only renders the empty form, with no state and no branch.
- EJS rendering (server.js:23, 58, 71): the templates are outside this model. `CreatedPage` and the `Ok` of `View` carry the values handed to the renderer instead of HTML.
- The QR-code library (server.js:55) is an input function. Its image format is not modelled. The request records the fixed options: error correction `H`, scale 8.
- `uuidv4()` and `new Date().toISOString()` (server.js:37, 45) are the inputs `freshId` and `now`. Their formats are not modelled.
- Server.ProfileStore.Create: requires `freshId` not to be stored yet. That is the UUID generator's uniqueness guarantee; the overwrite `store.set` would do on a collision is not modelled.
- Server.ProfileStore.Create: exceptions other than a rejected QR promise are not modelled. One such case is a request with no parsed body. Whether it can happen depends on the Express version, which the source does not pin. Express 4 always sets `req.body` to at least `{}`, and such a request gets the 400 answer, as in the model. Under Express 5 `req.body` can stay `undefined`, for example for an empty or `text/plain` POST. Then the destructuring at server.js:29 throws and server.js:59-61 answers 500. The model has no input for that, and its 500 path is not modelled.
- Form values that are not strings are not modelled. Examples are arrays or objects from extended URL-encoded bodies or from JSON bodies. Fields are strings or absent.
- `console.error` (server.js:60) and the response content type (server.js:89) are I/O side effects.
- Concurrent requests are handled one at a time here. Id uniqueness across concurrent creates comes from the UUID library, which the freshness precondition stands for.
- Escaping and line folding of vCard values are not in the source, and the model does not add them. `VCard.TextSplitsIntoLines` states the round trip only for fields without a carriage return.
