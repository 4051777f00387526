# Phishing template context, modelled in Dafny

This project models how a security-awareness (phishing-simulation) platform builds the
per-recipient context that email bodies and landing pages are rendered against
(`models/template_context.go`). Given a template context (a sender address and a base
URL template), a recipient and the recipient's tracking id `rid`, the assembly:

- parses the sender address and takes its display name, falling back to the bare address;
- renders the base URL template against the recipient and parses the result;
- derives three URLs from it:
  - the base URL, with path and query cleared;
  - the phishing URL, whose query gets the recipient parameter set to `rid`;
  - the tracking URL, whose path has `/track` joined on and whose query is the phishing URL's;
- builds the tracking-pixel tag, the inline base64 QR tag (empty when QR generation fails) and the fixed `cid:qr.png` tag;
- either returns the context, or returns an error together with the empty context.

`ValidateTemplate` is a dry run. It builds a context from fixed placeholders and executes a candidate template against it.

Files and modules:

- `wrappers.dfy` (`Wrappers`): `Option`, `Result`, and `Error`, which stands for a Go `error` value.
- `net_url.dfy` (`NetUrl`): models Go's `net/url`.
  - `url.URL` is the class `Url`, because the assembly assigns its fields in place.
  - `url.Values` is the class `Values`; its `Set` mutates the map.
  - `url.Parse` returns a fresh `Url`, or `null` and the error.
  - The package's parser and serialisers are the function fields of `Package`.
- `paths.dfy` (`Paths`): Go's `path.Join` and `path.Clean`, written from Clean's documented rules. Lemmas say exactly what joining `/track` onto a path gives.
- `template_context.dfy` (`Models`): the data types and the sender fallback.
  - `ExecuteTemplate` models the template call.
  - `DeriveUrls` is the value-level URL derivation.
  - `ContextFor` is the whole result as a value.
  - The methods `BuildUrls` and `NewPhishingTemplateContext` update the URL records in place. Each is proved equal to the value-level function.
  - `ValidateTemplate` is the dry run, and the lemmas below cover the error policy and the shape of every field.

Foreign code enters as the function fields of `Models.Env` and `NetUrl.Package`:

- `mail.ParseAddress`;
- `url.Parse`, `(*URL).String`, `url.ParseQuery` and `Values.Encode`;
- template parse and execute;
- the QR/PNG step (as one "maybe PNG bytes" result);
- base64 encoding.

`RecipientParameter` is defined outside this file, so it is the field `Env.recipientParameter`. These foreign calls are *functions*, so they are deterministic. That makes the two ignored errors of the re-parses at lines 71 and 76 unreachable. In Go, a failed re-parse would leave a nil URL that `Query()` then dereferences. In `BuildUrls` the same dereference is an obligation that the verifier discharges: both re-parses succeed, as the first parse did.

What the code does at the lines that matter most:

- Lines 72-73 decode the template URL's query, then set only the recipient parameter. Every other query parameter the template URL already has is kept, with its values (`Models.DeriveUrls`).
- Line 77 joins `/track` onto the template URL's own path. So `http://phish.example.com/landing` gives the tracking path `/landing/track` (`Paths.JoinRootedWord`).
- A failed re-parse at line 71 or 76 would leave a nil URL. It cannot happen, as shown above.
- The path that line 77 produces does not always end in `/track`. A template path that cleans to `.` (such as `.` itself) gives the relative `track` (`Paths.JoinDot`). Empty and rooted paths always give a path ending in `/track`, and those are the only paths that a URL with a host has.

## Model

| member | source | states |
|---|---|---|
| `Models.NewPhishingTemplateContext` | models/template_context.go:48-125 | The method, which parses URL records afresh, assigns their fields and mutates the query map, returns exactly the context and error that `ContextFor` describes |
| `Models.BuildUrls` | models/template_context.go:64-78 | A failing parse returns its error and three nil URLs. Otherwise both ignored re-parses succeed, and the base, phishing and tracking records hold exactly the three derived URL values |
| `Models.DeriveUrls` | models/template_context.go:62-78 | The base URL has empty path and query, and every other component is unchanged. The query maps the recipient parameter to exactly `[rid]`, with every other original key keeping its values. The phishing URL changes only its raw query, to the encoded query. The tracking URL has that same raw query and the path `Join(path, "/track")`, with all else unchanged |
| `Models.AbortsExactlyOnSenderTemplateOrUrl` | models/template_context.go:49-67 | A sender-address, base-template or URL-parse failure returns that first error with the empty context. The result is error-free exactly when all three succeed |
| `Models.ContextOnSuccess` | models/template_context.go:53-124 | On success: `From` is the display name when non-empty, else the address. The three URL strings are the formatted derived URLs. `Tracker` is the fixed `<img ... src='` + TrackingURL + `'/>`. `RId` is `rid`, the recipient is `r`. The QR tag is that of the phishing URL, and the CID tag is the constant |
| `Models.QrTagShape` | models/template_context.go:82-109 | The inline QR tag is empty exactly when the QR step fails, and otherwise is the fixed prefix, then the base64 PNG, then `'/>` |
| `Models.CidTagReferencesAttachment` | models/template_context.go:111-112 | The CID tag always ends by referencing the attachment `cid:qr.png` |
| `Models.QrStepIsIsolated` | models/template_context.go:80-124 | Replacing the QR step by any other changes neither the error nor any context field except the inline QR tag |
| `Models.QrFailureIsAbsorbed` | models/template_context.go:80-109 | If QR generation always fails, the result has the same error (none if it had none) and the same context with an empty inline QR tag |
| `Models.RecipientIdInBothUrls` | models/template_context.go:71-78 | When query decoding undoes encoding, the phishing and tracking URLs decode to the same query. In it the recipient parameter maps to exactly `[rid]`, and the other keys are the template URL's, with their values |
| `Models.TrackingPathJoinsTrack` | models/template_context.go:76-77 | The tracking path is the cleaned template path + `/track`; it is `/track` for an empty or root path and `track` for a path that cleans to `.`. For empty or rooted paths it ends in `/track` |
| `Models.BaseTemplateSyntaxErrorAborts` | models/template_context.go:139-147 | Once the sender parses, a base URL template with a syntax error makes the assembly return exactly that error with the empty context |
| `Models.ValidateTemplate` | models/template_context.go:163-188 | Returns the error from building the placeholder context if there is one, else the error from executing the text against that context. It returns none exactly when both steps succeed. A candidate template with a syntax error is reported with exactly that error |
| `Models.ValidationContextPlaceholders` | models/template_context.go:166-179 | The dry-run context, when built, carries rid `123456`, the placeholder recipient foo@bar.com / Foo / Bar / Test, and the CID tag |
| `Models.ContextSeenThroughGetters` | models/template_context.go:155-161 | The assembly sees a template context only through its two getters: two contexts with the same sender address and base URL give the same result |
| `Models.ValidationContextLikeCampaign` | models/template_context.go:166-179 | The dry run builds the same context as a campaign with sender foo@bar.com, base URL http://example.com, the placeholder recipient and rid 123456 |
| `NetUrl.Parse` | models/template_context.go:64-67 | `url.Parse`: success gives a fresh record holding the parsed value and no error. Failure gives nil and the parse error |
| `NetUrl.Url.Query` | models/template_context.go:72 | Gives a fresh map decoded from the URL's raw query |
| `NetUrl.Values.Set` | models/template_context.go:73 | The key's values become exactly `[value]`, the key set gains the key, and every other key is untouched |
| `Paths.JoinTrack` | models/template_context.go:77 | `path.Join(p, "/track")` is `/track` for an empty or root path, `track` for a non-empty path that cleans to `.`, and the cleaned path + `/track` otherwise |
| `Paths.JoinTrackEndsWithTrack` | models/template_context.go:77 | The joined path ends in `/track` exactly when the path is empty or does not clean to `.` |
| `Paths.RootedTrack` | models/template_context.go:77 | For an empty or rooted path, the joined path ends in `/track` |
| `Paths.JoinRootedWord` | models/template_context.go:77 | A one-element rooted path `/w` (such as `/landing`) joined with `/track` is `/w/track` |
| `Paths.JoinDot` | models/template_context.go:77 | The path `.` joined with `/track` is the relative `track` |

## Left out

- The QR image pipeline (lines 84-105) is one foreign function, `Env.qrPng`: it gives PNG bytes, or none on any failure. That pipeline covers bitmap generation, the RGBA canvas, the "Scan QR" label and its pixel placement, and PNG encoding, all of which are image-library code.
- `GenerateQRBase64` (lines 129-135) is not modelled. It is a thin wrapper over a QR library and base64, and it only passes errors through.
- The internals of foreign library code are not modelled: `text/template`, `mail.ParseAddress`, `url.Parse`, `(*URL).String`, query decoding and encoding, and base64. So statements about rendered strings, such as `?rid=AbC123` appearing in the URL text, are stated about the URL records and the query maps, not the final strings.
- `Models.RecipientIdInBothUrls`: states that a decoded URL carries `rid` only when `NetUrl.QueryRoundTrips` holds (decoding undoes encoding, and decoded keys have values). This is because `Values.Encode` and `url.ParseQuery` are foreign.
- `bytes.Buffer` in `ExecuteTemplate` is not a separate object. The output is the string that execution wrote.
- `BaseRecipient` is reduced to the four fields that the dry run sets. The model has no `Result` type: the dry run uses the constants `ValidationRecipient` and `ValidationRid` directly. The real `TemplateContext` implementers (campaigns, email requests) are represented by the variant `Campaign`. All of these are defined outside this file.
- The errors of `url.ParseQuery` are dropped, as `(*URL).Query` drops them.
- Which template fields a template may reference, and the difference between syntax errors and unresolved-field errors, are not modelled. Both belong to `text/template`.
- Concurrency: there is none. Every call is independent.
