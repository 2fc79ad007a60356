# Optimus contact relays — a Dafny model

This project models the request handling of the Optimus website's two
contact-form relays and the filename guard of its profile-download route:

- the hosted relay, the Netlify function `exports.handler`. It gates on the
  HTTP method, has a CORS-preflight branch, parses the JSON body, checks the
  four fields (`name`, `email`, `subject`, `message`) and the SMTP settings,
  derives the transport options from the port, builds the mail and maps the
  send result (or a thrown parse error) to a response;
- the self-hosted Express relay. Its `/api/contact` route does the same field
  check and mail construction through a transporter made once at start-up.
  Its `/Profile/:filename` route rejects names containing `..`, `/` or `\`
  before it builds a path and checks that the path stays inside `Profile/`.

Every part is pure, so the model is datatypes, functions and lemmas. Effects
become inputs. The environment is a record of optional strings.
`Number(SMTP_PORT)` is an optional integer (None for NaN). `JSON.parse` and
`decodeURIComponent` are function parameters. Whether `sendMail` succeeds is
a boolean. Each handler returns the response together with the delivery
(transport options and mail) it attempted, if any.

Modules:

- `Wrappers`: the Option type.
- `JsText`: the JavaScript string semantics the relays use: truthiness, `||`,
  `trim`, `includes`, `replace(/\n/g, "<br />")` and, as a reference for
  that replacement, `split`/`join`.
- `Inquiry`: what the two relays share: the fields, the environment, the port
  rule, the transport and mail records, and the text and HTML bodies. The
  template-literal layout (indentation) is a parameter, because it differs
  between the two files.
- `NetlifyContact`: the Netlify handler.
- `PosixPath`: `path.join` plus `path.resolve` on POSIX paths, as a walk
  over segments.
- `ExpressServer`: the `/api/contact` route, the module transporter and
  the `/Profile/:filename` route.

The Netlify handler has a branch for the CORS preflight: the comment at
netlify/functions/contact.js:29 and the `Access-Control-Allow-Methods: POST,
OPTIONS` header at lines 23 and 36 show it was meant to answer `OPTIONS` with
200 and an empty body. The method gate at line 17 runs first, so an `OPTIONS`
request gets 405. The model follows the code and records the gap under
Findings.

## Model

| member | source | states |
|---|---|---|
| `JsText.Truthy` | netlify/functions/contact.js:46 | computes JavaScript truthiness of an undefined-or-string value: only a non-empty string is truthy (the tests at contact.js:46 and 66, the `\|\|` at 43 and 63, and server.js:94) |
| `JsText.Or` | netlify/functions/contact.js:63 | `a \|\| b` is truthy iff one side is; it is `a` when `a` is truthy and otherwise `b` |
| `JsText.IsWhitespace` | netlify/functions/contact.js:109 | computes membership in the ECMAScript WhiteSpace and LineTerminator set that `trim()` removes: TAB, VT, FF, SP, NBSP, ZWNBSP, the Zs category, LF, CR, LS, PS |
| `JsText.Trim` | netlify/functions/contact.js:102-109 | computes `s.trim()` as TrimStart after TrimEnd; what it keeps and drops is stated by `JsText.TrimEnd`, `JsText.TrimStart` and `JsText.TrimFramed` |
| `JsText.TrimEnd` | netlify/functions/contact.js:109 | the result is the longest prefix not ending in whitespace; everything removed is JavaScript whitespace |
| `JsText.TrimStart` | netlify/functions/contact.js:109 | the result is the longest suffix not starting with whitespace; everything removed is whitespace |
| `JsText.TrimFramed` | netlify/functions/contact.js:102-109 | trimming a leading line feed, a piece that starts with a non-space and trailing whitespace leaves the piece trimmed at its end only |
| `JsText.ReplaceNewlines` | netlify/functions/contact.js:116 | the replaced message has no line feed; a message without line feeds is unchanged; each line feed adds five characters |
| `JsText.ReplaceNewlinesAppend` | netlify/functions/contact.js:116 | replacing a concatenation equals concatenating the replaced parts |
| `JsText.Split` | netlify/functions/contact.js:116 | splitting on a character gives one more piece than it has occurrences, and no piece holds it |
| `JsText.SplitJoinRoundTrip` | netlify/functions/contact.js:116 | joining the pieces of a split with the separator gives the string back |
| `JsText.ReplaceNewlinesIsSplitJoin` | netlify/functions/contact.js:116 | the replacement equals splitting the message on line feeds and joining the lines with `<br />` |
| `JsText.Contains` | server.js:45 | computes `s.includes(t)`: `t` occurs in `s` as a contiguous piece; `JsText.ContainsChar` and `ExpressServer.GuardRejectsExactly` state what it means for the guard |
| `JsText.StartsWith` | server.js:56 | computes `s.startsWith(p)`: `p` is a prefix of `s` |
| `JsText.ContainsChar` | server.js:45 | `includes` of a one-character string is membership of that character |
| `Inquiry.Complete` | netlify/functions/contact.js:46 | computes `name && email && subject && message` on the destructured fields: each is a non-empty string; its use is stated by `NetlifyContact.MissingFieldIsRejected` and `ExpressServer.ContactMissingFieldIsRejected` (the same check at server.js:94) |
| `Inquiry.Sender` | netlify/functions/contact.js:63 | computes `CONTACT_SENDER \|\| CONTACT_RECIPIENT`, shared by both relays (also server.js:99); `JsText.Or`, `NetlifyContact.DeliveryIsWellFormed` and `ExpressServer.ContactDelivery` state that the mail is from the sender when set and from the recipient otherwise |
| `Inquiry.SmtpPort` | netlify/functions/contact.js:59 | the port is never 0: a non-zero number is kept, and NaN or 0 gives 587 |
| `Inquiry.TextBody` | netlify/functions/contact.js:102-109 | computes the text template (field summary, message, closing indentation) and trims it; `Inquiry.TextBodyIsTrimmedHead`, `Inquiry.TextBodyKeepsMessage` and `Inquiry.TextBodyIgnoresLayout` state its contents |
| `Inquiry.HtmlBody` | netlify/functions/contact.js:110-117 | computes the HTML template under a relay's indentation, with the message's line feeds replaced; `Inquiry.HtmlBodyHoldsMessage` and `Inquiry.HtmlBodyEnds` state its contents |
| `Inquiry.ComposeMail` | netlify/functions/contact.js:97-118 | computes `mailOptions` from the sender, the recipient and complete fields: reply-to the email, the prefixed subject, the text and HTML bodies; `Inquiry.ComposedText`, `NetlifyContact.DeliveryIsWellFormed` and `ExpressServer.ContactDelivery` state its fields |
| `Inquiry.TextBodyIsTrimmedHead` | netlify/functions/contact.js:102-109 | after `trim()` the text body is the field summary plus the message, with trailing whitespace removed |
| `Inquiry.TextBodyKeepsMessage` | netlify/functions/contact.js:102-109 | a message not ending in whitespace appears unchanged at the end of the text body |
| `Inquiry.HtmlBodyEnds` | netlify/functions/contact.js:116-117 | the HTML body ends with the message paragraph's `</p>` followed directly by the closing line feed and indentation of the template |
| `Inquiry.ComposedText` | netlify/functions/contact.js:97-109 | the mail's text is the field summary plus the message with trailing whitespace removed, so a message not ending in whitespace is copied unchanged |
| `Inquiry.TextBodyIgnoresLayout` | server.js:103-110 | the closing indentation of the text template has no effect on the text body |
| `Inquiry.HtmlBodyHoldsMessage` | netlify/functions/contact.js:110-117 | the HTML body contains `<p>` + the message with line feeds replaced + `</p>` |
| `NetlifyContact.BodyText` | netlify/functions/contact.js:43 | `event.body \|\| "{}"` is never empty; it is the body when the body is a non-empty string and `{}` otherwise |
| `NetlifyContact.Configured` | netlify/functions/contact.js:66 | computes the negation of `!smtpHost \|\| !smtpUser \|\| !smtpPass \|\| !contactRecipient`; its use is stated by `NetlifyContact.ConfigurationErrorOnlyAfterFields` and `NetlifyContact.MissingConfigurationIsServerError` |
| `NetlifyContact.SmtpTransport` | netlify/functions/contact.js:59-94 | the port follows the 587 rule; `secure` holds iff the port is 465; `requireTLS` holds iff it is 587; the two never hold together |
| `NetlifyContact.Handle` | netlify/functions/contact.js:15-142 | computes the handler's response and attempted delivery through its chain of checks (method, preflight, parse, fields, configuration, send); the lemmas below, from `NetlifyContact.NonPostIsRejected` to `NetlifyContact.OutcomeMapping`, state each branch |
| `NetlifyContact.NonPostIsRejected` | netlify/functions/contact.js:17-27 | the status is 405 iff the method is not POST; such a request gets "Method not allowed" and nothing is sent |
| `NetlifyContact.PreflightIsUnreachable` | netlify/functions/contact.js:17-40 | no request gets the empty preflight body, and OPTIONS gets 405 |
| `NetlifyContact.MissingFieldIsRejected` | netlify/functions/contact.js:46-55 | a POST with an absent or empty field gets 400 "All fields are required." with CORS and JSON headers, whatever the environment, and nothing is sent |
| `NetlifyContact.AbsentBodyIsRejected` | netlify/functions/contact.js:43-55 | a POST with no body (or an empty one) is read as `{}` and gets 400 |
| `NetlifyContact.ConfigurationErrorOnlyAfterFields` | netlify/functions/contact.js:46-76 | "Server configuration error." is given, always with status 500 and the JSON headers, iff the request is a POST with all four fields and one of SMTP_HOST, SMTP_USER, SMTP_PASS, CONTACT_RECIPIENT is missing |
| `NetlifyContact.MissingConfigurationIsServerError` | netlify/functions/contact.js:57-76 | a POST with all four fields and a missing SMTP_HOST, SMTP_USER, SMTP_PASS or CONTACT_RECIPIENT gets exactly status 500, the JSON headers and "Server configuration error.", and nothing is sent |
| `NetlifyContact.MalformedBodyIsServerError` | netlify/functions/contact.js:42-43 | a body that `JSON.parse` rejects gets 500 "Failed to send inquiry." from the catch, and nothing is sent |
| `NetlifyContact.DeliveryIsWellFormed` | netlify/functions/contact.js:57-118 | a mail is attempted iff every check passed; it is from CONTACT_SENDER or else CONTACT_RECIPIENT, to the recipient, reply-to the submitted email, with subject `[Optimus Website] ` + subject and the replaced message in the HTML; the transport flags follow the port |
| `NetlifyContact.HandleDelivery` | netlify/functions/contact.js:78-130 | an attempted delivery is the one built from the parsed fields; the status is then 200 or 500, depending only on the send |
| `NetlifyContact.OutcomeMapping` | netlify/functions/contact.js:121-141 | the status is 200 iff a mail was attempted and sent, with `success: true`; a failed send gives 500 "Failed to send inquiry."; statuses are 200, 400, 405 or 500; every response allows any origin |
| `NetlifyContact.HandleCorrected` | netlify/functions/contact.js:15-40 | the handler with the preflight answered first behaves exactly like the handler as written for every method other than OPTIONS |
| `NetlifyContact.CorrectedAnswersPreflight` | netlify/functions/contact.js:29-40 | with the correction, OPTIONS gets exactly the 200 empty preflight response (CORS headers, nothing sent), and 405 goes exactly to methods other than POST and OPTIONS |
| `PosixPath.Resolve` | server.js:49-54 | computes `path.resolve(path.join(dir, name))` for an absolute directory by walking the name's `/`-separated segments; `PosixPath.WalkWithoutParentStaysInside`, `PosixPath.SplitWithoutSeparator` and `ExpressServer.PrefixTestAloneIsWeak` state how it behaves |
| `PosixPath.Text` | server.js:53-56 | computes the string form of an absolute path from its segments: `/` for the root, otherwise each segment preceded by `/`; `PosixPath.SlashedAppend` and `PosixPath.InsideHasTextPrefix` state how it relates to containment |
| `PosixPath.SlashedAppend` | server.js:50 | the text of a joined path is the text of its parts in order |
| `PosixPath.InsideHasTextPrefix` | server.js:53-56 | a path inside a non-root directory starts with that directory's text |
| `PosixPath.WalkWithoutParentStaysInside` | server.js:50-53 | resolving segments none of which is `..` never leaves the starting directory |
| `PosixPath.SplitWithoutSeparator` | server.js:50 | a name without `/` is one path segment |
| `ExpressServer.ModuleTransport` | server.js:73-81 | the port follows the 587 rule; `secure` (which compares the raw `Number(SMTP_PORT)` with 465) holds iff the port is 465; no requireTLS or TLS options are set |
| `ExpressServer.Contact` | server.js:91-130 | computes the `/api/contact` response and attempted delivery: 400 on an incomplete body, otherwise a send whose result decides 200 or 500; `ExpressServer.ContactMissingFieldIsRejected`, `ExpressServer.ContactDelivery` and `ExpressServer.ContactHasNoConfigurationCheck` state its branches |
| `ExpressServer.ContactMissingFieldIsRejected` | server.js:92-96 | an absent body (read as `{}`) or a missing or empty field gets 400 "All fields are required." and nothing is sent |
| `ExpressServer.ContactDelivery` | server.js:98-129 | with all four fields a mail is always attempted, from CONTACT_SENDER or else CONTACT_RECIPIENT, to the recipient, reply-to the email, with the prefixed subject and the replaced message; a successful send gives 200 `success: true`, a failed one gives 500 "Failed to send inquiry. Please try again later." |
| `ExpressServer.ContactHasNoConfigurationCheck` | server.js:91-130 | this route never answers with the configuration error; its statuses are 200, 400 and 500 |
| `ExpressServer.RelaysAgree` | server.js:98-119 | when the Netlify handler sends, the Express route sends the same from, to, reply-to, subject and text; the HTML differs only in indentation; port and `secure` agree, and so does whether the answer is 200 |
| `ExpressServer.MailsAgree` | server.js:98-110 | for the same fields and environment the two relays' mails have the same addresses, subject and text body |
| `ExpressServer.Traverses` | server.js:45 | computes the guard `filename.includes("..") \|\| filename.includes("/") \|\| filename.includes("\\")`; `ExpressServer.GuardRejectsExactly` states it as membership |
| `ExpressServer.ProfileDownload` | server.js:41-60 | computes the download route's answer: decode the name, 400 on the guard, 403 when the resolved path does not start with the Profile directory, otherwise download; `ExpressServer.GuardRejectsExactly`, `ExpressServer.GuardKeepsInsideProfile` and `ExpressServer.ForbiddenIsUnreachable` state its branches |
| `ExpressServer.GuardRejectsExactly` | server.js:42-47 | the decoded name gets 400 "Invalid filename" iff it contains `..`, `/` or `\` |
| `ExpressServer.GuardKeepsInsideProfile` | server.js:49-60 | a name that passes the guard resolves inside `Profile/`, and the file passed to `res.download` is the Profile directory followed by `/` and the name (the directory itself for `""` or `.`) |
| `ExpressServer.ForbiddenIsUnreachable` | server.js:45-58 | no filename ever gets the 403 "Access denied" |
| `ExpressServer.PrefixTestAloneIsWeak` | server.js:53-56 | the string-prefix test by itself lets `../ProfileX` through (it resolves to a sibling directory), and only the 400 guard rejects it |

## Left out

- SMTP transport: `nodemailer.createTransport`, `sendMail` and the start-up `transporter.verify` are library and network calls. The send result is a boolean input, and `verify` (which only logs) is not modelled.
- Express wiring is server plumbing: the static middleware, `cors()` (its response headers are not modelled for the Express routes), `express.json()` (it answers malformed JSON before the route runs), `res.download` and its 404 on a filesystem error, the `/` route and `app.listen`.
- `decodeURIComponent` is a parameter, and its failure is a `DecodeFailed` outcome left to Express's error handler. Express's own decoding of route parameters is not modelled.
- `path.join`/`path.resolve` are modelled on POSIX paths only. Windows separators (`\`, drive letters) are not modelled. The guard rejects `\` in any case.
- `JSON.parse` is a parameter, so JSON syntax is not modelled. Fields are optional strings. JSON numbers, booleans, objects or arrays as field values are not modelled: they have their own truthiness, and a non-string `message` makes `replace` throw.
- `Number(SMTP_PORT)` is given as an optional integer. Conversion from a string and non-integer values are not modelled.
- Response bodies are modelled as the object passed to `JSON.stringify` or `res.json`, not as serialized text.
- Strings are sequences of Unicode scalar values, while JavaScript strings are UTF-16 code units: lone surrogates cannot be represented, and lengths (as in `JsText.ReplaceNewlines`'s length clause) count code points rather than `.length`. Every needle and whitespace character the relays use is in the Basic Multilingual Plane, so no stated behaviour changes.
- Console logging, and the unused `context` parameter of the Netlify handler.
- `static/script.js` (DOM wiring and the submit handler, which sends without checking fields) and `build.js` (a filesystem copy) are not part of this model. The gallery and lightbox view-state machine is not part of this model either.

## Findings

| source | as written | input that shows it | evidently intended | confidence | as-written member | corrected member |
|---|---|---|---|---|---|---|
| netlify/functions/contact.js:17-40 | the method gate rejects every method but POST before the CORS-preflight branch runs, so that branch is dead | an `OPTIONS` request (a browser preflight) gets 405 "Method not allowed" | a preflight gets 200 with an empty body and the CORS headers, as the branch's comment and its `Access-Control-Allow-Methods: POST, OPTIONS` say | high; not executed | `NetlifyContact.PreflightIsUnreachable` | `NetlifyContact.CorrectedAnswersPreflight` |
