# Lead intake, modelled in Dafny

The service has a single `POST /createlead` endpoint. It binds a web form to a
`Lead` of seven free-text fields and may store one uploaded file under the
upload directory. It then composes a SendGrid v3 message (a subject built from
the contact fields, a plain-text part, the HTML of a fixed template and the
stored file as an attachment), posts that message, and replies with a JSON
body.

This project models that pipeline (`createLeadHandler`, `sendLeadByEmail`,
`getSendgridBody` in `main.go`) and proves what it decides. Each call into the
outside world becomes a field of one `Outcome` value:

- the form binding result;
- whether a `File` part is present;
- the clock, in nanoseconds;
- the result of opening the destination, as a function of the path;
- the error of the copy attempt, which the handler discards;
- the result of reading the file back, as a function of the path;
- the transport result of the send, as a function of the message.

The handler is therefore a deterministic function of that value. It yields the
response and the ordered list of side effects it attempts: open, copy, read back, send.

Modules, leaf first:

- `Basics` holds `Option`, `Result`, Go's `error` (only its text matters), bytes, `int64` and a string-splitting lemma.
- `Decimal` holds `strconv.FormatInt(n, 10)` and its inverse.
- `FilePath` holds `filepath.Split` with '/' as the separator.
- `Leads` holds the `Lead` record, the constant HTML template as text and action nodes, and its execution through an escaper.
- `Mail` holds SendGrid's message value types and the mutable `SGMailV3` builder, as a class.
- `Compose` holds `getSendgridBody`. `SendgridBody` is the specification function. `GetSendgridBody` is the step-by-step builder proved equal to it.
- `Handler` holds `createLeadHandler` and `sendLeadByEmail`. `Handle` and `Deliver` are the specification functions. `CreateLeadHandler` and `SendLeadByEmail` are the methods with early returns, proved equal to them. The lemmas state the pipeline's properties.

Behaviour of the code that a reader might not expect. The model follows the code in each case:

- The attachment is named after the last element of the stored path, so it keeps the `<millis>_` prefix. It is not the client's file name alone (`AttachmentFilename`, `AttachmentFilenameInDirectory`).
- No separator is inserted between `UPLOAD_PATH` and the timestamp. If the directory lacks a trailing '/', its last element becomes part of the file name.
- The destination is opened with `O_WRONLY|O_CREATE` and no `O_TRUNC`.
- The error of the byte copy is discarded (`CopyErrorIgnored`).
- Any failure of `ctx.FormFile`, not only a missing field, means "no attachment".
- Only a transport error from the send call fails the request. A provider answer with any status, including 4xx and 5xx, counts as success (`ProviderStatusIgnored`).
- Every failure is answered with HTTP 400 and the raw error text. A stored file is never removed (`StoredFileKept`).
- Field values reach the HTML only through html/template's escaper (`ExecuteSeesOnlyEscaped`).

## Model

| member | source | states |
|---|---|---|
| `Handler.CreateLeadHandler` | main.go:72-130 | the handler, with its early returns and the `fpath` variable that stays empty without an upload, yields exactly the response and side effects of the pipeline specification `Handle` |
| `Handler.SendLeadByEmail` | main.go:132-154 | compose, then post: the error returned is the compose error, else the transport error, else none; the effects are the read-back (only with a path) and the post |
| `Handler.BindFailureStops` | main.go:76-84 | an unbindable form gets HTTP 400, `status` 400, the binding error's text, no lead, no path, and nothing is opened, read or sent |
| `Handler.MissingFileProceeds` | main.go:87-92 | no `File` part is not an error: nothing is stored or read, one message without attachment is sent, and the reply is the success body with path "" exactly when the send succeeds |
| `Handler.UploadOpenedAtStoragePath` | main.go:95-100 | with an upload, the first effect is opening `UPLOAD_PATH ++ decimal(millis) ++ "_" ++ filename` |
| `Handler.StoragePath` | main.go:95-97 | the stored path is the upload directory, the decimal millisecond, '_' and the client's file name, each at a fixed offset, with no separator inserted |
| `Handler.Millis` | main.go:96 | nanoseconds to milliseconds with Go's int64 division, which truncates toward zero: bounds for both signs |
| `Handler.StoragePathInjective` | main.go:95-97 | in one directory, two stored paths are equal iff both the millisecond and the file name are equal, so distinct names never collide |
| `Handler.OpenFailureStops` | main.go:99-109 | if the destination cannot be opened, the reply is 400 with that error's text and nothing is copied, read or sent |
| `Handler.CopyErrorIgnored` | main.go:110-111 | the handler never branches on the copy's error: the reply and the recorded effects, the copy attempt included, are the same whatever it is |
| `Handler.StoredUploadIsAttached` | main.go:114-122 | a stored upload is read back; a read failure gives 400 with its text after open and copy and with nothing sent; otherwise the message carrying the attachment is sent and the reply follows the send |
| `Handler.AttachmentCarriesUpload` | main.go:203-213 | when the stored file reads back as the uploaded bytes, the sent attachment is the base64 text of exactly those bytes under the stored name, with disposition "attachment" |
| `Handler.AttachmentFilename` | main.go:207 | for a client file name without '/', the attachment name is the directory's trailing element, then the decimal millisecond, "_" and the client's file name |
| `Handler.AttachmentFilenameInDirectory` | main.go:95-97 | when `UPLOAD_PATH` ends in '/' (or is empty), the attachment is named `<millis>_<filename>` |
| `Handler.ProviderStatusIgnored` | main.go:143-153 | once a message is posted, the request succeeds iff the post had no transport error, whatever status the provider answered; a transport error becomes a 400 with its text |
| `Handler.ResponseShape` | main.go:114-129 | every reply is 200 or 400 with the same HTTP status; a 200 carries the fixed message, the bound lead unchanged and the storage path or ""; a 400 carries neither lead nor path |
| `Handler.StoredFileKept` | main.go:110-122 | once the destination is opened, the trace starts with open and copy, then the read-back, and only a send may follow: no step removes the stored file |
| `Compose.GetSendgridBody` | main.go:156-217 | building on a fresh `SGMailV3` step by step yields exactly the message (or the read error) given by `SendgridBody` |
| `Compose.SendgridBodyFails` | main.go:202-206 | composing fails iff a path is given and reading it back fails, and then with that read error |
| `Compose.SendgridBodyParts` | main.go:182-200 | the message has the configured sender and one recipient, subject `"New Lead - " ++ Fio ++ " / " ++ Email ++ " / " ++ PhoneOrSkype`, and exactly two parts in order: `text/plain` "You got new lead", then `text/html` with the rendered template |
| `Compose.SendgridBodyAttachment` | main.go:202-214 | at most one attachment, present iff the path is non-empty; it holds the base64 of the bytes read back, disposition "attachment", and a name without separators that ends the path |
| `Compose.Subject` | main.go:194 | the subject is "New Lead - ", the name, " / ", the email, " / " and the phone-or-skype, each at a fixed offset |
| `Compose.SubjectInjective` | main.go:194 | when name and email contain no '/', two leads give the same subject iff their name, email and phone-or-skype agree |
| `Leads.RenderHtmlText` | main.go:160-180 | the HTML body is the seven labelled paragraphs of the template, each holding the escaped field in order |
| `Leads.ExecuteSeesOnlyEscaped` | main.go:170-180 | a template's output depends on the lead only through the escaped field values |
| `Decimal.FormatInt` | main.go:96 | the decimal numeral of the millisecond is non-empty, starts with '-' exactly when the number is negative, and is otherwise made of digits |
| `Decimal.FormatIntRoundTrip` | main.go:96 | parsing the decimal rendering of the timestamp gives the timestamp back |
| `Decimal.FormatIntInjective` | main.go:96 | two timestamps render to the same numeral iff they are equal |
| `FilePath.Split` | main.go:207 | the path is cut after its last '/': the parts concatenate to the path, the file part has no '/', and the directory part is empty or ends in '/' |
| `FilePath.SplitUnique` | main.go:207 | `filepath.Split` is the unique cut into a directory part that is empty or ends in '/' and a file part without '/', which concatenate to the path |
| `FilePath.SplitAppend` | main.go:207 | appending text without '/' to a path extends its file part and keeps its directory part |
| `Mail.AddTos` | main.go:186-190 | adding recipients keeps the existing ones and appends the new ones in order |
| `Mail.SGMailV3.constructor` | main.go:182 | a new message has no sender, subject, recipients, parts or attachments |
| `Mail.SGMailV3.SetFrom` | main.go:183-184 | sets the sender and changes nothing else |
| `Mail.SGMailV3.AddPersonalizations` | main.go:186-192 | appends recipient groups and changes nothing else |
| `Mail.SGMailV3.SetSubject` | main.go:194 | sets the subject and changes nothing else |
| `Mail.SGMailV3.AddContent` | main.go:196-200 | appends body parts in order and changes nothing else |
| `Mail.SGMailV3.AddAttachment` | main.go:209-213 | appends attachments and changes nothing else |

## Left out

- Server start-up, `.env` loading, the iris middleware (recover, logger, CORS, the client cache), static files, the 404 and 500 handlers and the 10 MiB body limit (main.go:38-70). These are framework plumbing around the handler.
- The SendGrid HTTP request, its API key and the JSON serialisation of the message (main.go:133-143, 216). The composed `Message` value stands for the request body. The send is an abstract function from message to provider response or transport error. The API key (`SENDGRID_API_KEY`) is not part of `Config`, since it only authenticates the request.
- The inside of html/template's contextual escaping. `Library.escape` is uninterpreted. The template's parse and execute errors (main.go:170-179) are not modelled: the template is a constant that parses, and executing it into a `bytes.Buffer` does not fail.
- Base64 encoding. `Library.base64` is uninterpreted.
- File-system semantics: what opening without truncation leaves behind, the byte copy itself, and the closing of both files. `openFile` and `readFile` are arbitrary functions of the path. So the model does not say that the bytes read back are the bytes uploaded; `AttachmentCarriesUpload` assumes it.
- The wall clock is an input. The race between concurrent requests that store the same file name in the same millisecond is not modelled, since each request is modelled on its own.
- CopyErrorIgnored: a failed `io.Copy` leaves a partial file behind. The model does not connect the read-back (`readFile`) to the copy, so it does not say what such a partial file makes the attachment hold. `CopyUpload` records the attempt only.
- FilePath.Split: only the Unix form of `filepath.Split` is modelled, with '/' as the separator and no volume name. Windows separators and volume names are not modelled.
- The `fmt.Println` logging (main.go:89, 146-150).
- The iris context object: the status code and JSON written through `ctx` are returned as a `Response` value.
