/** `createLeadHandler` and `sendLeadByEmail`: the per-request pipeline from
    the bound form to the JSON response. Everything the handler learns from
    the outside world (the form, the clock, the file system, the email API)
    is one `Outcome` value, so the pipeline is a deterministic function of it. */
module Handler {

  import opened Basics
  import opened Leads
  import opened Mail
  import opened Compose
  import Decimal
  import FilePath

  /** The uploaded part `File`: the client's file name and its bytes. */
  datatype Upload = Upload(filename: string, content: seq<byte>)

  /** What the email API answered when the request reached it. */
  datatype ProviderResponse = ProviderResponse(statusCode: int, body: string)

  /** The results of every call the handler makes into the outside world. */
  datatype Outcome = Outcome(
    form: Result<Lead, Error>,                             // ctx.ReadForm(&lead)
    formFile: Result<Upload, Error>,                       // ctx.FormFile("File")
    unixNano: int64,                                       // time.Now().UnixNano()
    openFile: string -> Option<Error>,                     // os.OpenFile(path, O_WRONLY|O_CREATE, 0666)
    copyError: Option<Error>,                              // io.Copy(out, file), result discarded
    readFile: Reader,                                      // ioutil.ReadFile(path)
    send: Message -> Result<ProviderResponse, Error>)      // sendgrid.API(request)

  /** The observable side effects of a request, in order. */
  datatype Effect =
    | OpenFile(path: string)                  // attempt to open (or create) the destination for writing
    | CopyUpload(path: string, content: seq<byte>)  // attempt to copy the upload into the opened file;
                                                    // its outcome is not recorded, as the handler discards it
    | ReadFile(path: string)                  // stored upload read back for the attachment
    | SendMail(message: Message)               // request posted to the email API

  /** The JSON body written to the client, with the HTTP status of the reply.
      `lead` and `filepath` are keys only the success body has. */
  datatype Response = Response(
    httpStatus: int,
    status: int,
    message: string,
    lead: Option<Lead>,
    filepath: Option<string>)

  datatype Run = Run(response: Response, effects: seq<Effect>)

  const SuccessMessage: string := "A lead successfully created"

  function BadRequest(err: Error): Response {
    Response(400, 400, err.text, None, None)
  }

  function Created(lead: Lead, fpath: string): Response {
    Response(200, 200, SuccessMessage, Some(lead), Some(fpath))
  }

  /** `UnixNano() / 1e6` on int64: Go's division truncates toward zero. */
  function Millis(unixNano: int64): (ms: int)
    ensures unixNano >= 0 ==> ms >= 0 && ms * 1_000_000 <= unixNano < ms * 1_000_000 + 1_000_000
    ensures unixNano < 0 ==> ms <= 0 && ms * 1_000_000 - 1_000_000 < unixNano <= ms * 1_000_000
  {
    var n: int := unixNano;
    if n >= 0 then n / 1_000_000 else -((-n) / 1_000_000)
  }

  /** Where the upload is stored: the upload directory, the millisecond
      timestamp and the client's file name, concatenated with no separator
      between directory and timestamp. */
  function StoragePath(uploadPath: string, ms: int, filename: string): (p: string)
    ensures var t := Decimal.FormatInt(ms);
      && |p| == |uploadPath| + |t| + 1 + |filename|
      && p[..|uploadPath|] == uploadPath
      && p[|uploadPath|..|uploadPath| + |t|] == t
      && p[|uploadPath| + |t|] == '_'
      && p[|uploadPath| + |t| + 1..] == filename
  {
    uploadPath + Decimal.FormatInt(ms) + "_" + filename
  }

  /** `sendLeadByEmail`: compose, then post; the error returned, if any, and
      the effects. A provider answer of any status is not an error. */
  function Deliver(lead: Lead, fpath: string, cfg: Config, lib: Library, o: Outcome): (Option<Error>, seq<Effect>) {
    var rereads := if fpath != "" then [ReadFile(fpath)] else [];
    match SendgridBody(lead, fpath, cfg, lib, o.readFile)
    case Failure(e) => (Some(e), rereads)
    case Success(m) =>
      match o.send(m)
      case Failure(e) => (Some(e), rereads + [SendMail(m)])
      case Success(_) => (None, rereads + [SendMail(m)])
  }

  /** The tail of the handler once the upload, if any, is stored at `fpath`. */
  function Finish(lead: Lead, fpath: string, cfg: Config, lib: Library, o: Outcome, done: seq<Effect>): Run {
    var (err, sent) := Deliver(lead, fpath, cfg, lib, o);
    Run(if err.Some? then BadRequest(err.value) else Created(lead, fpath), done + sent)
  }

  /** `createLeadHandler` as a function of the outside world's answers. */
  function Handle(o: Outcome, cfg: Config, lib: Library): Run {
    match o.form
    case Failure(e) => Run(BadRequest(e), [])
    case Success(lead) =>
      match o.formFile
      case Failure(_) => Finish(lead, "", cfg, lib, o, [])
      case Success(up) =>
        var fpath := StoragePath(cfg.uploadPath, Millis(o.unixNano), up.filename);
        match o.openFile(fpath)
        case Some(e) => Run(BadRequest(e), [OpenFile(fpath)])
        case None => Finish(lead, fpath, cfg, lib, o, [OpenFile(fpath), CopyUpload(fpath, up.content)])
  }

  method SendLeadByEmail(lead: Lead, fpath: string, cfg: Config, lib: Library, o: Outcome)
    returns (err: Option<Error>, effects: seq<Effect>)
    ensures (err, effects) == Deliver(lead, fpath, cfg, lib, o)
  {
    effects := if fpath != "" then [ReadFile(fpath)] else [];
    var body := GetSendgridBody(lead, fpath, cfg, lib, o.readFile);
    if body.Failure? {
      return Some(body.error), effects;
    }
    effects := effects + [SendMail(body.value)];
    var response := o.send(body.value);
    err := if response.Failure? then Some(response.error) else None;
  }

  /** The handler with its early returns and the path variable `fpath`,
      which stays empty unless an upload is stored. */
  method CreateLeadHandler(o: Outcome, cfg: Config, lib: Library)
    returns (resp: Response, effects: seq<Effect>)
    ensures Run(resp, effects) == Handle(o, cfg, lib)
  {
    effects := [];
    var fpath := "";

    if o.form.Failure? {
      return BadRequest(o.form.error), effects;
    }
    var lead := o.form.value;

    var file := o.formFile;
    if file.Success? {
      var uploadPath := cfg.uploadPath;
      var timestamp := Decimal.FormatInt(Millis(o.unixNano));
      fpath := uploadPath + timestamp + "_" + file.value.filename;

      effects := effects + [OpenFile(fpath)];
      var openErr := o.openFile(fpath);
      if openErr.Some? {
        return BadRequest(openErr.value), effects;
      }
      // The copy's error is discarded.
      effects := effects + [CopyUpload(fpath, file.value.content)];
    }

    var err, sent := SendLeadByEmail(lead, fpath, cfg, lib, o);
    effects := effects + sent;
    if err.Some? {
      return BadRequest(err.value), effects;
    }
    resp := Created(lead, fpath);
  }

  // ---------------------------------------------------------------------------
  // Storage paths

  /** Two uploads stored under the same directory get the same path exactly when
      they share both the millisecond and the file name; in particular uploads
      with distinct names never collide. */
  lemma StoragePathInjective(uploadPath: string, ms1: int, name1: string, ms2: int, name2: string)
    ensures StoragePath(uploadPath, ms1, name1) == StoragePath(uploadPath, ms2, name2) <==> ms1 == ms2 && name1 == name2
  {
    if StoragePath(uploadPath, ms1, name1) == StoragePath(uploadPath, ms2, name2) {
      var t1, t2 := Decimal.FormatInt(ms1), Decimal.FormatInt(ms2);
      var s := StoragePath(uploadPath, ms1, name1);
      var u := |uploadPath|;
      StoragePathUnderscore(uploadPath, ms1, name1);
      StoragePathUnderscore(uploadPath, ms2, name2);
      if |t1| < |t2| {
        assert false;
      } else if |t2| < |t1| {
        assert false;
      }
      Decimal.FormatIntInjective(ms1, ms2);
    }
  }

  /** The first '_' of a stored path after the directory is the one that
      ends the numeral. */
  lemma StoragePathUnderscore(uploadPath: string, ms: int, filename: string)
    ensures var p, u, t := StoragePath(uploadPath, ms, filename), |uploadPath|, Decimal.FormatInt(ms);
      && p[u + |t|] == '_'
      && forall k :: u <= k < u + |t| ==> p[k] != '_'
  {
    var p, u, t := StoragePath(uploadPath, ms, filename), |uploadPath|, Decimal.FormatInt(ms);
    NoUnderscoreInNumeral(t);
    forall k | u <= k < u + |t|
      ensures p[k] != '_'
    {
      assert p[k] == p[u..u + |t|][k - u];
    }
  }


  lemma NoUnderscoreInNumeral(t: string)
    requires forall i :: 0 <= i < |t| ==> Decimal.IsNumeral(t[i])
    ensures '_' !in t && FilePath.Separator !in t
  {
  }

  /** The attachment's file name is the last element of the stored path, so it
      keeps the "<millis>_" prefix, and it also keeps whatever follows the last
      separator of the upload directory, since no separator is inserted. */
  lemma AttachmentFilename(uploadPath: string, ms: int, name: string)
    requires FilePath.Separator !in name
    ensures FilePath.Split(StoragePath(uploadPath, ms, name)).1 ==
      FilePath.Split(uploadPath).1 + Decimal.FormatInt(ms) + "_" + name
  {
    var t := Decimal.FormatInt(ms);
    var tail := t + "_" + name;
    NoUnderscoreInNumeral(t);
    assert FilePath.Separator !in tail;
    assert StoragePath(uploadPath, ms, name) == uploadPath + tail;
    FilePath.SplitAppend(uploadPath, tail);
  }

  /** With an upload directory that ends in a separator, the attachment is
      named "<millis>_<filename>", not by the client's file name alone. */
  lemma AttachmentFilenameInDirectory(uploadPath: string, ms: int, name: string)
    requires FilePath.Separator !in name
    requires uploadPath == [] || uploadPath[|uploadPath| - 1] == FilePath.Separator
    ensures FilePath.Split(StoragePath(uploadPath, ms, name)).1 == Decimal.FormatInt(ms) + "_" + name
  {
    AttachmentFilename(uploadPath, ms, name);
    var t := Decimal.FormatInt(ms);
    assert FilePath.Split(uploadPath).1 == [];
    assert [] + t == t;
  }

  // ---------------------------------------------------------------------------
  // The pipeline

  /** A form that does not bind is answered 400 with the binding error's text,
      and nothing is opened, read or sent. */
  lemma BindFailureStops(o: Outcome, cfg: Config, lib: Library)
    requires o.form.Failure?
    ensures Handle(o, cfg, lib) == Run(Response(400, 400, o.form.error.text, None, None), [])
  {
  }

  /** A request without a usable `File` part is not an error: nothing is stored
      or read back, the one message sent has no attachment, and the request
      succeeds, echoing the lead with an empty path, exactly when the send does. */
  lemma MissingFileProceeds(o: Outcome, cfg: Config, lib: Library)
    requires o.form.Success? && o.formFile.Failure?
    ensures var m := BaseMessage(o.form.value, cfg, lib);
      && m.attachments == []
      && Handle(o, cfg, lib).effects == [SendMail(m)]
      && (o.send(m).Success? ==> Handle(o, cfg, lib).response == Created(o.form.value, ""))
      && (o.send(m).Failure? ==> Handle(o, cfg, lib).response == BadRequest(o.send(m).error))
  {
  }

  /** With an upload, the first thing done is to open the destination at
      UPLOAD_PATH ++ decimal(millis) ++ "_" ++ filename. */
  lemma UploadOpenedAtStoragePath(o: Outcome, cfg: Config, lib: Library)
    requires o.form.Success? && o.formFile.Success?
    ensures var r := Handle(o, cfg, lib);
      && |r.effects| >= 1
      && r.effects[0] == OpenFile(cfg.uploadPath + Decimal.FormatInt(Millis(o.unixNano)) + "_" + o.formFile.value.filename)
  {
  }

  /** If the destination cannot be opened the request is answered 400 with that
      error's text, and nothing is copied, read or sent. */
  lemma OpenFailureStops(o: Outcome, cfg: Config, lib: Library)
    requires o.form.Success? && o.formFile.Success?
    requires o.openFile(StoragePath(cfg.uploadPath, Millis(o.unixNano), o.formFile.value.filename)).Some?
    ensures var p := StoragePath(cfg.uploadPath, Millis(o.unixNano), o.formFile.value.filename);
      Handle(o, cfg, lib) == Run(BadRequest(o.openFile(p).value), [OpenFile(p)])
  {
  }

  /** The handler never branches on the copy's error: the reply and the
      recorded effects (the copy attempt included) are the same whatever it is. */
  lemma CopyErrorIgnored(o: Outcome, cfg: Config, lib: Library, copyError: Option<Error>)
    ensures Handle(o.(copyError := copyError), cfg, lib) == Handle(o, cfg, lib)
  {
  }

  /** A stored upload is read back and attached; if reading it back fails the
      request is answered 400 with the read error, after the file was written,
      and nothing is sent. */
  lemma StoredUploadIsAttached(o: Outcome, cfg: Config, lib: Library)
    requires o.form.Success? && o.formFile.Success?
    requires o.openFile(StoragePath(cfg.uploadPath, Millis(o.unixNano), o.formFile.value.filename)).None?
    ensures var up := o.formFile.value;
      var p := StoragePath(cfg.uploadPath, Millis(o.unixNano), up.filename);
      var r := Handle(o, cfg, lib);
      && (o.readFile(p).Failure? ==>
            r == Run(BadRequest(o.readFile(p).error), [OpenFile(p), CopyUpload(p, up.content), ReadFile(p)]))
      && (o.readFile(p).Success? ==>
            var m := BaseMessage(o.form.value, cfg, lib).(attachments := [AttachmentOf(p, o.readFile(p).value, lib)]);
            && r.effects == [OpenFile(p), CopyUpload(p, up.content), ReadFile(p), SendMail(m)]
            && (o.send(m).Success? ==> r.response == Created(o.form.value, p))
            && (o.send(m).Failure? ==> r.response == BadRequest(o.send(m).error)))
  {
  }

  /** When the stored file reads back as the uploaded bytes, the attachment
      holds the base64 text of exactly those bytes, under the stored name. */
  lemma AttachmentCarriesUpload(o: Outcome, cfg: Config, lib: Library)
    requires o.form.Success? && o.formFile.Success?
    requires var p := StoragePath(cfg.uploadPath, Millis(o.unixNano), o.formFile.value.filename);
      o.openFile(p).None? && o.readFile(p) == Success(o.formFile.value.content)
    ensures var p := StoragePath(cfg.uploadPath, Millis(o.unixNano), o.formFile.value.filename);
      var r := Handle(o, cfg, lib);
      && |r.effects| == 4 && r.effects[3].SendMail?
      && r.effects[3].message.attachments ==
           [Attachment(lib.base64(o.formFile.value.content), FilePath.Split(p).1, "attachment")]
  {
  }

  /** Once a message was posted, the request succeeds exactly when the post did
      not fail in transport: the provider's status code, 2xx or not, is never
      looked at. */
  lemma ProviderStatusIgnored(o: Outcome, cfg: Config, lib: Library)
    requires var r := Handle(o, cfg, lib); |r.effects| > 0 && r.effects[|r.effects| - 1].SendMail?
    ensures var r := Handle(o, cfg, lib);
      var m := r.effects[|r.effects| - 1].message;
      && (r.response.status == 200 <==> o.send(m).Success?)
      && (o.send(m).Failure? ==> r.response == BadRequest(o.send(m).error))
  {
  }

  /** Every reply is either the success body (HTTP 200, the fixed message, the
      lead echoed unchanged, the storage path or "") or a 400 that carries
      neither lead nor path. */
  lemma ResponseShape(o: Outcome, cfg: Config, lib: Library)
    ensures var r := Handle(o, cfg, lib).response;
      && r.httpStatus == r.status
      && (r.status == 200 || r.status == 400)
      && (r.status == 200 ==>
            && o.form.Success?
            && r.message == "A lead successfully created"
            && r.lead == Some(o.form.value)
            && r.filepath == Some(if o.formFile.Success?
                                  then StoragePath(cfg.uploadPath, Millis(o.unixNano), o.formFile.value.filename)
                                  else ""))
      && (r.status == 400 ==> r.lead == None && r.filepath == None)
  {
  }

  /** A stored upload is never removed: whenever the destination was opened,
      the trace begins with the open and the copy, whatever happens after, and
      no later step touches the file except to read it. */
  lemma StoredFileKept(o: Outcome, cfg: Config, lib: Library)
    requires o.form.Success? && o.formFile.Success?
    requires o.openFile(StoragePath(cfg.uploadPath, Millis(o.unixNano), o.formFile.value.filename)).None?
    ensures var p := StoragePath(cfg.uploadPath, Millis(o.unixNano), o.formFile.value.filename);
      var r := Handle(o, cfg, lib);
      && |r.effects| >= 3
      && r.effects[..2] == [OpenFile(p), CopyUpload(p, o.formFile.value.content)]
      && r.effects[2] == ReadFile(p)
      && (forall i :: 3 <= i < |r.effects| ==> r.effects[i].SendMail?)
  {
  }
}
