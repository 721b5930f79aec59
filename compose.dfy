/** `getSendgridBody`: turns a lead and the path of its stored upload (empty when
    there is none) into the message sent to the email API. */
module Compose {

  import opened Basics
  import opened Leads
  import opened Mail
  import FilePath

  /** The process environment the core reads (`os.Getenv`). */
  datatype Config = Config(
    uploadPath: string,   // UPLOAD_PATH
    emailFrom: string,    // EMAIL_ADDRESS_FROM
    emailTo: string)      // EMAIL_ADDRESS_TO

  /** Library code the model does not re-derive: html/template's escaper for
      text in an HTML element, and `base64.StdEncoding.EncodeToString`. */
  datatype Library = Library(escape: string -> string, base64: seq<byte> -> string)

  /** `ioutil.ReadFile`: the bytes at a path, or the error the OS reports. */
  type Reader = string -> Result<seq<byte>, Error>

  const SubjectPrefix: string := "New Lead - "
  const SubjectSeparator: string := " / "
  const PlainText: string := "You got new lead"
  const Disposition: string := "attachment"

  /** The subject line: the prefix, then name, email and phone-or-skype, each
      at a fixed offset after the one before, separated by " / ". */
  function Subject(lead: Lead): (s: string)
    ensures var i := |SubjectPrefix| + |lead.fio|;
      var j := i + |SubjectSeparator| + |lead.email|;
      && |s| == j + |SubjectSeparator| + |lead.phoneOrSkype|
      && s[..|SubjectPrefix|] == "New Lead - "
      && s[|SubjectPrefix|..i] == lead.fio
      && s[i..i + |SubjectSeparator|] == " / "
      && s[i + |SubjectSeparator|..j] == lead.email
      && s[j..j + |SubjectSeparator|] == " / "
      && s[j + |SubjectSeparator|..] == lead.phoneOrSkype
  {
    SubjectPrefix + lead.fio + SubjectSeparator + lead.email + SubjectSeparator + lead.phoneOrSkype
  }

  /** The message as it stands before the optional attachment. */
  function BaseMessage(lead: Lead, cfg: Config, lib: Library): Message {
    Message(
      Some(Mail.Email(cfg.emailFrom, cfg.emailFrom)),
      Subject(lead),
      [Personalization([Mail.Email(cfg.emailTo, cfg.emailTo)])],
      [Content("text/plain", PlainText), Content("text/html", RenderHtml(lead, lib.escape))],
      [])
  }

  /** The attachment made from the bytes stored at `fpath`. */
  function AttachmentOf(fpath: string, bytes: seq<byte>, lib: Library): Attachment {
    Attachment(lib.base64(bytes), FilePath.Split(fpath).1, Disposition)
  }

  /** What `getSendgridBody` yields: the message, or the error of re-reading the upload. */
  function SendgridBody(lead: Lead, fpath: string, cfg: Config, lib: Library, readFile: Reader): Result<Message, Error> {
    if fpath == "" then Success(BaseMessage(lead, cfg, lib))
    else match readFile(fpath)
      case Failure(e) => Failure(e)
      case Success(bytes) => Success(BaseMessage(lead, cfg, lib).(attachments := [AttachmentOf(fpath, bytes, lib)]))
  }

  /** Builds the message step by step on a fresh `SGMailV3`, as the source does. */
  method GetSendgridBody(lead: Lead, fpath: string, cfg: Config, lib: Library, readFile: Reader)
    returns (body: Result<Message, Error>)
    ensures body == SendgridBody(lead, fpath, cfg, lib, readFile)
  {
    // The template is a constant that parses, and executing it into a
    // bytes.Buffer does not fail, so both error returns are dead.
    var htmlData := RenderHtml(lead, lib.escape);

    var m := new SGMailV3();
    var e := Mail.Email(cfg.emailFrom, cfg.emailFrom);
    m.SetFrom(e);

    var p := NewPersonalization;
    p := AddTos(p, [Mail.Email(cfg.emailTo, cfg.emailTo)]);
    assert p == Personalization([Mail.Email(cfg.emailTo, cfg.emailTo)]) by {
      assert [] + p.to == p.to;
    }
    m.AddPersonalizations([p]);
    assert m.Value() == Message(Some(e), "", [p], [], []);

    m.SetSubject(SubjectPrefix + lead.fio + SubjectSeparator + lead.email + SubjectSeparator + lead.phoneOrSkype);

    m.AddContent([Content("text/plain", PlainText)]);
    m.AddContent([Content("text/html", htmlData)]);
    assert m.Value() == BaseMessage(lead, cfg, lib);

    if fpath != "" {
      var f := readFile(fpath);
      if f.Failure? {
        return Failure(f.error);
      }
      var (_, filename) := FilePath.Split(fpath);
      var attachedFile := NewAttachment;
      attachedFile := attachedFile.(content := lib.base64(f.value));
      attachedFile := attachedFile.(filename := filename);
      attachedFile := attachedFile.(disposition := Disposition);
      assert attachedFile == AttachmentOf(fpath, f.value, lib);
      m.AddAttachment([attachedFile]);
      assert m.Value() == BaseMessage(lead, cfg, lib).(attachments := [attachedFile]);
    }
    body := Success(m.Value());
  }

  /** Composition fails exactly when there is an upload and re-reading it
      fails, and then with that read error. */
  lemma SendgridBodyFails(lead: Lead, fpath: string, cfg: Config, lib: Library, readFile: Reader)
    ensures SendgridBody(lead, fpath, cfg, lib, readFile).Failure? <==> fpath != "" && readFile(fpath).Failure?
    ensures SendgridBody(lead, fpath, cfg, lib, readFile).Failure? ==>
      SendgridBody(lead, fpath, cfg, lib, readFile).error == readFile(fpath).error
  {
  }

  /** A composed message has one sender and one recipient from the
      configuration, the subject with the contact fields, and exactly two
      body parts: the fixed plain text, then the rendered HTML. */
  lemma SendgridBodyParts(lead: Lead, fpath: string, cfg: Config, lib: Library, readFile: Reader)
    requires SendgridBody(lead, fpath, cfg, lib, readFile).Success?
    ensures var m := SendgridBody(lead, fpath, cfg, lib, readFile).value;
      && m.from == Some(Mail.Email(cfg.emailFrom, cfg.emailFrom))
      && m.personalizations == [Personalization([Mail.Email(cfg.emailTo, cfg.emailTo)])]
      && m.subject == "New Lead - " + lead.fio + " / " + lead.email + " / " + lead.phoneOrSkype
      && m.contents == [Content("text/plain", "You got new lead"), Content("text/html", RenderHtml(lead, lib.escape))]
  {
  }

  /** A composed message carries an attachment exactly when a path was given,
      never more than one, named by the last element of the path and holding
      the base64 text of the bytes read back from it. */
  lemma SendgridBodyAttachment(lead: Lead, fpath: string, cfg: Config, lib: Library, readFile: Reader)
    requires SendgridBody(lead, fpath, cfg, lib, readFile).Success?
    ensures var m := SendgridBody(lead, fpath, cfg, lib, readFile).value;
      && |m.attachments| <= 1
      && (m.attachments != [] <==> fpath != "")
      && (fpath != "" ==>
            && readFile(fpath).Success?
            && m.attachments[0].content == lib.base64(readFile(fpath).value)
            && m.attachments[0].disposition == "attachment"
            && FilePath.Separator !in m.attachments[0].filename
            && fpath == FilePath.Split(fpath).0 + m.attachments[0].filename)
  {
  }

  /** The subject identifies the lead's name and email when neither contains
      a slash: two leads with the same subject agree on all three contact fields. */
  lemma SubjectInjective(a: Lead, b: Lead)
    requires '/' !in a.fio && '/' !in a.email
    requires '/' !in b.fio && '/' !in b.email
    ensures Subject(a) == Subject(b) <==> a.fio == b.fio && a.email == b.email && a.phoneOrSkype == b.phoneOrSkype
  {
    if Subject(a) == Subject(b) {
      var s := Subject(a);
      SubjectSlashes(a);
      SubjectSlashes(b);
      var ia, ib := |SubjectPrefix| + |a.fio|, |SubjectPrefix| + |b.fio|;
      if ia < ib {
        assert false;
      } else if ib < ia {
        assert false;
      }
      var ja, jb := ia + |SubjectSeparator| + |a.email|, ib + |SubjectSeparator| + |b.email|;
      if ja < jb {
        assert false;
      } else if jb < ja {
        assert false;
      }
    }
  }

  /** Where the two slashes of the subject stand, and that none comes before
      them when name and email have none. */
  lemma SubjectSlashes(lead: Lead)
    requires '/' !in lead.fio && '/' !in lead.email
    ensures var s := Subject(lead);
      var i := |SubjectPrefix| + |lead.fio|;
      var j := i + |SubjectSeparator| + |lead.email|;
      && j + |SubjectSeparator| <= |s|
      && s[i + 1] == '/' && s[j + 1] == '/'
      && (forall k :: 0 <= k <= i ==> s[k] != '/')
      && (forall k :: i + 2 <= k <= j ==> s[k] != '/')
  {
    var s := Subject(lead);
    var p := |SubjectPrefix|;
    var i := p + |lead.fio|;
    var j := i + |SubjectSeparator| + |lead.email|;
    assert s[i..i + 3] == " / " && s[j..j + 3] == " / ";
    assert s[i + 1] == s[i..i + 3][1];
    assert s[j + 1] == s[j..j + 3][1];
    forall k | 0 <= k <= i
      ensures s[k] != '/'
    {
      if k < p {
        assert s[k] == s[..p][k];
      } else if k < i {
        assert s[k] == s[p..i][k - p];
      } else {
        assert s[k] == s[i..i + 3][0];
      }
    }
    forall k | i + 2 <= k <= j
      ensures s[k] != '/'
    {
      if k == i + 2 {
        assert s[k] == s[i..i + 3][2];
      } else if k == j {
        assert s[k] == s[j..j + 3][0];
      } else {
        assert s[k] == s[i + 3..j][k - i - 3];
      }
    }
  }
}
