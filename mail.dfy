/** The part of SendGrid's v3 mail helper the composer uses: the value types of
    a message and the `SGMailV3` builder that is filled in step by step. */
module Mail {

  import opened Basics

  /** A mailbox: display name and address. */
  datatype Email = Email(name: string, address: string)

  /** One body part, e.g. `text/plain` or `text/html`. */
  datatype Content = Content(mimeType: string, value: string)

  /** A file attached to the message; `content` is already base64 text. */
  datatype Attachment = Attachment(content: string, filename: string, disposition: string)

  /** `mail.NewAttachment()`: every field unset. */
  const NewAttachment: Attachment := Attachment("", "", "")

  /** A group of recipients that share one envelope. */
  datatype Personalization = Personalization(to: seq<Email>)

  /** `mail.NewPersonalization()`: no recipients yet. */
  const NewPersonalization: Personalization := Personalization([])

  /** `Personalization.AddTos`: the recipients are appended in order. */
  function AddTos(p: Personalization, tos: seq<Email>): (r: Personalization)
    ensures |r.to| == |p.to| + |tos|
    ensures r.to[..|p.to|] == p.to && r.to[|p.to|..] == tos
  {
    p.(to := p.to + tos)
  }

  /** The value of a message once built: what the request body serialises. */
  datatype Message = Message(
    from: Option<Email>,
    subject: string,
    personalizations: seq<Personalization>,
    contents: seq<Content>,
    attachments: seq<Attachment>)

  /** The mutable builder `*mail.SGMailV3`: each setter changes one field. */
  class SGMailV3 {
    var from: Option<Email>
    var subject: string
    var personalizations: seq<Personalization>
    var contents: seq<Content>
    var attachments: seq<Attachment>

    /** The message the builder holds now. */
    function Value(): Message
      reads this
    {
      Message(from, subject, personalizations, contents, attachments)
    }

    /** `mail.NewV3Mail()`: an empty message. */
    constructor ()
      ensures Value() == Message(None, "", [], [], [])
    {
      from := None;
      subject := "";
      personalizations := [];
      contents := [];
      attachments := [];
    }

    method SetFrom(e: Email)
      modifies this
      ensures Value() == old(Value()).(from := Some(e))
    {
      from := Some(e);
    }

    method SetSubject(s: string)
      modifies this
      ensures Value() == old(Value()).(subject := s)
    {
      subject := s;
    }

    method AddPersonalizations(ps: seq<Personalization>)
      modifies this
      ensures Value() == old(Value()).(personalizations := old(personalizations) + ps)
    {
      personalizations := personalizations + ps;
    }

    method AddContent(cs: seq<Content>)
      modifies this
      ensures Value() == old(Value()).(contents := old(contents) + cs)
    {
      contents := contents + cs;
    }

    method AddAttachment(atts: seq<Attachment>)
      modifies this
      ensures Value() == old(Value()).(attachments := old(attachments) + atts)
    {
      attachments := attachments + atts;
    }
  }
}
