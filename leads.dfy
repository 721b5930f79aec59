/** The lead record bound from the form, and the fixed HTML template that renders it. */
module Leads {

  /** The seven free-text form fields; none is validated. */
  datatype Lead = Lead(
    projectType: string,
    workType: string,
    whenStart: string,
    fio: string,
    phoneOrSkype: string,
    email: string,
    description: string)

  /** The field names a template action `{{.Name}}` can select. */
  datatype Field = ProjectType | WorkType | WhenStart | Fio | PhoneOrSkype | Email | Description

  function FieldValue(lead: Lead, f: Field): string {
    match f
    case ProjectType => lead.projectType
    case WorkType => lead.workType
    case WhenStart => lead.whenStart
    case Fio => lead.fio
    case PhoneOrSkype => lead.phoneOrSkype
    case Email => lead.email
    case Description => lead.description
  }

  /** A parsed template: literal text, and actions that print one field of the data. */
  datatype Node = Text(text: string) | Action(field: Field)

  /** The literal text between the actions of the composer's template. */
  const Open: string := "\n\t\t<p>Project type: "
  const AfterProjectType: string := "</p>\n\t\t<p>Work type: "
  const AfterWorkType: string := "</p>\n\t\t<p>When start: "
  const AfterWhenStart: string := "</p>\n\t\t<p>Fio: "
  const AfterFio: string := "</p>\n\t\t<p>Phone or skype: "
  const AfterPhoneOrSkype: string := "</p>\n\t\t<p>Email: "
  const AfterEmail: string := "</p>\n\t\t<p>Description: "
  const Close: string := "</p>\n\t"

  /** The constant template of the composer, one labelled paragraph per field. */
  const LeadTemplate: seq<Node> := [
    Text(Open), Action(ProjectType),
    Text(AfterProjectType), Action(WorkType),
    Text(AfterWorkType), Action(WhenStart),
    Text(AfterWhenStart), Action(Fio),
    Text(AfterFio), Action(PhoneOrSkype),
    Text(AfterPhoneOrSkype), Action(Email),
    Text(AfterEmail), Action(Description),
    Text(Close)]

  /** What one node contributes: text is copied, an action prints the field's
      value passed through `escape` (html/template's contextual escaper). */
  function NodeOutput(n: Node, lead: Lead, escape: string -> string): string {
    match n
    case Text(t) => t
    case Action(f) => escape(FieldValue(lead, f))
  }

  /** Executes a template on a lead, node by node. */
  function Execute(tpl: seq<Node>, lead: Lead, escape: string -> string): string
    decreases |tpl|
  {
    if tpl == [] then "" else NodeOutput(tpl[0], lead, escape) + Execute(tpl[1..], lead, escape)
  }

  /** Executing from position `i` prints node `i` and then the rest. */
  lemma ExecuteStep(tpl: seq<Node>, i: nat, lead: Lead, escape: string -> string)
    requires i < |tpl|
    ensures Execute(tpl[i..], lead, escape) == NodeOutput(tpl[i], lead, escape) + Execute(tpl[i + 1..], lead, escape)
  {
    assert tpl[i..][1..] == tpl[i + 1..];
  }

  lemma ExecuteText(tpl: seq<Node>, i: nat, s: string, lead: Lead, escape: string -> string)
    requires i < |tpl| && tpl[i] == Text(s)
    ensures Execute(tpl[i..], lead, escape) == s + Execute(tpl[i + 1..], lead, escape)
  {
    ExecuteStep(tpl, i, lead, escape);
  }

  lemma ExecuteAction(tpl: seq<Node>, i: nat, f: Field, lead: Lead, escape: string -> string)
    requires i < |tpl| && tpl[i] == Action(f)
    ensures Execute(tpl[i..], lead, escape) == escape(FieldValue(lead, f)) + Execute(tpl[i + 1..], lead, escape)
  {
    ExecuteStep(tpl, i, lead, escape);
  }

  /** Field values reach the output only through `escape`: two leads whose
      escaped fields agree render identically. */
  lemma {:induction false} ExecuteSeesOnlyEscaped(tpl: seq<Node>, a: Lead, b: Lead, escape: string -> string)
    requires forall f: Field :: escape(FieldValue(a, f)) == escape(FieldValue(b, f))
    ensures Execute(tpl, a, escape) == Execute(tpl, b, escape)
    decreases |tpl|
  {
    if tpl != [] {
      ExecuteSeesOnlyEscaped(tpl[1..], a, b, escape);
    }
  }

  /** The HTML body for a lead. */
  function RenderHtml(lead: Lead, escape: string -> string): string {
    Execute(LeadTemplate, lead, escape)
  }

  /** The last paragraphs of the template, from the phone-or-skype action on. */
  lemma ExecuteLeadTemplateFrom9(lead: Lead, escape: string -> string)
    ensures Execute(LeadTemplate[9..], lead, escape) ==
      escape(lead.phoneOrSkype) +
      (AfterPhoneOrSkype + (escape(lead.email) +
      (AfterEmail + (escape(lead.description) +
      Close))))
  {
    var t := LeadTemplate;
    assert t[15..] == [];
    assert Execute(t[14..], lead, escape) == Close by { ExecuteText(t, 14, Close, lead, escape); assert Close + "" == Close; }
    ExecuteAction(t, 13, Description, lead, escape);
    ExecuteText(t, 12, AfterEmail, lead, escape);
    ExecuteAction(t, 11, Email, lead, escape);
    ExecuteText(t, 10, AfterPhoneOrSkype, lead, escape);
    ExecuteAction(t, 9, PhoneOrSkype, lead, escape);
  }

  /** The template from the work-type text on. */
  lemma ExecuteLeadTemplateFrom4(lead: Lead, escape: string -> string)
    ensures Execute(LeadTemplate[4..], lead, escape) ==
      AfterWorkType + (escape(lead.whenStart) +
      (AfterWhenStart + (escape(lead.fio) +
      (AfterFio + (escape(lead.phoneOrSkype) +
      (AfterPhoneOrSkype + (escape(lead.email) +
      (AfterEmail + (escape(lead.description) +
      Close)))))))))
  {
    var t := LeadTemplate;
    ExecuteLeadTemplateFrom9(lead, escape);
    ExecuteText(t, 8, AfterFio, lead, escape);
    ExecuteAction(t, 7, Fio, lead, escape);
    ExecuteText(t, 6, AfterWhenStart, lead, escape);
    ExecuteAction(t, 5, WhenStart, lead, escape);
    ExecuteText(t, 4, AfterWorkType, lead, escape);
  }

  /** The rendered body is the template text with each escaped field in its
      paragraph (written right-nested, the order in which execution prints it). */
  lemma RenderHtmlText(lead: Lead, escape: string -> string)
    ensures RenderHtml(lead, escape) ==
      Open + (escape(lead.projectType) +
      (AfterProjectType + (escape(lead.workType) +
      (AfterWorkType + (escape(lead.whenStart) +
      (AfterWhenStart + (escape(lead.fio) +
      (AfterFio + (escape(lead.phoneOrSkype) +
      (AfterPhoneOrSkype + (escape(lead.email) +
      (AfterEmail + (escape(lead.description) +
      Close)))))))))))))
  {
    var t := LeadTemplate;
    ExecuteLeadTemplateFrom4(lead, escape);
    ExecuteAction(t, 3, WorkType, lead, escape);
    ExecuteText(t, 2, AfterProjectType, lead, escape);
    ExecuteAction(t, 1, ProjectType, lead, escape);
    ExecuteText(t, 0, Open, lead, escape);
    assert t[0..] == t;
  }
}
