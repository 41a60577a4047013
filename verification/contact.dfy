/** The contact page (src/pages/Contact.tsx): the company's contact details,
    fetched or defaulted, and a message form whose submission is simulated
    (nothing is sent). */
module Contact {
  import opened Optional
  import opened Provider
  import opened PublicPages

  datatype Field = Name | Email | Subject | Message

  /** The message form, all four fields controlled strings. */
  datatype Form = Form(name: string, email: string, subject: string, message: string)
  {
    function Get(f: Field): string
    {
      match f
      case Name => name
      case Email => email
      case Subject => subject
      case Message => message
    }
  }

  const EmptyForm := Form("", "", "", "")

  /** The `name` attribute of each form input. */
  function InputName(f: Field): string
  {
    match f
    case Name => "name"
    case Email => "email"
    case Subject => "subject"
    case Message => "message"
  }

  /** The page's state: the fetched view, `formData` and `submitting`. */
  datatype State = State(view: View, form: Form, submitting: bool)

  const Initial := State(Loading, EmptyForm, false)

  /** `fetchCompanyData` on mount: one company query; the adopted row, if
      any, replaces the company, and otherwise the company is left as it was.
      `loading` ends false on every path. */
  function Mount(s: State, reply: FetchReply): (r: Step<State>)
    ensures r.effects == Effects([SelectCompany], [], None)
    ensures !r.state.view.loading
    ensures r.state.form == s.form && r.state.submitting == s.submitting
    ensures AdoptsNothing(reply) ==> r.state.view.company == s.view.company
    ensures forall c :: IsRowReply(reply, c) ==> r.state.view.company == Some(c)
  {
    var company := match AdoptedRow(reply) case Some(c) => Some(c) case None => s.view.company;
    Step(s.(view := View(company, false)), Effects([SelectCompany], [], None))
  }

  /** From the page's initial state, mounting gives the shared public-page
      view and issues the same query. */
  lemma MountAgreesWithPublicPages(reply: FetchReply)
    ensures Mount(Initial, reply).state.view == Load(reply).state
    ensures Mount(Initial, reply).effects == Load(reply).effects
  {
  }

  /** The record the contact details come from. */
  function Displayed(s: State): CompanyRow
  {
    Display(s.view, ContactPage)
  }

  /** The website card renders exactly when the displayed website is non-empty. */
  predicate WebsiteCardShown(s: State)
  {
    Shown(Displayed(s).website)
  }

  /** Without a fetched row the default contact details show, website card included. */
  lemma FallbackShowsWebsite(reply: FetchReply)
    requires AdoptsNothing(reply)
    ensures Displayed(Mount(Initial, reply).state) == DefaultCompany(ContactPage)
    ensures WebsiteCardShown(Mount(Initial, reply).state)
  {
    FallbackOnEveryPage(reply, ContactPage);
    MountAgreesWithPublicPages(reply);
  }

  /** With a fetched row, the website card follows that row's website. */
  lemma FetchedWebsiteDecides(s: State, c: CompanyRow)
    ensures WebsiteCardShown(Mount(s, Replied(Some(c), None)).state) <==> c.website.Some? && c.website.value != ""
  {
  }

  /** `handleInputChange`: the input named `name` takes `value`, the other
      fields keep theirs; an unknown name changes nothing. */
  function Edit(s: State, name: string, value: string): (r: State)
    ensures r.view == s.view && r.submitting == s.submitting
    ensures forall f :: r.form.Get(f) == (if name == InputName(f) then value else s.form.Get(f))
  {
    match name
    case "name" => s.(form := s.form.(name := value))
    case "email" => s.(form := s.form.(email := value))
    case "subject" => s.(form := s.form.(subject := value))
    case "message" => s.(form := s.form.(message := value))
    case _ => s
  }

  /** Writing a field's current value back into it changes nothing. */
  lemma EditCurrentValueIsIdentity(s: State, f: Field)
    ensures Edit(s, InputName(f), s.form.Get(f)) == s
  {
  }

  /** Of two writes to the same input, the last one wins. */
  lemma EditLastWriteWins(s: State, name: string, v1: string, v2: string)
    ensures Edit(Edit(s, name, v1), name, v2) == Edit(s, name, v2)
  {
  }

  const SentToast := Toast("Message Sent!", "Thank you for your message. We'll get back to you soon.", false)

  /** The send button is disabled while a submission is in flight. */
  predicate SubmitEnabled(s: State)
  {
    !s.submitting
  }

  /** `handleSubmit`, the one-second wait collapsed: thank the visitor, clear
      every field and end with `submitting` false. No request is made. */
  function Submit(s: State): (r: Step<State>)
    ensures forall f :: r.state.form.Get(f) == ""
    ensures !r.state.submitting && SubmitEnabled(r.state)
    ensures r.state.view == s.view
    ensures r.effects == Effects([], [SentToast], None)
  {
    Step(s.(form := EmptyForm, submitting := false), Effects([], [SentToast], None))
  }

  /** Typing then submitting leaves no trace of what was typed. */
  lemma SubmitForgetsEdits(s: State, name: string, value: string)
    ensures Submit(Edit(s, name, value)).state == Submit(s).state
  {
  }
}
