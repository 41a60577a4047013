/** The admin editor (src/pages/Admin.tsx): an authenticated-only form over
    the single company record. Each handler is a transition from the page
    state and the backend's replies to the next state and the effects. */
module Admin {
  import opened Optional
  import opened Text
  import opened Provider

  /** The editor's form: one string per text column, never null. */
  datatype Form = Form(
    name: string,
    bio: string,
    about: string,
    email: string,
    phone: string,
    address: string,
    website: string,
    logoUrl: string)
  {
    function Get(c: Column): string
    {
      match c
      case Name => name
      case Bio => bio
      case About => about
      case Email => email
      case Phone => phone
      case Address => address
      case Website => website
      case LogoUrl => logoUrl
    }

    /** The form with one field replaced. */
    function With(c: Column, v: string): (f: Form)
      ensures f.Get(c) == v
      ensures forall d :: d != c ==> f.Get(d) == Get(d)
    {
      match c
      case Name => this.(name := v)
      case Bio => this.(bio := v)
      case About => this.(about := v)
      case Email => this.(email := v)
      case Phone => this.(phone := v)
      case Address => this.(address := v)
      case Website => this.(website := v)
      case LogoUrl => this.(logoUrl := v)
    }
  }

  const EmptyForm := Form("", "", "", "", "", "", "", "")

  /** The `name` attribute of the input bound to each column. */
  function InputName(c: Column): string
  {
    match c
    case Name => "name"
    case Bio => "bio"
    case About => "about"
    case Email => "email"
    case Phone => "phone"
    case Address => "address"
    case Website => "website"
    case LogoUrl => "logo_url"
  }

  /** The column an input name designates, if any. */
  function ColumnOfInput(name: string): (r: Option<Column>)
    ensures r.Some? ==> InputName(r.value) == name
    ensures r.None? ==> forall c :: InputName(c) != name
  {
    match name
    case "name" => Some(Name)
    case "bio" => Some(Bio)
    case "about" => Some(About)
    case "email" => Some(Email)
    case "phone" => Some(Phone)
    case "address" => Some(Address)
    case "website" => Some(Website)
    case "logo_url" => Some(LogoUrl)
    case _ => None
  }

  /** Every input's name leads back to its own column. */
  lemma InputNamesRoundTrip(c: Column)
    ensures ColumnOfInput(InputName(c)) == Some(c)
  {
  }

  /** `value || ''` for a nullable column. */
  function OrEmpty(value: Option<string>): string
  {
    match value
    case Some(v) => v
    case None => ""
  }

  /** The form a fetched row fills in: each field is the column's value, with
      null replaced by the empty string. */
  function FormOfRow(row: CompanyRow): (f: Form)
    ensures forall c :: f.Get(c) == OrEmpty(row.Get(c))
  {
    Form(
      OrEmpty(row.name), OrEmpty(row.bio), OrEmpty(row.about), OrEmpty(row.email),
      OrEmpty(row.phone), OrEmpty(row.address), OrEmpty(row.website), OrEmpty(row.logoUrl))
  }

  /** The editor's state: `user`, `company`, `formData`, `loading`, `saving`. */
  datatype State = State(user: Option<User>, company: Option<CompanyRow>, form: Form, loading: bool, saving: bool)

  const Initial := State(None, None, EmptyForm, true, false)

  /** `fetchCompanyData`: adopt the fetched row into `company` and the form,
      or leave everything as it was. */
  function Fetch(s: State, reply: FetchReply): (r: State)
    ensures r.user == s.user && r.loading == s.loading && r.saving == s.saving
    ensures IsFailure(reply) ==> r == s
    ensures reply.Replied? && reply.data.None? ==> r == s
    ensures forall c :: IsRowReply(reply, c) ==> r.company == Some(c) && r.form == FormOfRow(c)
  {
    match AdoptedRow(reply)
    case Some(row) => s.(company := Some(row), form := FormOfRow(row))
    case None => s
  }

  /** `checkAuthAndLoadData` on mount: without a user, go to the sign-in page
      and fetch nothing; with one, record it and fetch the company. `loading`
      ends false either way. */
  function Mount(s: State, auth: GetUserReply, fetch: FetchReply): (r: Step<State>)
    ensures !r.state.loading && r.state.saving == s.saving
    ensures !auth.SignedIn? ==>
              && r.effects == Effects([GetUser], [], Some(AuthRoute))
              && r.state == s.(loading := false)
    ensures auth.SignedIn? ==>
              && r.effects == Effects([GetUser, SelectCompany], [], None)
              && r.state.user == Some(auth.user)
    ensures auth.SignedIn? && AdoptsNothing(fetch) ==>
              r.state.company == s.company && r.state.form == s.form
    ensures forall c :: auth.SignedIn? && IsRowReply(fetch, c) ==>
              r.state.company == Some(c) && r.state.form == FormOfRow(c)
  {
    match auth
    case SignedIn(u) =>
      Step(Fetch(s.(user := Some(u)), fetch).(loading := false), Effects([GetUser, SelectCompany], [], None))
    case _ =>
      Step(s.(loading := false), Effects([GetUser], [], Some(AuthRoute)))
  }

  /** `handleInputChange`: the input named `name` takes `value`; an unknown
      name changes none of the eight fields. */
  function Edit(s: State, name: string, value: string): (r: State)
    ensures r.user == s.user && r.company == s.company
    ensures r.loading == s.loading && r.saving == s.saving
    ensures forall c :: r.form.Get(c) == (if name == InputName(c) then value else s.form.Get(c))
  {
    match ColumnOfInput(name)
    case Some(c) => s.(form := s.form.With(c, value))
    case None => s
  }

  /** Writing a field's current value back into it changes nothing. */
  lemma EditCurrentValueIsIdentity(s: State, c: Column)
    ensures Edit(s, InputName(c), s.form.Get(c)) == s
  {
  }

  /** Of two writes to the same input, the last one wins. */
  lemma EditLastWriteWins(s: State, name: string, v1: string, v2: string)
    ensures Edit(Edit(s, name, v1), name, v2) == Edit(s, name, v2)
  {
  }

  /** The row written by a save: owner, the six text fields verbatim, and the
      two optional fields as null when empty. `updatedAt` is the clock's
      reading, an input here. */
  function BuildPayload(u: User, f: Form, updatedAt: string): (p: Payload)
    ensures p.userId == u.id && p.updatedAt == updatedAt
    ensures p.name == f.name && p.bio == f.bio && p.about == f.about
    ensures p.email == f.email && p.phone == f.phone && p.address == f.address
    ensures p.website == None <==> f.website == ""
    ensures p.logoUrl == None <==> f.logoUrl == ""
    ensures p.website.Some? ==> p.website.value == f.website
    ensures p.logoUrl.Some? ==> p.logoUrl.value == f.logoUrl
  {
    Payload(
      u.id, f.name, f.bio, f.about, f.email, f.phone, f.address,
      if f.website == "" then None else Some(f.website),
      if f.logoUrl == "" then None else Some(f.logoUrl),
      updatedAt)
  }

  /** An update keyed by the loaded company's id, or an insert of one row. */
  function WriteRequest(company: Option<CompanyRow>, p: Payload): Request
  {
    match company
    case Some(c) => UpdateCompany(c.id, p)
    case None => InsertCompany([p])
  }

  /** The outcome of the update or insert: success, or an error carrying a
      message (empty when it has none), returned or thrown alike. */
  datatype WriteReply = WriteOk | WriteFailed(message: string)

  const SavedToast := Toast("Changes saved!", "Your company information has been updated successfully.", false)

  const SaveFallbackMessage := "An unexpected error occurred. Please try again."

  function SaveErrorToast(message: string): Toast
  {
    Toast("Error saving changes", OrElse(message, SaveFallbackMessage), true)
  }

  /** `handleSave`. Without a user nothing happens. Otherwise the payload is
      written; on success the company is fetched again (`refetch` is that
      reply), on failure the error is shown and the state kept. `saving` ends
      false on every path that sets it. */
  function Save(s: State, updatedAt: string, write: WriteReply, refetch: FetchReply): (r: Step<State>)
    ensures s.user.None? ==> r == Step(s, NoEffects)
    ensures r.effects.navigate == None
    ensures s.user.Some? ==>
              && !r.state.saving
              && r.state.user == s.user && r.state.loading == s.loading
              && 1 <= |r.effects.requests|
              && r.effects.requests[0] == WriteRequest(s.company, BuildPayload(s.user.value, s.form, updatedAt))
    ensures s.user.Some? && write.WriteFailed? ==>
              && r.state == s.(saving := false)
              && r.effects.requests == r.effects.requests[..1]
              && r.effects.toasts == [SaveErrorToast(write.message)]
    ensures s.user.Some? && write.WriteOk? ==>
              && r.effects.requests[1..] == [SelectCompany]
              && r.effects.toasts == [SavedToast]
    ensures s.user.Some? && write.WriteOk? && AdoptsNothing(refetch) ==>
              r.state == s.(saving := false)
    ensures forall c :: s.user.Some? && write.WriteOk? && IsRowReply(refetch, c) ==>
              r.state.company == Some(c) && r.state.form == FormOfRow(c)
  {
    match s.user
    case None => Step(s, NoEffects)
    case Some(u) =>
      var writeRequest := WriteRequest(s.company, BuildPayload(u, s.form, updatedAt));
      match write
      case WriteOk =>
        Step(Fetch(s, refetch).(saving := false), Effects([writeRequest, SelectCompany], [SavedToast], None))
      case WriteFailed(message) =>
        Step(s.(saving := false), Effects([writeRequest], [SaveErrorToast(message)], None))
  }

  /** A save with a loaded company updates that company's row; without one it
      inserts exactly one row owned by the signed-in user. */
  lemma SaveTargetsLoadedCompany(s: State, updatedAt: string, write: WriteReply, refetch: FetchReply)
    requires s.user.Some?
    ensures var req := Save(s, updatedAt, write, refetch).effects.requests[0];
            && (s.company.Some? ==> req.UpdateCompany? && req.id == s.company.value.id)
            && (s.company.None? ==> req.InsertCompany? && |req.rows| == 1 && req.rows[0].userId == s.user.value.id)
  {
  }

  /** `handleSignOut`: sign out, then go to the home page. When the sign-out
      call throws, the rejection is unhandled and nothing follows. */
  function SignOutStep(s: State, signOutThrew: bool): (r: Step<State>)
    ensures r.state == s
    ensures r.effects.requests == [SignOut] && r.effects.toasts == []
    ensures r.effects.navigate.Some? <==> !signOutThrew
    ensures r.effects.navigate.Some? ==> r.effects.navigate.value == HomeRoute
  {
    Step(s, Effects([SignOut], [], if signOutThrew then None else Some(HomeRoute)))
  }

  /** What the page renders: the spinner while loading, nothing without a
      user, and otherwise the editor with the save button enabled unless a
      save is in flight. */
  datatype View = Spinner | Blank | Editor(user: User, form: Form, saveEnabled: bool)

  function Render(s: State): (v: View)
    ensures v.Editor? <==> !s.loading && s.user.Some?
    ensures v.Editor? ==> v.form == s.form && v.saveEnabled == !s.saving
  {
    if s.loading then Spinner
    else if s.user.None? then Blank
    else Editor(s.user.value, s.form, !s.saving)
  }

  /** Opening the editor while signed out redirects to the sign-in page and
      never renders the form. */
  lemma SignedOutNeverSeesEditor(auth: GetUserReply, fetch: FetchReply)
    requires !auth.SignedIn?
    ensures var step := Mount(Initial, auth, fetch);
            && step.effects.navigate == Some(AuthRoute)
            && SelectCompany !in step.effects.requests
            && Render(step.state) == Blank
  {
  }

  /** The events the editor reacts to, each with the backend replies it
      consumes. Sign-out leaves the page's state as it is. A run may apply any
      event to any state, a mount after edits, saves or a sign-out included,
      so runs are a superset of the page's real event orders, in which a
      later visit mounts afresh from `Initial`. */
  datatype Event =
    | Mounted(auth: GetUserReply, fetch: FetchReply)
    | Edited(name: string, value: string)
    | Saved(updatedAt: string, write: WriteReply, refetch: FetchReply)
    | SignedOutClicked(signOutThrew: bool)

  /** The state between events: a company is only held together with the
      user that loaded it. (Each handler is one atomic step here, so `saving`
      is never observed true between events; `Save` states that it ends false.) */
  predicate Settled(s: State)
  {
    s.company.Some? ==> s.user.Some?
  }

  function Apply(s: State, e: Event): (r: Step<State>)
    ensures Settled(s) ==> Settled(r.state)
  {
    match e
    case Mounted(auth, fetch) => Mount(s, auth, fetch)
    case Edited(name, value) => Step(Edit(s, name, value), NoEffects)
    case Saved(updatedAt, write, refetch) => Save(s, updatedAt, write, refetch)
    case SignedOutClicked(signOutThrew) => SignOutStep(s, signOutThrew)
  }

  /** The state after a sequence of events. */
  function Run(s: State, events: seq<Event>): State
    decreases |events|
  {
    if events == [] then s else Run(Apply(s, events[0]).state, events[1..])
  }

  /** Every sequence of events from a settled state ends settled; in
      particular a session that starts on the initial page never holds a
      company without a user. */
  lemma {:induction false} RunStaysSettled(s: State, events: seq<Event>)
    requires Settled(s)
    ensures Settled(Run(s, events))
    decreases |events|
  {
    if events != [] {
      RunStaysSettled(Apply(s, events[0]).state, events[1..]);
    }
  }

  /** A mounted page stays out of its loading state whatever follows. */
  lemma {:induction false} RunStaysLoaded(s: State, events: seq<Event>)
    requires !s.loading
    ensures !Run(s, events).loading
    decreases |events|
  {
    if events != [] {
      var e := events[0];
      assert !Apply(s, e).state.loading;
      RunStaysLoaded(Apply(s, e).state, events[1..]);
    }
  }
}
