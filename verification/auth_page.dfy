/** The sign-in page (src/pages/Auth.tsx): email/password sign-in and
    sign-up, OAuth sign-in, and the redirect of an already signed-in user.
    Each handler maps the backend's reply to a toast, a tab change, a
    navigation and the `loading` flag. The base URL is an input, computed by
    `Urls.BaseUrl`. */
module AuthPage {
  import opened Optional
  import opened Text
  import opened Provider
  import opened Urls
  import Admin

  datatype Tab = SignInTab | SignUpTab

  /** Which email form was submitted. */
  datatype Mode = SignInMode | SignUpMode

  /** The page's state: `email`, `password`, `loading`, `activeTab`. */
  datatype State = State(email: string, password: string, loading: bool, tab: Tab)

  const Initial := State("", "", false, SignInTab)

  /** A backend auth call's outcome: success, an error object returned in the
      reply, or an exception thrown by the client library. Each carries a
      message string, possibly empty; an empty message is falsy and gives way
      to the fallback text. */
  datatype Reply = Ok | Rejected(message: string) | Threw(message: string)

  /** The substrings that single out the two known errors. */
  const AlreadyRegistered := "already registered"
  const InvalidLogin := "Invalid login credentials"

  const FallbackMessage := "An unexpected error occurred. Please try again."

  const AccountExistsToast := Toast("Account exists", "This email is already registered. Please sign in instead.", true)
  const CheckEmailToast := Toast("Check your email", "We've sent you a confirmation link to complete your registration.", false)
  const InvalidCredentialsToast := Toast("Invalid credentials", "Please check your email and password and try again.", true)
  const WelcomeToast := Toast("Welcome back!", "You've been successfully signed in.", false)

  function AuthErrorToast(description: string): Toast
  {
    Toast("Authentication error", description, true)
  }

  /** On mount: ask the backend who is signed in; a signed-in user is sent on
      to the admin page. A failing check is an unhandled rejection and does
      nothing. */
  function MountRedirect(s: State, reply: GetUserReply): (r: Step<State>)
    ensures r.state == s
    ensures r.effects.requests == [GetUser] && r.effects.toasts == []
    ensures r.effects.navigate.Some? <==> reply.SignedIn?
    ensures r.effects.navigate.Some? ==> r.effects.navigate.value == AdminRoute
  {
    Step(s, Effects([GetUser], [], if reply.SignedIn? then Some(AdminRoute) else None))
  }

  /** The sign-in page and the admin editor never bounce a visitor back and
      forth on the same identity check: the editor sends to the sign-in page
      only someone the sign-in page keeps, and the sign-in page sends to the
      editor only someone the editor keeps. */
  lemma NoRedirectLoop(a: Admin.State, s: State, auth: GetUserReply, fetch: FetchReply)
    ensures Admin.Mount(a, auth, fetch).effects.navigate == Some(AuthRoute) ==>
              MountRedirect(s, auth).effects.navigate == None
    ensures MountRedirect(s, auth).effects.navigate == Some(AdminRoute) ==>
              Admin.Mount(a, auth, fetch).effects.navigate == None
  {
  }

  /** The controlled inputs: the shared email and password fields and the tab list. */
  datatype Input = EmailTyped(email: string) | PasswordTyped(password: string) | TabSelected(tab: Tab)

  /** An input event sets its own part of the state and nothing else. */
  function Change(s: State, i: Input): (r: State)
    ensures r.loading == s.loading
    ensures r.email == (if i.EmailTyped? then i.email else s.email)
    ensures r.password == (if i.PasswordTyped? then i.password else s.password)
    ensures r.tab == (if i.TabSelected? then i.tab else s.tab)
  {
    match i
    case EmailTyped(e) => s.(email := e)
    case PasswordTyped(p) => s.(password := p)
    case TabSelected(t) => s.(tab := t)
  }

  /** The email and password fields are independent: typing them in either
      order gives the same state. */
  lemma TypingOrderIrrelevant(s: State, email: string, password: string)
    ensures Change(Change(s, EmailTyped(email)), PasswordTyped(password))
         == Change(Change(s, PasswordTyped(password)), EmailTyped(email))
  {
  }

  /** The email sign-in and sign-up buttons are disabled while a request is
      in flight or while either field is empty. */
  predicate EmailSubmitEnabled(s: State)
  {
    !s.loading && s.email != "" && s.password != ""
  }

  /** The OAuth buttons are disabled only while a request is in flight. */
  predicate OAuthEnabled(s: State)
  {
    !s.loading
  }

  /** The request `handleEmailAuth` issues: sign-up carries the admin
      redirect built from the base URL; sign-in carries only the credentials. */
  function EmailRequest(s: State, mode: Mode, baseUrl: string): Request
  {
    match mode
    case SignUpMode => SignUp(s.email, s.password, AdminRedirect(baseUrl))
    case SignInMode => SignInWithPassword(s.email, s.password)
  }

  /** Filling in both fields on a fresh page enables the email buttons
      exactly when both are non-empty, and the request then sent carries what
      was typed. */
  lemma TypedCredentialsAreSent(email: string, password: string, baseUrl: string)
    ensures var s := Change(Change(Initial, EmailTyped(email)), PasswordTyped(password));
            && (EmailSubmitEnabled(s) <==> email != "" && password != "")
            && EmailRequest(s, SignInMode, baseUrl) == SignInWithPassword(email, password)
            && EmailRequest(s, SignUpMode, baseUrl) == SignUp(email, password, AdminRedirect(baseUrl))
  {
  }

  /** The classified outcome of an email attempt. */
  datatype Outcome = AccountExists | CheckEmail | InvalidCredentials | Welcome | Failed(description: string)

  /** How `handleEmailAuth` reads the reply. Only returned errors are matched
      against the known substrings; every other error, and every exception,
      shows its message, or the fallback when the message is empty. */
  function Classify(mode: Mode, reply: Reply): (o: Outcome)
    ensures o == AccountExists <==> mode == SignUpMode && reply.Rejected? && Includes(reply.message, AlreadyRegistered)
    ensures o == InvalidCredentials <==> mode == SignInMode && reply.Rejected? && Includes(reply.message, InvalidLogin)
    ensures o == Welcome <==> mode == SignInMode && reply.Ok?
    ensures o == CheckEmail <==> mode == SignUpMode && reply.Ok?
    ensures o.Failed? <==> !reply.Ok? && !o.AccountExists? && !o.InvalidCredentials?
    ensures o.Failed? ==> o.description == OrElse(reply.message, FallbackMessage)
  {
    match reply
    case Ok => (
      match mode
      case SignUpMode => CheckEmail
      case SignInMode => Welcome)
    case Rejected(m) =>
      if mode == SignUpMode && Includes(m, AlreadyRegistered) then AccountExists
      else if mode == SignInMode && Includes(m, InvalidLogin) then InvalidCredentials
      else Failed(OrElse(m, FallbackMessage))
    case Threw(m) => Failed(OrElse(m, FallbackMessage))
  }

  function OutcomeToast(o: Outcome): Toast
  {
    match o
    case AccountExists => AccountExistsToast
    case CheckEmail => CheckEmailToast
    case InvalidCredentials => InvalidCredentialsToast
    case Welcome => WelcomeToast
    case Failed(d) => AuthErrorToast(d)
  }

  /** `handleEmailAuth`: one request, one toast, `loading` back to false. Only
      a successful sign-in navigates; only an existing account switches the
      tab to sign-in. */
  function EmailAuth(s: State, mode: Mode, baseUrl: string, reply: Reply): (r: Step<State>)
    ensures !r.state.loading
    ensures r.state.email == s.email && r.state.password == s.password
    ensures r.effects.requests == [EmailRequest(s, mode, baseUrl)]
    ensures r.effects.toasts == [OutcomeToast(Classify(mode, reply))]
    ensures r.effects.navigate.Some? <==> mode == SignInMode && reply.Ok?
    ensures r.effects.navigate.Some? ==> r.effects.navigate.value == AdminRoute
    ensures r.state.tab == (if Classify(mode, reply) == AccountExists then SignInTab else s.tab)
  {
    var o := Classify(mode, reply);
    var tab := if o == AccountExists then SignInTab else s.tab;
    var nav := if o == Welcome then Some(AdminRoute) else None;
    Step(s.(loading := false, tab := tab), Effects([EmailRequest(s, mode, baseUrl)], [OutcomeToast(o)], nav))
  }

  /** The fallback for an OAuth error without a message names the provider. */
  function OAuthFallback(provider: OAuthProvider): string
  {
    "Failed to sign in with " + provider.Name() + ". Please try again."
  }

  /** `handleOAuthAuth`: one request whose redirect is the admin path under
      the base URL. On success the browser leaves for the provider and
      `loading` stays set; on any error a toast shows and `loading` is reset. */
  function OAuth(s: State, provider: OAuthProvider, baseUrl: string, reply: Reply): (r: Step<State>)
    ensures r.effects.requests == [SignInWithOAuth(provider, AdminRedirect(baseUrl))]
    ensures r.effects.navigate == None
    ensures r.state.loading <==> reply.Ok?
    ensures r.state.email == s.email && r.state.password == s.password && r.state.tab == s.tab
    ensures reply.Ok? ==> r.effects.toasts == []
    ensures !reply.Ok? ==> r.effects.toasts == [AuthErrorToast(OrElse(reply.message, OAuthFallback(provider)))]
  {
    var req := [SignInWithOAuth(provider, AdminRedirect(baseUrl))];
    match reply
    case Ok => Step(s.(loading := true), Effects(req, [], None))
    case Rejected(m) => Step(s.(loading := false), Effects(req, [AuthErrorToast(OrElse(m, OAuthFallback(provider)))], None))
    case Threw(m) => Step(s.(loading := false), Effects(req, [AuthErrorToast(OrElse(m, OAuthFallback(provider)))], None))
  }

  /** After any email attempt the buttons are enabled again exactly when both
      fields are filled in; after a successful OAuth start they stay disabled. */
  lemma ButtonsAfterAttempts(s: State, mode: Mode, provider: OAuthProvider, baseUrl: string, reply: Reply)
    ensures EmailSubmitEnabled(EmailAuth(s, mode, baseUrl, reply).state) <==> s.email != "" && s.password != ""
    ensures OAuthEnabled(OAuth(s, provider, baseUrl, reply).state) <==> !reply.Ok?
  {
  }

  /** A sign-up error that mentions an existing registration is not shown as
      an authentication error; the same message thrown as an exception is. */
  lemma AlreadyRegisteredOnlyWhenReturned(s: State, baseUrl: string)
    ensures var m := "User already registered";
            && EmailAuth(s, SignUpMode, baseUrl, Rejected(m)).effects.toasts == [AccountExistsToast]
            && EmailAuth(s, SignUpMode, baseUrl, Rejected(m)).state.tab == SignInTab
            && EmailAuth(s, SignUpMode, baseUrl, Threw(m)).effects.toasts == [AuthErrorToast(m)]
  {
    var m := "User already registered";
    assert m[5..][..|AlreadyRegistered|] == AlreadyRegistered;
    IncludesIffOccurs(m, AlreadyRegistered);
    assert OccursAt(m, AlreadyRegistered, 5);
  }
}
