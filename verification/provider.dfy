/** The shapes exchanged with the hosted backend: the `companies` row, the
    replies the pages receive, the requests they issue, and the effects a
    handler has on the outside world (navigation and toast notifications).
    The backend itself is not modelled: its replies are inputs. */
module Provider {
  import opened Optional

  /** Error code the backend returns from a single-row query that matched no row. */
  const NoRowsCode := "PGRST116"

  /** The signed-in identity; only the fields the pages read. */
  datatype User = User(id: string, email: string)

  /** Reply to "who is signed in?": a user, nobody, or an exception. */
  datatype GetUserReply = SignedIn(user: User) | SignedOut | GetUserThrew

  /** The eight text columns of a company that the pages read and the admin edits. */
  datatype Column = Name | Bio | About | Email | Phone | Address | Website | LogoUrl

  /** A row of the `companies` table as `select('*')` returns it. Text columns
      are nullable. */
  datatype CompanyRow = CompanyRow(
    id: string,
    ownerId: Option<string>,
    name: Option<string>,
    bio: Option<string>,
    about: Option<string>,
    email: Option<string>,
    phone: Option<string>,
    address: Option<string>,
    website: Option<string>,
    logoUrl: Option<string>,
    updatedAt: Option<string>)
  {
    /** The value of one text column. */
    function Get(c: Column): Option<string>
    {
      match c
      case Name => name
      case Bio => bio
      case About => about
      case Email => email
      case Phone => phone
      case Address => address
      case Website => website
      case LogoUrl => logoUrl
    }
  }

  /** An error object returned by the backend (as opposed to thrown). */
  datatype ProviderError = ProviderError(code: string, message: string)

  /** The reply to `from('companies').select('*').limit(1).single()`: the
      `{data, error}` pair, or an exception thrown by the client library. */
  datatype FetchReply =
    | Replied(data: Option<CompanyRow>, error: Option<ProviderError>)
    | FetchThrew

  /** The reply the backend gives when the table holds exactly the row `c`. */
  predicate IsRowReply(reply: FetchReply, c: CompanyRow)
  {
    reply == Replied(Some(c), None)
  }

  /** A reply the pages log and ignore: an exception, or an error other than "no rows". */
  predicate IsFailure(reply: FetchReply)
  {
    reply.FetchThrew? || (reply.error.Some? && reply.error.value.code != NoRowsCode)
  }

  /** A reply from which no row is adopted: a failure, or a reply without data. */
  predicate AdoptsNothing(reply: FetchReply)
  {
    IsFailure(reply) || (reply.Replied? && reply.data.None?)
  }

  /** The row a page adopts from a fetch reply, if any. Every page's
      `fetchCompanyData` takes the same decision: an error other than "no
      rows" is logged and ignored; otherwise the data, when present, is
      adopted, even when it comes with a "no rows" error. */
  function AdoptedRow(reply: FetchReply): (r: Option<CompanyRow>)
    ensures IsFailure(reply) ==> r == None
    ensures forall c :: IsRowReply(reply, c) ==> r == Some(c)
    ensures reply.Replied? && reply.data.None? ==> r == None
    ensures r.Some? ==> reply.Replied? && reply.data == r
    ensures reply.Replied? && !IsFailure(reply) ==> r == reply.data
  {
    match reply
    case FetchThrew => None
    case Replied(data, error) =>
      if error.Some? && error.value.code != NoRowsCode then None
      else data
  }

  /** What the save handler writes: the admin form with an owner and a time stamp.
      `None` stands for an explicit `null`. */
  datatype Payload = Payload(
    userId: string,
    name: string,
    bio: string,
    about: string,
    email: string,
    phone: string,
    address: string,
    website: Option<string>,
    logoUrl: Option<string>,
    updatedAt: string)

  /** The two OAuth providers offered, by the name passed to the backend. */
  datatype OAuthProvider = Google | GitHub
  {
    function Name(): string
    {
      match this
      case Google => "google"
      case GitHub => "github"
    }
  }

  /** A call into the backend. */
  datatype Request =
    | GetUser
    | SelectCompany
    | UpdateCompany(id: string, payload: Payload)
    | InsertCompany(rows: seq<Payload>)
    | SignUp(email: string, password: string, emailRedirectTo: string)
    | SignInWithPassword(email: string, password: string)
    | SignInWithOAuth(provider: OAuthProvider, redirectTo: string)
    | SignOut

  /** A transient notification; `destructive` is the error styling. */
  datatype Toast = Toast(title: string, description: string, destructive: bool)

  /** What a handler does beyond its own state: the backend calls it issues,
      in order, the toasts it shows, and the route it navigates to. */
  datatype Effects = Effects(requests: seq<Request>, toasts: seq<Toast>, navigate: Option<string>)

  const NoEffects := Effects([], [], None)

  /** The state a handler leaves its page in, with the effects it had. */
  datatype Step<S> = Step(state: S, effects: Effects)

  /** Routes the pages navigate to. */
  const AuthRoute := "/auth"
  const AdminRoute := "/admin"
  const HomeRoute := "/"
}
