# Company site: page logic in Dafny

A small marketing site (home, about and contact pages) plus an admin panel. A hosted
backend provides authentication and one `companies` table. All persistence is
delegated to that backend. What the site itself decides is modelled here as pure
functions, with every backend reply taken as an input:

- **Redirect base URL** (`Urls`): the environment override, or
  `protocol//hostname`, with `:port` added only for local hosts.
- **Company fetch and fallback** (`Provider.AdoptedRow`, `PublicPages`): which
  fetch replies a page adopts, and the hard-coded default record it shows
  otherwise. The home, about and contact pages share this logic. Their default
  records differ only in the `about` text.
- **Admin editor** (`Admin`): the state `{user, company, formData, loading, saving}`.
  Its transitions are mount (auth check, then fetch), field edit, save and sign-out.
  The module also builds the save payload and chooses update or insert. The
  `Settled` invariant is proved over any sequence of events.
- **Read-back reference** (`Store`): an idealised `companies` table. Updates and
  inserts apply literally, and the single-row query returns the first row. It
  states the round trip "save, then fetch, gives back the form".
- **Sign-in page** (`AuthPage`): classifies each email sign-in, sign-up and OAuth
  result into a toast, a tab switch, a navigation and the `loading` flag. It also
  covers the mount redirect and the button-enable predicates.
- **Contact page** (`Contact`): the fetched or default details, the website card,
  the four-field message form and its reset on submit.

Every handler that calls the backend, shows a toast or navigates returns a
`Step`: the page's next state plus its `Effects`. Effects are the backend
requests issued (in order), the toasts shown and the route navigated to. The
handlers of plain input events (`Admin.Edit`, `Contact.Edit`, `AuthPage.Change`)
and the fetch transition `Admin.Fetch`, whose query `Admin.Mount` and
`Admin.Save` record, return the next state alone. The replies, the clock reading
stored in `updated_at` and the browser location are all parameters.

Two facts about the code:

- A blank website or logo URL is saved as `null` (Admin.tsx:117-118).
- Sign-up singles out only the "already registered" message (Auth.tsx:49-58).

## Model

| member | source | states |
|---|---|---|
| Text.IncludesIffOccurs | src/pages/Auth.tsx:50 | the substring scan behind `message.includes(...)` holds exactly when the text occurs at some index of the message |
| Urls.BaseUrl | src/lib/utils.ts:9-27 | a non-empty override is returned as is; otherwise the URL starts with `protocol//hostname`, is exactly that for a non-local host or an empty port, and ends in `:port` for a local host with a port |
| Urls.PortShownIff | src/lib/utils.ts:21-26 | without an override, the URL differs from `protocol//hostname` if and only if the host is local and the port is non-empty |
| Urls.AdminRedirect | src/pages/Auth.tsx:37-38 | the sign-up and OAuth redirect target is the base URL followed by exactly `/admin` |
| Urls.LocalHostExamples | src/lib/utils.ts:21 | `localhost`, `127.0.0.1`, `192.168.*`, `10.*` and even `10.example.com` count as local; `example.com` and `172.16.0.1` do not |
| Urls.LocalBaseUrlExample | src/lib/utils.ts:21-22 | a `10.`-prefixed host keeps its port: `http://10.example.com:8080` |
| Urls.ProductionBaseUrlExample | src/lib/utils.ts:26 | a production host drops a non-empty port: `https://example.com` |
| Provider.AdoptedRow | src/pages/Contact.tsx:47-51 | an exception or an error other than PGRST116 adopts nothing; a reply without data adopts nothing; a plain row reply adopts that row; anything adopted is the reply's data |
| PublicPages.DefaultCompany | src/pages/Contact.tsx:59-68 | the fallback record has id `default`, a non-empty website and no logo |
| PublicPages.Load | src/pages/Contact.tsx:39-57 | the fetch issues one company query and shows no toast; afterwards `loading` is false; failures and empty replies leave `company` null; a row reply sets it to that row |
| PublicPages.Display | src/pages/Contact.tsx:70 | the page shows the fetched company when one is set, else the page's default record |
| PublicPages.FallbackOnEveryPage | src/pages/Home.tsx:30-61 | on a failed or empty fetch, every public page displays its default record (`company || defaultCompany`, also at About.tsx:57 and Contact.tsx:70); on the contact page, the only one rendering the website, the default website shows |
| Admin.ColumnOfInput | src/pages/Admin.tsx:95-100 | an input name resolves to the column whose input carries that name, and to none when no input has it |
| Admin.InputNamesRoundTrip | src/pages/Admin.tsx:95-100 | each column's input name resolves back to that column |
| Admin.FormOfRow | src/pages/Admin.tsx:79-88 | each form field is the row's column, with null replaced by the empty string |
| Admin.Fetch | src/pages/Admin.tsx:67-93 | failures and "no rows" leave the state unchanged; a row reply sets `company` and fills the form from it; user, loading and saving are untouched |
| Admin.Mount | src/pages/Admin.tsx:48-65 | without a user: only the auth check is issued, navigation goes to `/auth` and loading ends false; with one: the user is recorded, the company is fetched and adopted per the fetch outcome, loading ends false |
| Admin.Edit | src/pages/Admin.tsx:95-101 | the field whose input is named `name` takes the value and every other field, and the rest of the state, is unchanged |
| Admin.EditCurrentValueIsIdentity | src/pages/Admin.tsx:95-100 | writing a field's current value back into it leaves the state unchanged |
| Admin.EditLastWriteWins | src/pages/Admin.tsx:95-100 | of two writes to the same input, only the last one shows |
| Admin.BuildPayload | src/pages/Admin.tsx:109-120 | `user_id` is the user's id; six text fields are copied verbatim; website and logo are null if and only if empty, and verbatim otherwise |
| Admin.Save | src/pages/Admin.tsx:103-155 | no user: no effect at all; otherwise the first request writes the payload, saving ends false, and a failure keeps the state and toasts the message or fallback, while success toasts and refetches, adopting the refetched row |
| Admin.SaveTargetsLoadedCompany | src/pages/Admin.tsx:122-137 | with a loaded company the save is an update keyed by its id; without one it inserts exactly one row owned by the user |
| Admin.SignOutStep | src/pages/Admin.tsx:157-160 | sign-out issues one sign-out request and navigates home unless that request throws; the state is untouched |
| Admin.Render | src/pages/Admin.tsx:162-172 | the editor renders if and only if loading is over and a user is present, showing the form with save enabled exactly when no save is in flight |
| Admin.SignedOutNeverSeesEditor | src/pages/Admin.tsx:50-55 | a signed-out visit redirects to `/auth`, never fetches the company and renders nothing |
| Admin.Apply | src/pages/Admin.tsx:44-160 | mount, edit, save and sign-out each map a settled state (a company held only with a user) to a settled state |
| Admin.RunStaysSettled | src/pages/Admin.tsx:48-160 | any sequence of mount, edit, save and sign-out events keeps the editor settled |
| Admin.RunStaysLoaded | src/pages/Admin.tsx:62-64 | once loading is over, no later event shows the spinner again |
| Store.UpdateRows | src/pages/Admin.tsx:124-127 | an update keyed by id rewrites exactly the rows with that id and keeps the table's length |
| Store.Read | src/pages/Admin.tsx:69-75 | an empty table answers "no rows", which is not a failure; otherwise the first row is the reply |
| Store.PayloadReadBack | src/pages/Admin.tsx:79-118 | storing a payload and reading it back gives the original form; an emptied website or logo reads back empty |
| Store.SaveRoundTrip | src/pages/Admin.tsx:103-145 | a successful save leaves one row, owned by the user and keyed by the loaded id or the new one; its fields are the form's, and the refetch puts it back with the form unchanged |
| Store.EditThenSaveReadsBack | src/pages/Admin.tsx:95-145 | after editing one field and saving, the stored row has the new value in that field and the old value in every other field |
| AuthPage.Change | src/pages/Auth.tsx:183-207 | typing into the email or password field, or selecting a tab, sets exactly that part of the state |
| AuthPage.MountRedirect | src/pages/Auth.tsx:21-30 | the mount check issues one identity request, leaves the state alone, and navigates to `/admin` if and only if a user is already signed in |
| AuthPage.NoRedirectLoop | src/pages/Auth.tsx:21-30 | the editor's redirect to `/auth` happens only when the sign-in page stays put, and the sign-in page's redirect to `/admin` only when the editor stays put |
| AuthPage.TypingOrderIrrelevant | src/pages/Auth.tsx:197-207 | typing the email and the password in either order gives the same state |
| AuthPage.TypedCredentialsAreSent | src/pages/Auth.tsx:197-258 | after typing both fields on a fresh page the email buttons are enabled if and only if both are non-empty, and the sign-in or sign-up request carries what was typed |
| AuthPage.Classify | src/pages/Auth.tsx:49-95 | "Account exists" if and only if sign-up was rejected with "already registered"; "Invalid credentials" if and only if sign-in was rejected with "Invalid login credentials"; a welcome or check-email message exactly on success; otherwise an error carrying the message or the fallback |
| AuthPage.EmailAuth | src/pages/Auth.tsx:32-99 | one request, with the `/admin` redirect on sign-up; one toast per the classification; loading ends false; navigation to `/admin` if and only if sign-in succeeded; the tab switches to sign-in only for an existing account |
| AuthPage.OAuth | src/pages/Auth.tsx:101-125 | one OAuth request redirecting to base URL plus `/admin`; loading stays set if and only if the call succeeded; an error toasts its message or the provider-named fallback |
| AuthPage.ButtonsAfterAttempts | src/pages/Auth.tsx:211-258 | after an email attempt the submit buttons are enabled if and only if both fields are non-empty; the OAuth buttons are enabled again if and only if the OAuth call failed |
| AuthPage.AlreadyRegisteredOnlyWhenReturned | src/pages/Auth.tsx:49-58 | a returned "User already registered" error gives "Account exists" and the sign-in tab; the same message thrown gives an authentication error |
| Contact.Mount | src/pages/Contact.tsx:39-57 | one company query is issued; loading ends false; failures and empty replies leave the company as it was; a row reply sets it; the form is untouched |
| Contact.MountAgreesWithPublicPages | src/pages/Contact.tsx:39-57 | mounting the contact page from its initial state yields the same view as the shared public-page fetch |
| Contact.FallbackShowsWebsite | src/pages/Contact.tsx:174-186 | after a failed or empty fetch on a fresh page the default details show, and so does the website card |
| Contact.FetchedWebsiteDecides | src/pages/Contact.tsx:174 | with a fetched row, the website card shows if and only if that row's website is non-empty |
| Contact.Edit | src/pages/Contact.tsx:72-78 | the named field of the four takes the value; the others, and the fetched view, are unchanged |
| Contact.EditCurrentValueIsIdentity | src/pages/Contact.tsx:72-78 | writing a field's current value back into it leaves the state unchanged |
| Contact.EditLastWriteWins | src/pages/Contact.tsx:72-78 | of two writes to the same input, only the last one shows |
| Contact.Submit | src/pages/Contact.tsx:80-100 | all four fields are cleared, submitting ends false, one "Message Sent!" toast, and no backend request is made |
| Contact.SubmitForgetsEdits | src/pages/Contact.tsx:92-97 | whatever was typed before, the state after submit is the same |

## Left out

- `cn` in src/lib/utils.ts: it wraps class-name utilities that are not part of this model.
- Calls into the backend's client library: only their replies are modelled, as input datatypes.
- `console.error` logging: it has no effect on state.
- Toast rendering, markup, styling, icons and spinners: `Render`, `Shown` and the enable predicates keep only the decisions they rest on.
- Clock and locale: `updated_at` is an opaque input string, and the last-sign-in display is not modelled.
- The one-second wait in the contact form's submit: submit is modelled as one step.
- In-flight states (`loading` or `saving` true while a request is awaited): each handler is one atomic step. The in-flight state is visible only through the button-enable predicates.
- Tables with more than one company row: the backend's unordered single-row query decides which row comes back. `Store.Read` returns the first row of its sequence, and the round-trip lemmas assume at most one row. They also assume that the loaded company mirrors the table: no company loaded means an empty table. In the code a failed first fetch leaves `company` null even when a row exists, and the next save then inserts a second row (Admin.tsx:130-134).
- Store.Commit: an insert of several payloads would give them all the same id. The page only ever inserts one.
- Admin.Edit: in the code, an input name outside the eight adds an extra key that nothing reads. The model leaves the eight fields unchanged instead.
- Contact.Submit: the browser's form validation is not modelled. The four inputs are `required` and the email input has `type="email"` (Contact.tsx:198-244), so the browser blocks `handleSubmit` on an empty or malformed form; the model submits any form.
- Contact.Edit: in the code, an input name outside the four adds an extra key that nothing reads. The model leaves the four fields unchanged instead.
- AuthPage.Classify: a returned error with no `message` at all is not modelled. In the code, `includes` would then throw, and the catch would show that exception's text. The backend's error type always carries a string message, and an empty one is modelled.
- src/components/Navigation.tsx, src/pages/DebugAuth.tsx and src/components/SupabaseTest.tsx: they are navigation UI, an auth-state subscription, and diagnostic tools, and are not part of this model.
- The static content of the home and about pages: only their fetch-and-fallback is modelled, through `PublicPages`.
