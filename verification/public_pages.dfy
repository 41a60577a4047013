/** The fetch-and-fall-back logic shared by the public pages (home, about,
    contact): each fetches the company on mount and shows either the adopted
    row or a hard-coded default record. */
module PublicPages {
  import opened Optional
  import opened Provider

  datatype Page = HomePage | AboutPage | ContactPage

  /** The long-form text of each page's default record; the only column in
      which the three defaults differ. */
  function DefaultAbout(page: Page): string
  {
    match page
    case HomePage =>
      "We are a forward-thinking company dedicated to delivering exceptional results through cutting-edge technology and unparalleled expertise."
    case AboutPage =>
      "We are a forward-thinking company dedicated to delivering exceptional results through cutting-edge technology and unparalleled expertise. Our team combines years of experience with fresh perspectives to tackle complex challenges and create meaningful solutions for our clients."
    case ContactPage =>
      "We are a forward-thinking company dedicated to delivering exceptional results."
  }

  /** The record a page shows when no company row was adopted. */
  function DefaultCompany(page: Page): (d: CompanyRow)
    ensures d.id == "default"
    ensures d.website.Some? && d.website.value != ""
    ensures d.logoUrl == None
  {
    CompanyRow(
      id := "default",
      ownerId := None,
      name := Some("Your Company"),
      bio := Some("Building the future with innovative solutions"),
      about := Some(DefaultAbout(page)),
      email := Some("contact@yourcompany.com"),
      phone := Some("+1 (555) 123-4567"),
      address := Some("123 Business St, City, State 12345"),
      website := Some("https://yourcompany.com"),
      logoUrl := None,
      updatedAt := None)
  }

  /** The fetched part of a public page's state. */
  datatype View = View(company: Option<CompanyRow>, loading: bool)

  /** Before the fetch completes: nothing adopted, spinner shown. */
  const Loading := View(None, true)

  /** `fetchCompanyData` on a public page, from the mount state: one company
      query, no toast and no navigation. */
  function Load(reply: FetchReply): (r: Step<View>)
    ensures r.effects == Effects([SelectCompany], [], None)
    ensures !r.state.loading
    ensures AdoptsNothing(reply) ==> r.state.company == None
    ensures forall c :: IsRowReply(reply, c) ==> r.state.company == Some(c)
  {
    Step(View(AdoptedRow(reply), false), Effects([SelectCompany], [], None))
  }

  /** `company || defaultCompany`: the record the page renders. */
  function Display(v: View, page: Page): (d: CompanyRow)
    ensures v.company.Some? ==> d == v.company.value
    ensures v.company.None? ==> d == DefaultCompany(page)
  {
    match v.company
    case Some(c) => c
    case None => DefaultCompany(page)
  }

  /** Whether an optional text column renders: present and non-empty. */
  predicate Shown(value: Option<string>)
  {
    value.Some? && value.value != ""
  }

  /** Whatever goes wrong with the fetch, or when the table is empty, every
      public page displays its default record. Only the contact page renders
      the website, and there the default's website card shows. */
  lemma FallbackOnEveryPage(reply: FetchReply, page: Page)
    requires AdoptsNothing(reply)
    ensures Display(Load(reply).state, page) == DefaultCompany(page)
    ensures page == ContactPage ==> Shown(Display(Load(reply).state, page).website)
  {
  }
}
