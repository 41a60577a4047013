/** An idealised `companies` table, standing in for the hosted backend, so
    that what the admin editor writes can be read back: the table applies
    updates and inserts literally and a single-row query returns its first
    row. It is the reference against which the editor's save is checked. */
module Store {
  import opened Optional
  import opened Provider
  import opened Admin

  type Table = seq<CompanyRow>

  /** The row a payload becomes once stored under `id`. */
  function RowOf(id: string, p: Payload): (row: CompanyRow)
    ensures row.id == id && row.ownerId == Some(p.userId)
    ensures row.website == p.website && row.logoUrl == p.logoUrl
  {
    CompanyRow(
      id, Some(p.userId), Some(p.name), Some(p.bio), Some(p.about), Some(p.email),
      Some(p.phone), Some(p.address), p.website, p.logoUrl, Some(p.updatedAt))
  }

  /** `update(p).eq('id', id)`: every row with that id takes the payload's
      values, the others are untouched. */
  function UpdateRows(t: Table, id: string, p: Payload): (r: Table)
    ensures |r| == |t|
    ensures forall i :: 0 <= i < |t| ==> r[i] == (if t[i].id == id then RowOf(id, p) else t[i])
    decreases |t|
  {
    if t == [] then []
    else [if t[0].id == id then RowOf(id, p) else t[0]] + UpdateRows(t[1..], id, p)
  }

  /** The effect of a write request on the table; `newId` is the identifier
      the backend assigns to inserted rows. Other requests leave it alone. */
  function Commit(t: Table, req: Request, newId: string): (r: Table)
  {
    match req
    case UpdateCompany(id, p) => UpdateRows(t, id, p)
    case InsertCompany(ps) => t + seq(|ps|, i requires 0 <= i < |ps| => RowOf(newId, ps[i]))
    case _ => t
  }

  /** The reply to the single-row company query over the table. */
  function Read(t: Table): (reply: FetchReply)
    ensures |t| == 0 ==> !IsFailure(reply) && reply.Replied? && reply.data.None?
    ensures |t| > 0 ==> IsRowReply(reply, t[0])
  {
    if |t| == 0 then Replied(None, Some(ProviderError(NoRowsCode, "no rows returned")))
    else Replied(Some(t[0]), None)
  }

  /** Writing a form and reading the row back gives the same form: in
      particular an emptied website or logo is stored as null and reads back
      empty, not as its previous value. */
  lemma PayloadReadBack(u: User, f: Form, updatedAt: string, id: string)
    ensures FormOfRow(RowOf(id, BuildPayload(u, f, updatedAt))) == f
  {
  }

  /** A successful save against a table holding at most the loaded company
      leaves exactly one row, owned by the saving user, whose fields are the
      form's; the refetch that follows puts that row back into the editor
      with the form unchanged. */
  lemma SaveRoundTrip(s: State, t: Table, updatedAt: string, newId: string)
    requires s.user.Some?
    requires s.company.None? ==> t == []
    requires s.company.Some? ==> |t| == 1 && t[0].id == s.company.value.id
    ensures var t' := Commit(t, WriteRequest(s.company, BuildPayload(s.user.value, s.form, updatedAt)), newId);
            var after := Save(s, updatedAt, WriteOk, Read(t')).state;
            && |t'| == 1
            && t'[0].ownerId == Some(s.user.value.id)
            && (s.company.Some? ==> t'[0].id == s.company.value.id)
            && (s.company.None? ==> t'[0].id == newId)
            && FormOfRow(t'[0]) == s.form
            && after.company == Some(t'[0])
            && after.form == s.form
            && !after.saving
  {
    var p := BuildPayload(s.user.value, s.form, updatedAt);
    var t' := Commit(t, WriteRequest(s.company, p), newId);
    var id := if s.company.Some? then s.company.value.id else newId;
    assert t' == [RowOf(id, p)];
    PayloadReadBack(s.user.value, s.form, updatedAt, id);
  }

  /** Edit one field of a form loaded from the table's row, then save: the
      next fetch returns the edited field with its new value and every other
      field as it was. */
  lemma EditThenSaveReadsBack(s: State, t: Table, name: string, value: string, updatedAt: string)
    requires s.user.Some? && |t| == 1
    requires s.company == Some(t[0]) && s.form == FormOfRow(t[0])
    ensures var e := Edit(s, name, value);
            var t' := Commit(t, WriteRequest(e.company, BuildPayload(e.user.value, e.form, updatedAt)), "");
            && |t'| == 1 && t'[0].id == t[0].id
            && forall c :: OrEmpty(t'[0].Get(c)) == (if name == InputName(c) then value else OrEmpty(t[0].Get(c)))
  {
    var e := Edit(s, name, value);
    var t' := Commit(t, WriteRequest(e.company, BuildPayload(e.user.value, e.form, updatedAt)), "");
    SaveRoundTrip(e, t, updatedAt, "");
    forall c
      ensures OrEmpty(t'[0].Get(c)) == (if name == InputName(c) then value else OrEmpty(t[0].Get(c)))
    {
      assert OrEmpty(t'[0].Get(c)) == FormOfRow(t'[0]).Get(c) == e.form.Get(c);
    }
  }
}
