/** The NAS page of src/pages/dashboard/Nas.tsx: the shared create/edit
    form, the create-or-update dispatch on submit, cancel, reload and
    delete-by-id. */
module Nas {
  import opened Wrappers
  import ListOps

  datatype NasRecord = NasRecord(
    id: int,
    nasname: string,
    shortname: Option<string>,
    kind: string,
    ports: Option<int>,
    secret: Option<string>,
    server: Option<string>,
    community: Option<string>,
    description: Option<string>)

  /** The form, a `Partial<NAS>`: every field may be absent. */
  datatype NasForm = NasForm(
    id: Option<int>,
    nasname: Option<string>,
    shortname: Option<string>,
    kind: Option<string>,
    ports: Option<int>,
    secret: Option<string>,
    server: Option<string>,
    community: Option<string>,
    description: Option<string>)

  /** The form for a new entry: type "other", 0 ports, every text empty. */
  const InitialForm := NasForm(None, Some(""), Some(""), Some("other"), Some(0), Some(""), Some(""), Some(""), Some(""))

  /** A record used as the form (`setForm(nas)`). */
  function FormOf(r: NasRecord): NasForm {
    NasForm(Some(r.id), Some(r.nasname), r.shortname, Some(r.kind), r.ports, r.secret, r.server, r.community, r.description)
  }

  datatype Page = Page(items: seq<NasRecord>, error: string, editingId: Option<int>, form: NasForm)

  const Initial := Page([], "", None, InitialForm)

  /** `if (editingId)`: a null id and an id of 0 both read as "not editing". */
  predicate Editing(p: Page) {
    p.editingId.Some? && p.editingId.value != 0
  }

  /** `startEdit`: the record's id becomes the one being edited and the
      record fills the form. */
  function StartEdit(p: Page, r: NasRecord): (p': Page)
    ensures p'.editingId == Some(r.id) && p'.form == FormOf(r)
    ensures p'.items == p.items && p'.error == p.error
  {
    p.(editingId := Some(r.id), form := FormOf(r))
  }

  /** The request a submit issues. */
  datatype Call = CreateNas(payload: NasForm) | UpdateNas(id: int, payload: NasForm)

  function SubmitCall(p: Page): (c: Call)
    ensures c.UpdateNas? <==> Editing(p)
    ensures c.UpdateNas? ==> Some(c.id) == p.editingId
    ensures c.payload == p.form
  {
    if Editing(p) then UpdateNas(p.editingId.value, p.form) else CreateNas(p.form)
  }

  /** `handleSubmit`: success resets the form, leaves edit mode and starts
      `loadNAS` without awaiting it; `loadNAS` clears the error before its
      first await, so the banner goes at once, and the list itself arrives
      with a later `Reload`. Failure reports the error. */
  function Submit(p: Page, o: Outcome): (p': Page)
    ensures o.Pass? ==> p' == p.(form := InitialForm, editingId := None, error := "")
    ensures o.Fail? ==> p' == p.(error := o.message)
  {
    if o.Pass? then p.(form := InitialForm, editingId := None, error := "") else p.(error := o.message)
  }

  /** "Cancel Edit": leave edit mode and restore the blank form. */
  function CancelEdit(p: Page): (p': Page)
    ensures p'.editingId == None && p'.form == InitialForm
    ensures p'.items == p.items && p'.error == p.error
  {
    p.(editingId := None, form := InitialForm)
  }

  const FetchError := "Failed to fetch NAS entries from RADIUS."
  const DeleteError := "Failed to delete NAS entry."

  /** `loadNAS`: clears the error, then takes the listed entries or reports
      the failure (`e.message || default`). */
  function Reload(p: Page, r: Result<seq<NasRecord>>): (p': Page)
    ensures r.Ok? ==> p' == p.(items := r.value, error := "")
    ensures r.Err? ==> p' == p.(error := if r.message != "" then r.message else FetchError)
  {
    match r
    case Ok(xs) => p.(items := xs, error := "")
    case Err(m) => p.(error := if m != "" then m else FetchError)
  }

  function NasId(r: NasRecord): int { r.id }

  /** `handleDelete`: only a confirmed, successful delete removes entries,
      and only those with that id; a failure keeps the list and reports it. */
  function Delete(p: Page, id: int, confirmed: bool, o: Outcome): (p': Page)
    ensures !confirmed ==> p' == p
    ensures confirmed && o.Fail? ==> p' == p.(error := DeleteError)
    ensures confirmed && o.Pass? ==> p' == p.(items := ListOps.Without(p.items, NasId, id))
    ensures confirmed && o.Pass? ==>
      (forall i :: 0 <= i < |p'.items| ==> p'.items[i] in p.items && p'.items[i].id != id) &&
      (forall i :: 0 <= i < |p.items| && p.items[i].id != id ==> p.items[i] in p'.items)
  {
    if !confirmed then p
    else if o.Pass? then p.(items := ListOps.Without(p.items, NasId, id))
    else p.(error := DeleteError)
  }

  /** A successful reload does not depend on the list or the error the page
      held before, and a failed one keeps the list on screen. */
  lemma ReloadForgetsEarlierList(p: Page, q: Page, xs: seq<NasRecord>, m: string)
    requires p.editingId == q.editingId && p.form == q.form
    ensures Reload(p, Ok(xs)) == Reload(q, Ok(xs))
    ensures Reload(p, Ok(xs)).error == ""
    ensures Reload(p, Err(m)).items == p.items && Reload(p, Err(m)).error != ""
  {
  }

  /** Deleting an id no entry has leaves the page as it was. */
  lemma DeleteAbsentIsNoOp(p: Page, id: int)
    requires forall i :: 0 <= i < |p.items| ==> p.items[i].id != id
    ensures Delete(p, id, true, Pass) == p
  {
    ListOps.WithoutAbsent(p.items, NasId, id);
  }

  /** Deleting the same id a second time changes nothing more. */
  lemma DeleteTwiceIsOnce(p: Page, id: int)
    ensures Delete(Delete(p, id, true, Pass), id, true, Pass) == Delete(p, id, true, Pass)
  {
    DeleteAbsentIsNoOp(Delete(p, id, true, Pass), id);
  }

  /** Editing a record and cancelling leaves the page as a fresh form would:
      cancel undoes `startEdit` completely. */
  lemma CancelUndoesStartEdit(p: Page, r: NasRecord)
    ensures CancelEdit(StartEdit(p, r)) == CancelEdit(p)
    ensures SubmitCall(CancelEdit(StartEdit(p, r))) == CreateNas(InitialForm)
  {
  }

  /** Editing a record with a non-zero id submits an update of that record
      with its own values; editing the record with id 0 creates a new entry
      instead, because 0 is falsy. */
  lemma EditDispatch(p: Page, r: NasRecord)
    ensures r.id != 0 ==> SubmitCall(StartEdit(p, r)) == UpdateNas(r.id, FormOf(r))
    ensures r.id == 0 ==> SubmitCall(StartEdit(p, r)) == CreateNas(FormOf(r))
  {
  }

  /** After a successful submit the next submit creates, from the blank form. */
  lemma SubmitReturnsToCreate(p: Page)
    ensures SubmitCall(Submit(p, Pass)) == CreateNas(InitialForm)
  {
  }
}
