/** The API-configuration page of src/pages/dashboard/MikrotikConfig.tsx:
    the create form with its SSL/port coupling, the list load that coerces
    non-array responses, create, and delete-by-id. */
module MikrotikConfig {
  import opened Wrappers
  import ListOps

  /** The RouterOS API ports: plain and over TLS. */
  const ApiPort := 8728
  const ApiSslPort := 8729

  /** A port as the form holds it. A direct edit of the number input stores
      the input's text (`e.target.value`), not a number. */
  datatype PortValue = PortNumber(n: int) | PortText(text: string)

  datatype ConnectionForm = ConnectionForm(
    mikrotik: string,
    host: string,
    port: PortValue,
    username: string,
    password: string,
    hotspotServer: string,
    useSsl: bool,
    enabled: bool)

  datatype Connection = Connection(
    id: string,
    mikrotik: string,
    host: string,
    port: int,
    username: string,
    hotspotServer: Option<string>,
    useSsl: bool,
    enabled: bool,
    createdAt: string)

  datatype Device = Device(id: Option<string>, identityName: string, serialNumber: string, apiIp: string)

  /** The form the page starts with and returns to after a create. */
  const InitialForm := ConnectionForm("", "", PortNumber(ApiPort), "", "", "", false, true)

  /** The named inputs other than the SSL checkbox. */
  datatype TextField = MikrotikField | HostField | PortField | UsernameField | PasswordField

  /** One `onChange` delivery. */
  datatype Change = Edit(field: TextField, value: string) | SslToggled(checked: bool)

  /** The form with `f` blanked, used to say that an edit touches nothing
      but its own field. */
  function Blank(form: ConnectionForm, f: TextField): ConnectionForm {
    match f
    case MikrotikField => form.(mikrotik := "")
    case HostField => form.(host := "")
    case PortField => form.(port := PortText(""))
    case UsernameField => form.(username := "")
    case PasswordField => form.(password := "")
  }

  /** The text a field holds; the port reads as its text only once edited. */
  function Text(form: ConnectionForm, f: TextField): Option<string> {
    match f
    case MikrotikField => Some(form.mikrotik)
    case HostField => Some(form.host)
    case PortField => if form.port.PortText? then Some(form.port.text) else None
    case UsernameField => Some(form.username)
    case PasswordField => Some(form.password)
  }

  /** `handleChange`: toggling SSL also moves the port to the matching API
      port; any other input sets only its own field, to the text typed. */
  function HandleChange(form: ConnectionForm, c: Change): (form': ConnectionForm)
    ensures c.SslToggled? ==> form'.useSsl == c.checked
    ensures c.SslToggled? ==> form'.port == PortNumber(if c.checked then ApiSslPort else ApiPort)
    ensures c.SslToggled? ==> form'.(useSsl := form.useSsl, port := form.port) == form
    ensures c.Edit? ==> Text(form', c.field) == Some(c.value)
    ensures c.Edit? ==> Blank(form', c.field) == Blank(form, c.field)
  {
    match c
    case SslToggled(on) => form.(useSsl := on, port := PortNumber(if on then ApiSslPort else ApiPort))
    case Edit(f, v) =>
      match f
      case MikrotikField => form.(mikrotik := v)
      case HostField => form.(host := v)
      case PortField => form.(port := PortText(v))
      case UsernameField => form.(username := v)
      case PasswordField => form.(password := v)
  }

  /** The port is the API port that matches the SSL setting. */
  predicate PortMatchesSsl(form: ConnectionForm) {
    form.port == PortNumber(if form.useSsl then ApiSslPort else ApiPort)
  }

  /** The form after a sequence of changes. */
  function ApplyChanges(form: ConnectionForm, cs: seq<Change>): (form': ConnectionForm) {
    if |cs| == 0 then form else HandleChange(ApplyChanges(form, cs[..|cs| - 1]), cs[|cs| - 1])
  }

  /** The coupling holds in the initial form and survives every change that
      is not a direct port edit. */
  lemma {:induction false} CouplingKept(cs: seq<Change>)
    requires forall i :: 0 <= i < |cs| ==> !(cs[i].Edit? && cs[i].field == PortField)
    ensures PortMatchesSsl(ApplyChanges(InitialForm, cs))
  {
    if |cs| > 0 {
      CouplingKept(cs[..|cs| - 1]);
    }
  }

  /** A toggle restores the coupling whatever came before, and a direct port
      edit always breaks it, even when the text typed is the matching port. */
  lemma CouplingRestoredOrBroken(form: ConnectionForm, on: bool, v: string)
    ensures PortMatchesSsl(HandleChange(form, SslToggled(on)))
    ensures !PortMatchesSsl(HandleChange(form, Edit(PortField, v)))
  {
  }

  /** `Array.isArray(res) ? res : []`. */
  datatype Listing<T> = JsonArray(items: seq<T>) | NotArray

  function AsList<T>(l: Listing<T>): (xs: seq<T>)
    ensures l.NotArray? ==> xs == []
    ensures l.JsonArray? ==> xs == l.items
  {
    if l.JsonArray? then l.items else []
  }

  /** How the joined `Promise.all` of the two list requests settled. */
  datatype LoadOutcome = Loaded(connections: Listing<Connection>, devices: Listing<Device>) | LoadFailed

  datatype Page = Page(
    connections: seq<Connection>,
    devices: seq<Device>,
    loading: bool,
    error: Option<string>,
    form: ConnectionForm)

  const FetchError := "Failed to fetch configurations. Please check your connection."
  const SaveError := "Could not save connection. Verify your API credentials."
  const DeleteError := "Failed to delete the connection."

  /** `loadData`: clears the error, then either takes both lists (non-arrays
      read as empty) or keeps the old ones and reports the failure. */
  function Load(p: Page, o: LoadOutcome): (p': Page)
    ensures !p'.loading && p'.form == p.form
    ensures o.Loaded? ==> p'.connections == AsList(o.connections) && p'.devices == AsList(o.devices) && p'.error == None
    ensures o.LoadFailed? ==> p'.connections == p.connections && p'.devices == p.devices && p'.error == Some(FetchError)
  {
    match o
    case Loaded(cs, ds) => p.(connections := AsList(cs), devices := AsList(ds), error := None, loading := false)
    case LoadFailed => p.(error := Some(FetchError), loading := false)
  }

  /** `handleSubmit`: on success the form returns to its initial state and
      the lists are reloaded; on failure only the error changes. */
  function Submit(p: Page, created: Outcome, reload: LoadOutcome): (p': Page)
    ensures !p'.loading
    ensures created.Pass? ==> p' == Load(p.(form := InitialForm), reload)
    ensures created.Fail? ==> p' == p.(error := Some(SaveError), loading := false)
  {
    if created.Pass? then Load(p.(form := InitialForm), reload)
    else p.(error := Some(SaveError), loading := false)
  }

  /** A successful load does not depend on the lists, the error or the
      loading flag the page held before: only the form carries over. */
  lemma LoadForgetsEarlierLists(p: Page, q: Page, o: LoadOutcome)
    requires o.Loaded? && p.form == q.form
    ensures Load(p, o) == Load(q, o)
  {
  }

  /** A successful save leaves a form whose port matches its SSL flag,
      whatever the form held before, and whether or not the reload worked. */
  lemma SubmitRestoresCoupling(p: Page, reload: LoadOutcome)
    ensures PortMatchesSsl(Submit(p, Pass, reload).form)
    ensures Submit(p, Pass, reload).form == InitialForm
  {
  }

  function ConnectionId(c: Connection): string { c.id }

  /** `handleDelete`: only a confirmed, successful delete removes the
      connection; a failed one keeps the list and reports the error. */
  function Delete(p: Page, id: string, confirmed: bool, deleted: Outcome): (p': Page)
    ensures !confirmed ==> p' == p
    ensures confirmed && deleted.Fail? ==> p' == p.(error := Some(DeleteError))
    ensures confirmed && deleted.Pass? ==> p' == p.(connections := ListOps.Without(p.connections, ConnectionId, id))
  {
    if !confirmed then p
    else if deleted.Pass? then p.(connections := ListOps.Without(p.connections, ConnectionId, id))
    else p.(error := Some(DeleteError))
  }

  /** A successful delete removes exactly the connections with that id and
      keeps every other one. */
  lemma DeleteRemovesOnlyThatId(p: Page, id: string)
    ensures forall c :: c in Delete(p, id, true, Pass).connections ==> c in p.connections && c.id != id
    ensures forall i :: 0 <= i < |p.connections| && p.connections[i].id != id ==>
      p.connections[i] in Delete(p, id, true, Pass).connections
  {
  }
}
