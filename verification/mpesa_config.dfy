/** The M-Pesa gateway page of src/pages/dashboard/MpesaConfig.tsx: the
    state machine formed by `exists`, `isEditing`, the form and the error
    as the config is loaded, submitted, deleted and the form toggled. */
module MpesaConfig {
  import opened Wrappers

  datatype MpesaForm = MpesaForm(
    shortcode: string,
    passkey: string,
    consumerKey: string,
    consumerSecret: string,
    callbackUrl: string,
    environment: string)

  /** The blank form: every field empty, environment "sandbox". */
  const BlankForm := MpesaForm("", "", "", "", "", "sandbox")

  datatype Page = Page(loading: bool, configExists: bool, editing: bool, error: string, form: MpesaForm)

  const Initial := Page(true, false, false, "", BlankForm)

  /** The stored configuration the GET request returns. */
  datatype StoredConfig = StoredConfig(shortcode: string, callbackUrl: string, environment: string)

  /** How `getMpesaConfig` settled: a body (possibly null) or a rejection. */
  datatype Fetched = Fetched(data: Option<StoredConfig>) | FetchFailed

  /** The three secrets are blank. */
  predicate SecretsCleared(f: MpesaForm) {
    f.passkey == "" && f.consumerKey == "" && f.consumerSecret == ""
  }

  /** `loadConfig`: a config with a non-empty shortcode marks the gateway as
      existing and fills the public fields with the secrets blank; a missing
      config or a failed request opens the form for a new one. */
  function LoadConfig(p: Page, r: Fetched): (p': Page)
    ensures !p'.loading && p'.error == p.error
    ensures r.Fetched? && r.data.Some? && r.data.value.shortcode != "" ==>
      p'.configExists && p'.editing == p.editing && SecretsCleared(p'.form) &&
      p'.form.shortcode == r.data.value.shortcode &&
      p'.form.callbackUrl == r.data.value.callbackUrl &&
      p'.form.environment == r.data.value.environment
    ensures !(r.Fetched? && r.data.Some? && r.data.value.shortcode != "") ==>
      !p'.configExists && p'.editing && p'.form == p.form
  {
    match r
    case Fetched(Some(c)) =>
      if c.shortcode != "" then
        p.(configExists := true, form := MpesaForm(c.shortcode, "", "", "", c.callbackUrl, c.environment), loading := false)
      else p.(configExists := false, editing := true, loading := false)
    case Fetched(None) => p.(configExists := false, editing := true, loading := false)
    case FetchFailed => p.(configExists := false, editing := true, loading := false)
  }

  /** The request a submit issues, carrying the whole form. */
  datatype Call = CreateConfig(payload: MpesaForm) | UpdateConfig(payload: MpesaForm)

  function SubmitCall(p: Page): (c: Call)
    ensures c.UpdateConfig? <==> p.configExists
    ensures c.payload == p.form
  {
    if p.configExists then UpdateConfig(p.form) else CreateConfig(p.form)
  }

  const SaveError := "An error occurred while saving."

  /** `handleSubmit`: success closes the form, records that a config exists
      and clears the secrets from memory; failure only reports the error
      (`err.message || default`). */
  function Submit(p: Page, o: Outcome): (p': Page)
    ensures o.Pass? ==> p'.configExists && !p'.editing && p'.error == "" && p'.loading == p.loading
    ensures o.Pass? ==> p'.form == p.form.(passkey := "", consumerKey := "", consumerSecret := "")
    ensures o.Fail? ==> p' == p.(error := if o.message != "" then o.message else SaveError)
  {
    match o
    case Pass =>
      p.(configExists := true, editing := false, error := "",
         form := p.form.(passkey := "", consumerKey := "", consumerSecret := ""))
    case Fail(msg) => p.(error := if msg != "" then msg else SaveError)
  }

  /** `handleDelete`: only a confirmed, successful delete resets the page to
      "no config", with the form open and blank. */
  function Delete(p: Page, confirmed: bool, o: Outcome): (p': Page)
    ensures !confirmed ==> p' == p
    ensures confirmed && o.Pass? ==> p' == p.(configExists := false, editing := true, form := BlankForm)
    ensures confirmed && o.Fail? ==> p' == p.(error := o.message)
  {
    if !confirmed then p
    else if o.Pass? then p.(configExists := false, editing := true, form := BlankForm)
    else p.(error := o.message)
  }

  /** The form section is shown while editing or whenever no config exists. */
  predicate FormVisible(p: Page) {
    p.editing || !p.configExists
  }

  /** The secret inputs are required only when creating a config. */
  predicate SecretsRequired(p: Page) {
    !p.configExists
  }

  datatype FormField = ShortcodeField | PasskeyField | ConsumerKeyField | ConsumerSecretField | CallbackField | EnvironmentField

  function SetField(f: MpesaForm, field: FormField, v: string): MpesaForm {
    match field
    case ShortcodeField => f.(shortcode := v)
    case PasskeyField => f.(passkey := v)
    case ConsumerKeyField => f.(consumerKey := v)
    case ConsumerSecretField => f.(consumerSecret := v)
    case CallbackField => f.(callbackUrl := v)
    case EnvironmentField => f.(environment := v)
  }

  /** Everything that can happen on the page. The edit toggle and the cancel
      button are rendered only while a config exists; the dismiss button
      only while an error is shown. */
  datatype Event =
    | Load(r: Fetched)
    | Edit(field: FormField, value: string)
    | SubmitDone(o: Outcome)
    | DeleteDone(confirmed: bool, o: Outcome)
    | ToggleEditing
    | CancelEditing
    | DismissError

  /** One event. Only a load, a save or a delete decides whether a config
      exists; the buttons and the inputs only move between viewing and
      editing, change the form or clear the banner. */
  function Step(p: Page, e: Event): (p': Page)
    ensures e.Edit? || e.ToggleEditing? || e.CancelEditing? || e.DismissError? ==>
      p'.configExists == p.configExists && p'.loading == p.loading
    ensures e.Edit? ==> p' == p.(form := SetField(p.form, e.field, e.value))
    ensures (e.ToggleEditing? || e.CancelEditing?) && !p.configExists ==> p' == p
    ensures e.ToggleEditing? && p.configExists ==> p' == p.(editing := !p.editing)
    ensures e.CancelEditing? ==> !p'.editing || !p.configExists
    ensures e.CancelEditing? && p.configExists ==> p' == p.(editing := false)
    ensures e.Load? ==> p' == LoadConfig(p, e.r)
    ensures e.SubmitDone? ==> p' == Submit(p, e.o)
    ensures e.DeleteDone? ==> p' == Delete(p, e.confirmed, e.o)
    ensures e.DismissError? ==> p' == p.(error := "")
  {
    match e
    case Load(r) => LoadConfig(p, r)
    case Edit(f, v) => p.(form := SetField(p.form, f, v))
    case SubmitDone(o) => Submit(p, o)
    case DeleteDone(c, o) => Delete(p, c, o)
    case ToggleEditing => if p.configExists then p.(editing := !p.editing) else p
    case CancelEditing => if p.configExists then p.(editing := false) else p
    case DismissError => p.(error := "")
  }

  function Run(p: Page, t: seq<Event>): (p': Page) {
    if |t| == 0 then p else Step(Run(p, t[..|t| - 1]), t[|t| - 1])
  }

  /** Once the config has been loaded, the page is never without both a
      stored config and an open form: whenever no config exists, the page is
      editing. */
  lemma {:induction false} NoConfigMeansEditing(r: Fetched, t: seq<Event>)
    ensures var p := Run(LoadConfig(Initial, r), t); p.configExists || p.editing
  {
    if |t| > 0 {
      NoConfigMeansEditing(r, t[..|t| - 1]);
    }
  }

  /** After a successful submit the form is hidden, the secrets are gone and
      they are no longer required; a later failed submit changes none of
      that. */
  lemma SubmitThenFailKeepsState(p: Page, msg: string)
    ensures var q := Submit(p, Pass);
      !FormVisible(q) && SecretsCleared(q.form) && !SecretsRequired(q)
    ensures var q := Submit(Submit(p, Pass), Fail(msg));
      !FormVisible(q) && SecretsCleared(q.form) && q.configExists
  {
  }

  /** A successful delete brings the page back to the state a fresh visit
      without a stored config reaches, apart from the error text. */
  lemma DeleteMatchesFreshVisit(p: Page)
    requires !p.loading
    ensures Delete(p, true, Pass) == LoadConfig(Initial, Fetched(None)).(error := p.error)
  {
  }
}
