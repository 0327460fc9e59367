# ISP dashboard: network-health and configuration pages in Dafny

This project models the state logic of a React dashboard for an ISP. The
dashboard monitors MikroTik routers and administers RADIUS subscribers.

**Network-health pages.** Two pages are modelled, each a state machine over
a trace of events:

- `NetworkHealth` is the current page. Its two bootstrap requests are joined,
  so they succeed or fail together.
- `SequentialHealth` is the older `copy.tsx` variant. It awaits routers,
  then stats, and each failure is swallowed on its own.

The events are:

- bootstrap results;
- push messages from the router WebSocket;
- the socket closing;
- the component unmounting.

Both pages share one reducer, `Snapshot.Apply`. A `router_update` message
merges its fields into the router with that id, field by field. A
`network_stats_update` message replaces the stats wholesale. The lemmas
about the reducer cover:

- last-write-wins per field;
- the router list never growing or shrinking;
- idempotence;
- messages for unknown ids changing nothing.

The lemmas about the pages cover:

- the token gate;
- the unmount barrier;
- what each page renders;
- where the two variants agree and where they part.

**Classifiers.** These are pure functions:

- the alert mapper's severity;
- the alert list's own severity;
- the status, metric, bar and icon colours of the current-health card;
- the 24-hour card's reliability colour and texts.

The severity classifiers and the status, metric and reliability colours have
if-and-only-if contracts. The CPU bar and the thermometer icon state their
range and are tied to the metric colour by a lemma. The texts state their
per-case values, and a lemma shows they lose no information.

**Configuration pages.** The reducers of the Users, MikroTik API
connection, M-Pesa configuration and NAS pages are modelled as functions
from the page state and the outcome of the remote call to the next page
state. Remote calls and `confirm()` dialogs become `Outcome`, `Result` and
`bool` parameters. The initial forms are constants:

- `Users.InitialForm`: HOTSPOT, plan 0;
- `MikrotikConfig.InitialForm`: port 8728, SSL off;
- `MpesaConfig.BlankForm`: sandbox;
- `Nas.InitialForm`.

Files:

- `wrappers.dfy`: `Option`, `Result` and `Outcome`.
- `decimal.dfy`: decimal rendering, parsing and `padStart`.
- `list_ops.dfy`: the `filter(x => key(x) !== k)` used by every delete.
- `network_types.dfy`: routers, stats and alerts.
- `palette.dfy`: the colour families the cards use.
- `alert_mapper.dfy`.
- `snapshot.dfy`: the shared stream reducer.
- `health_view.dfy`: render gating.
- `network_health.dfy`.
- `sequential_health.dfy`.
- `alerts_list.dfy`.
- `current_health_card.dfy`.
- `stats24h_card.dfy`.
- `users.dfy`.
- `mikrotik_config.dfy`.
- `mpesa_config.dfy`.
- `nas.dfy`.

Three behaviours of the code are worth noting:

- **Bootstrap.** The current page joins the two bootstrap requests, so one
  failure discards both results and shows the error banner. This is
  `NetworkHealth.BootstrapAllOrNothing`. Only the older variant keeps a
  partial result, and it never sets `error`
  (`SequentialHealth.ErrorNeverSet`).
- **Stats before bootstrap.** Stream stats can arrive before the bootstrap
  settles, and the view takes them. A later successful bootstrap then
  overwrites them (`NetworkHealth.BootstrapOverwritesEarlyStream`).
  Routers, by contrast, only ever come from the bootstrap
  (`NetworkHealth.RoutersOnlyFromBootstrap`).
- **No token.** Without a token, no cleanup is registered, so the
  `isMounted` flag stays true even after the page unmounts, and the guard
  lets a late bootstrap result through to its state setters
  (`NetworkHealth.NoTokenOnlyBootstrap`). The lemma is about the flag and
  the page state. React itself discards state updates to an unmounted
  component, so nothing reaches a rendered view.

## Model

| member | source | states |
|---|---|---|
| AlertMapper.Severity | src/api/mapper/alertMapper.ts:20-21 | critical exactly when the status is "down", or CPU is at least 90, or temperature is at least 80; warning exactly otherwise |
| AlertMapper.MapAlert | src/api/mapper/alertMapper.ts:14-22 | the alert carries the backend alert's id, identity name, CPU, temperature and status, and the severity those figures imply |
| AlertMapper.MapBackendAlerts | src/api/mapper/alertMapper.ts:11-24 | one alert per backend alert, in the same order, each the mapping of its source |
| AlertMapper.MapBackendAlertsAppend | src/api/mapper/alertMapper.ts:14 | mapping distributes over concatenation, so alerts never mix or reorder |
| AlertMapper.SeverityMonotone | src/api/mapper/alertMapper.ts:20-21 | raising CPU or temperature never lowers a critical alert to a warning |
| AlertMapper.DownAlertsCritical | src/api/mapper/alertMapper.ts:21 | every alert mapped from a router whose status is "down" is critical, whatever its figures |
| Snapshot.Merge | src/pages/dashboard/NetworkHealth.tsx:61 | a patch field that is present overrides the router's value; an absent one keeps it; identity fields never change |
| Snapshot.UpdateRouters | src/pages/dashboard/NetworkHealth.tsx:61 | same length; routers with the addressed id are merged with the patch; all others are untouched |
| Snapshot.Apply | src/pages/dashboard/NetworkHealth.tsx:56-69 | a router update merges the patch into the routers with that id and keeps the stats and the router count; a stats update replaces the stats and keeps the routers; unknown tags and unparsable frames change nothing |
| Snapshot.MergeAllIsCompose | src/pages/dashboard/NetworkHealth.tsx:61 | applying patches one after another equals applying one patch holding each field's latest present value (last write wins per field) |
| Snapshot.RoutersAfterStream | src/pages/dashboard/NetworkHealth.tsx:59-61 | after any message stream, the router list has its original length, and each router is its bootstrap record merged with exactly the patches addressed to its id, in order |
| Snapshot.StatsAfterStream | src/pages/dashboard/NetworkHealth.tsx:63-64 | after any message stream, the stats are those of the latest stats message, or unchanged if there was none |
| Snapshot.UnknownRouterIgnored | src/pages/dashboard/NetworkHealth.tsx:61 | a router update for an id no router has leaves the view unchanged |
| Snapshot.MergeIdempotent | src/pages/dashboard/NetworkHealth.tsx:61 | delivering the same patch twice has the effect of delivering it once |
| HealthView.Render | src/pages/dashboard/NetworkHealth.tsx:77-79 | loading shows the banner; otherwise a non-empty error shows the error; otherwise missing stats render nothing; otherwise the dashboard shows the stats, the routers and the mapped alerts |
| NetworkHealth.Start | src/pages/dashboard/NetworkHealth.tsx:16-54 | the page starts loading with empty data; a socket is opened and a cleanup registered exactly when a non-empty token is stored |
| NetworkHealth.HasToken | src/pages/dashboard/NetworkHealth.tsx:49-50 | the token gate: a missing token and the empty string both stop the effect before the socket is opened |
| NetworkHealth.Step | src/pages/dashboard/NetworkHealth.tsx:25-74 | bootstrap results apply only while mounted (success sets routers and stats and clears loading; failure sets the fixed error and clears loading; nothing else changes); messages apply only on an open socket; unmount closes the socket only when a cleanup was registered |
| NetworkHealth.CleanedUpIsFinal | src/pages/dashboard/NetworkHealth.tsx:71-74 | once the cleanup has run, no later event changes anything |
| NetworkHealth.LateEventsAfterUnmountIgnored | src/pages/dashboard/NetworkHealth.tsx:33-73 | with a token, every event after the unmount is ignored |
| NetworkHealth.NoTokenOnlyBootstrap | src/pages/dashboard/NetworkHealth.tsx:49-50 | without a token, the page evolves only through its bootstrap results; it stays mounted and has no socket |
| NetworkHealth.RoutersOnlyFromBootstrap | src/pages/dashboard/NetworkHealth.tsx:59-61 | until a successful bootstrap, the router list stays empty whatever the stream delivers |
| NetworkHealth.LoadingUntilBootstrap | src/pages/dashboard/NetworkHealth.tsx:26-42 | until the bootstrap settles, the page shows the loading banner |
| NetworkHealth.ErrorScreenIsFinal | src/pages/dashboard/NetworkHealth.tsx:38-78 | once the bootstrap failed, the error banner stays whatever the stream delivers |
| NetworkHealth.StreamRunIsApplyAll | src/pages/dashboard/NetworkHealth.tsx:56-69 | on an open socket, a run of messages acts on the view exactly as the shared reducer folded over them |
| NetworkHealth.BootstrapOverwritesEarlyStream | src/pages/dashboard/NetworkHealth.tsx:33-36 | whatever the stream did before, a successful bootstrap leaves exactly its own routers and stats |
| NetworkHealth.BootstrapAllOrNothing | src/pages/dashboard/NetworkHealth.tsx:28-44 | a joined success shows both results on the dashboard; a joined failure keeps both empty and shows the error |
| SequentialHealth.Start | src/pages/dashboard/copy.tsx:13-62 | starts loading and awaiting the routers; socket and cleanup exist exactly with a non-empty token |
| SequentialHealth.Step | src/pages/dashboard/copy.tsx:26-106 | routers are awaited before stats; each failure only advances the phase; a stats success while mounted sets the stats, clears loading and changes nothing else; error is never touched |
| SequentialHealth.ErrorNeverSet | src/pages/dashboard/copy.tsx:17 | no trace sets the error, so the error banner never shows |
| SequentialHealth.BootstrapIndependent | src/pages/dashboard/copy.tsx:29-43 | routers are stored iff their request succeeded, and stats iff theirs did, independently of each other |
| SequentialHealth.StatsWaitForRouters | src/pages/dashboard/copy.tsx:30-38 | until the routers request answers, the page stays loading, awaits the routers, and its stats come only from the stream |
| SequentialHealth.FailedStatsRendersBlank | src/pages/dashboard/copy.tsx:36-43 | after a failed stats request, and until a stats message arrives, the page renders nothing |
| SequentialHealth.CleanedUpIsFinal | src/pages/dashboard/copy.tsx:100-106 | after the cleanup, no event changes the data, flags or socket |
| SequentialHealth.AgreesWithJoinedVariant | src/pages/dashboard/copy.tsx:26-90 | when both requests succeed, the two variants show the same data and loading state, and react identically to any later messages, socket closes and unmounts |
| SequentialHealth.AgreementPreserved | src/pages/dashboard/copy.tsx:66-106 | agreeing states of the two variants keep agreeing under the same stream, close and unmount events |
| SequentialHealth.PartialFailureDiverges | src/pages/dashboard/copy.tsx:29-43 | with routers loaded and stats failed, this variant renders nothing but keeps the routers; the joined variant keeps no routers and shows the error |
| AlertsList.GetSeverity | src/components/networkdetailed/AlertsList.tsx:17-21 | critical iff CPU above 90 or temperature above 75; warning iff not critical and (CPU above 70 or temperature above 60); info otherwise |
| AlertsList.CpuHighlighted | src/components/networkdetailed/AlertsList.tsx:71 | the CPU figure of an incident is drawn in bold rose when it is above 80 |
| AlertsList.TemperatureHighlighted | src/components/networkdetailed/AlertsList.tsx:75 | the temperature figure of an incident is drawn in bold rose when it is above 65 |
| AlertsList.SeverityIgnoresStatus | src/components/networkdetailed/AlertsList.tsx:17-21 | the level depends on CPU and temperature only, never on the down/warning status |
| AlertsList.SeverityMonotone | src/components/networkdetailed/AlertsList.tsx:17-21 | raising CPU or temperature never lowers the level |
| AlertsList.HighlightAgreesWithSeverity | src/components/networkdetailed/AlertsList.tsx:71-75 | a highlighted CPU (over 80) or temperature (over 65) figure means at least a warning; every critical alert highlights a figure; an info alert highlights none |
| AlertsList.ClassifiersDisagree | src/components/networkdetailed/AlertsList.tsx:17-21 | the two classifiers disagree in both directions: CPU 90 is critical for the alert mapper but a warning here; temperature 76 is critical here but a warning there; a down router with calm figures is critical there but info here |
| CurrentHealthCard.StatusColor | src/components/networkdetailed/CurrentHealthCard.tsx:17-18 | emerald exactly when the lower-cased status is "online"; rose otherwise |
| CurrentHealthCard.MetricColor | src/components/networkdetailed/CurrentHealthCard.tsx:20-24 | rose iff the value is above 80; amber iff it is above 60 and at most 80; emerald iff it is at most 60 |
| CurrentHealthCard.CpuBarColor | src/components/networkdetailed/CurrentHealthCard.tsx:55 | the CPU bar is only ever rose or indigo |
| CurrentHealthCard.TemperatureIconColor | src/components/networkdetailed/CurrentHealthCard.tsx:90 | the thermometer icon is only ever rose or amber |
| CurrentHealthCard.CpuBarMatchesFigure | src/components/networkdetailed/CurrentHealthCard.tsx:55 | the CPU bar (rose above 80, indigo otherwise) is rose exactly when the CPU figure is coloured rose |
| CurrentHealthCard.TemperatureIconMatchesFigure | src/components/networkdetailed/CurrentHealthCard.tsx:90 | the thermometer icon (rose above 60, amber otherwise) is rose exactly when the temperature, read as a metric, is not emerald |
| CurrentHealthCard.StatusColorIgnoresCase | src/components/networkdetailed/CurrentHealthCard.tsx:18 | statuses that differ only in ASCII letter case get the same colour |
| CurrentHealthCard.StatusDotNeverEmerald | src/components/networkdetailed/CurrentHealthCard.tsx:17-18 | as written, every declared status (healthy, warning, down) gets a rose dot |
| CurrentHealthCard.IntendedStatusColor | src/components/networkdetailed/CurrentHealthCard.tsx:17-18 | corrected colour, comparing the lower-cased status with "healthy": a healthy router gets emerald; warning and down get rose |
| Stats24hCard.ReliabilityColor | src/components/networkdetailed/Stats24hCard.tsx:18-22 | emerald iff uptime ≥ 99.9; amber iff 95 ≤ uptime < 99.9; rose otherwise |
| Stats24hCard.ReliabilityMonotone | src/components/networkdetailed/Stats24hCard.tsx:18-22 | more uptime never gives a worse colour |
| Stats24hCard.CurrentDownText | src/components/networkdetailed/Stats24hCard.tsx:96 | positive down minutes read as their decimal followed by " min"; zero or less reads "None (Stable)" |
| Stats24hCard.MaxTemperatureText | src/components/networkdetailed/Stats24hCard.tsx:62 | a missing reading reads "N/A°"; a present one, zero included, reads as its decimal followed by "°" |
| Stats24hCard.CurrentDownTextFaithful | src/components/networkdetailed/Stats24hCard.tsx:96 | "None (Stable)" exactly when the down minutes are not positive; distinct positive durations give distinct "N min" texts |
| Stats24hCard.ZeroTemperatureIsNotMissing | src/components/networkdetailed/Stats24hCard.tsx:62 | a reading of 0 °C renders "0°", not the missing-value text |
| Stats24hCard.MaxTemperatureTextFaithful | src/components/networkdetailed/Stats24hCard.tsx:62 | a present reading never reads "N/A°", and distinct readings, negative ones included, read differently |
| Decimal.ParseNatToString | src/pages/dashboard/Users.tsx:157 | the decimal rendering of a natural number parses back to it |
| Decimal.PadStart | src/pages/dashboard/Users.tsx:157 | the padded string has at least the width, ends with the original and is filled only with the fill character |
| ListOps.Without | src/pages/dashboard/MikrotikConfig.tsx:104 | keeps exactly the elements whose key differs from the removed one |
| ListOps.WithoutAppend | src/pages/dashboard/MikrotikConfig.tsx:104 | removal distributes over concatenation, so the kept elements keep their order |
| Users.AfterCreate | src/pages/dashboard/Users.tsx:45-50 | a created user is prepended to the unchanged list; a failed create changes nothing |
| Users.AfterDelete | src/pages/dashboard/Users.tsx:52-56 | a declined or failed delete changes nothing; a confirmed one is the filter of the list by id, keeping the other users in order |
| Users.AfterPppoe | src/pages/dashboard/Users.tsx:58-63 | after a successful PPPoE creation, the addressed user is flagged and every other field and user is unchanged |
| Users.NeedsCredentials | src/pages/dashboard/Users.tsx:145-146 | a PPPoE client whose `pppoe_created` flag is false or missing shows the credentials button |
| Users.PppoeSettlesCredentials | src/pages/dashboard/Users.tsx:145-146 | after the PPPoE action, the addressed user no longer shows the credentials button; the others are unaffected |
| Users.CreateThenDeleteRestores | src/pages/dashboard/Users.tsx:45-56 | creating a user with a fresh id and then deleting it restores the list |
| Users.DisplayId | src/pages/dashboard/Users.tsx:157 | the id's decimal rendering, left-padded with zeros to four characters |
| Users.DisplayIdFaithful | src/pages/dashboard/Users.tsx:157 | the displayed id is all digits, at least four long, parses back to the id, and is the plain rendering from 1000 on |
| Users.DisplayIdInjective | src/pages/dashboard/Users.tsx:157 | distinct ids are displayed differently |
| MikrotikConfig.HandleChange | src/pages/dashboard/MikrotikConfig.tsx:74-84 | the SSL toggle sets the flag and the matching API port (8729 or 8728) and nothing else; a text edit sets just that field |
| MikrotikConfig.CouplingKept | src/pages/dashboard/MikrotikConfig.tsx:37-84 | from the initial form, any edits that do not type into the port keep the port matching the SSL flag |
| MikrotikConfig.CouplingRestoredOrBroken | src/pages/dashboard/MikrotikConfig.tsx:79-82 | a toggle always restores the coupling; typing into the port always breaks it, since the typed port is stored as text |
| MikrotikConfig.AsList | src/pages/dashboard/MikrotikConfig.tsx:59-60 | a non-array response becomes the empty list; an array is kept as is |
| MikrotikConfig.Load | src/pages/dashboard/MikrotikConfig.tsx:51-67 | loading always ends; success stores both lists, coerced, and clears the error; failure keeps the lists and sets the fetch error |
| MikrotikConfig.LoadForgetsEarlierLists | src/pages/dashboard/MikrotikConfig.tsx:51-67 | a successful load does not depend on the lists, error or loading flag the page held before; only the form carries over |
| MikrotikConfig.Submit | src/pages/dashboard/MikrotikConfig.tsx:86-98 | success resets the form and reloads; failure sets the save error and keeps everything else |
| MikrotikConfig.SubmitRestoresCoupling | src/pages/dashboard/MikrotikConfig.tsx:86-98 | after a successful save the form is the initial one, whose port matches its SSL flag, whatever the reload did |
| MikrotikConfig.Delete | src/pages/dashboard/MikrotikConfig.tsx:100-108 | declined: nothing changes; failed: only the error is set; success: the connection with that id is filtered out |
| MikrotikConfig.DeleteRemovesOnlyThatId | src/pages/dashboard/MikrotikConfig.tsx:104 | after deleting, no remaining connection has the id, and every connection with another id survives |
| MpesaConfig.LoadConfig | src/pages/dashboard/MpesaConfig.tsx:39-62 | a stored config with a shortcode is shown read-only, with its fields and blanked secrets; no config or a failed fetch opens a blank form for editing; loading always ends |
| MpesaConfig.SubmitCall | src/pages/dashboard/MpesaConfig.tsx:73-78 | an update exactly when a config exists, otherwise a create, always with the form as payload |
| MpesaConfig.Submit | src/pages/dashboard/MpesaConfig.tsx:68-93 | success marks the config as existing, leaves editing and clears the secrets; failure shows the server's message or the fixed save error and changes nothing else |
| MpesaConfig.Delete | src/pages/dashboard/MpesaConfig.tsx:95-114 | declined: nothing changes; success: no config, editing a blank sandbox form; failure: only the error changes |
| MpesaConfig.FormVisible | src/pages/dashboard/MpesaConfig.tsx:204 | the form section shows while editing or whenever no config exists |
| MpesaConfig.SecretsRequired | src/pages/dashboard/MpesaConfig.tsx:257 | the secret inputs are required exactly when no config exists |
| MpesaConfig.Step | src/pages/dashboard/MpesaConfig.tsx:138-289 | a load, save or delete result is handled exactly by `LoadConfig`, `Submit` or `Delete`, and only these decide whether a config exists; the edit toggle and cancel act only while one exists, and cancel changes nothing but leaving editing; an input edit sets just that field; the dismiss button clears only the error |
| MpesaConfig.NoConfigMeansEditing | src/pages/dashboard/MpesaConfig.tsx:52-58 | after any load and any later events, the page either has a config or is editing, so the form is never hidden with nothing to show |
| MpesaConfig.SubmitThenFailKeepsState | src/pages/dashboard/MpesaConfig.tsx:81-92 | after a successful save the secrets are no longer required; a later failed save only changes the error |
| MpesaConfig.DeleteMatchesFreshVisit | src/pages/dashboard/MpesaConfig.tsx:99-109 | a successful delete leaves the page as a fresh visit with no stored config would, apart from the error |
| Nas.StartEdit | src/pages/dashboard/Nas.tsx:80-84 | editing a NAS sets its id and copies its fields into the form; the list and error stay |
| Nas.SubmitCall | src/pages/dashboard/Nas.tsx:55-59 | an update of the edited id exactly when an edit is in progress (a non-zero id), otherwise a create, with the form as payload |
| Nas.Submit | src/pages/dashboard/Nas.tsx:51-68 | success resets the form, leaves editing and clears the error at once (the un-awaited reload clears it before its first await); failure only sets the error |
| Nas.CancelEdit | src/pages/dashboard/Nas.tsx:121 | cancel clears the edited id and resets the form, keeping the list and error |
| Nas.Reload | src/pages/dashboard/Nas.tsx:37-47 | success replaces the list and clears the error; failure keeps the list and shows the server's message or the fixed fetch error |
| Nas.ReloadForgetsEarlierList | src/pages/dashboard/Nas.tsx:37-47 | a successful reload does not depend on the list or error held before and clears the error; a failed one keeps the list and always shows a message |
| Nas.Delete | src/pages/dashboard/Nas.tsx:70-78 | declined: nothing changes; failed: the fixed delete error; success: only the list changes, filtered by id with the other entries in order |
| Nas.DeleteAbsentIsNoOp | src/pages/dashboard/Nas.tsx:70-78 | deleting an id no entry has leaves the page unchanged |
| Nas.DeleteTwiceIsOnce | src/pages/dashboard/Nas.tsx:74 | deleting the same id twice is the same as deleting it once |
| Nas.CancelUndoesStartEdit | src/pages/dashboard/Nas.tsx:80-121 | starting an edit and cancelling it is the same as cancelling, and the next submit is a create of the initial form |
| Nas.EditDispatch | src/pages/dashboard/Nas.tsx:55-59 | editing a record with a non-zero id dispatches an update of that id; a record with id 0 is created anew |
| Nas.SubmitReturnsToCreate | src/pages/dashboard/Nas.tsx:55-61 | after a successful submit, the next submit creates from the initial form |

## Left out

- Transport: the WebSocket URL, protocol choice, headers, `apiFetch` and the
  HTTP requests themselves. Their results enter as event or outcome
  parameters.
- `JSON.parse`: a frame is either a decoded message or `Malformed`. Its
  failure only logs.
- `console` logging and `alert()` pop-ups: they have no effect on state.
- React's own semantics: rendering, batching of state updates, and the
  discarding of updates to an unmounted component. The models describe the
  state the page's code asks for.
- `Promise.all` scheduling: the joined bootstrap is one event carrying both
  results. The order in which the two requests run is not modelled.
- The paging wrapper of the routers response: `routersData.results` is
  taken to be the list. A response without `results`, which would store
  `undefined`, is not modelled.
- `Snapshot.Merge`: a patch has a fixed schema of the six telemetry fields.
  The source's spread also copies `router_id` and any other key the server
  sends onto the router. That could add fields or overwrite `id`; it is
  not modelled.
- `Snapshot.Apply`: `router_update` payloads are taken as well-formed
  patches. A null or missing `data` makes `updated.router_id` throw inside
  the deferred `setRouters` updater (NetworkHealth.tsx:61, copy.tsx:75-80).
  The `try` around the message handler does not cover that updater, so the
  component errors whenever the router list is non-empty. This crash is not
  modelled.
- Stats payloads are taken as well-formed `NetworkStats`. The source stores
  whatever `message.data` holds.
- Numbers are integers. JavaScript floats, `NaN` and `toFixed` rounding are
  not modelled. Uptime is a `real`.
- `CurrentHealthCard.ToLower` folds ASCII letters only. Full Unicode
  `toLowerCase` is not modelled.
- The Users page's `load()`, loading flag, search box and the no-op
  `updateUser(id, {})` button. `load` replaces the list wholesale. The
  search term is never applied to the list. The button sends an empty
  update and changes no state.
- The Nas page's `loading` flag. Per-field form edits on the Nas and Users
  pages are plain field assignments. The `parseInt(...) || 0` coercion of
  the Nas port fields is not modelled either.
- The MikroTik page's device dropdown and password-visibility toggle.
  `MikrotikConfig.Submit` shows only the final `loading == false`. The
  transient spinner states inside a save are not modelled.
- The MikroTik port input stores the typed string
  (`MikrotikConfig.PortText`). It is never parsed back to a number.
- `SequentialHealth.Step`: a bootstrap result that does not answer the
  outstanding request is ignored. The source cannot produce one, because
  it awaits the requests in turn.
- Rendering markup, icons, charts (`HealthChart`), timestamps and CSS
  classes are not modelled beyond the colour enums.
- The other pages and components are not part of this model: Plans,
  Mikrotiks, Vendor, NetworkDetailed, DashboardHome, the login pages,
  layouts and tables.

## Findings

| source | as written | input that shows it | evidently intended | confidence | as-written member | corrected member |
|---|---|---|---|---|---|---|
| src/components/networkdetailed/CurrentHealthCard.tsx:17-18 | the status dot is emerald only for status "online" | a router whose status is "healthy", one of the three statuses the card's type declares, gets a rose dot | emerald for "healthy", rose for "warning" and "down" | medium, not executed | CurrentHealthCard.StatusDotNeverEmerald | CurrentHealthCard.IntendedStatusColor |
