/** What a network-health page shows for a given state: the loading banner,
    the error banner, nothing at all, or the dashboard with the alerts mapped
    from the stats' raw alert list (`stats.alerts || []`). */
module HealthView {
  import opened Wrappers
  import opened NetworkTypes
  import opened AlertMapper
  import opened Snapshot

  datatype Screen =
    | LoadingScreen
    | ErrorScreen(message: string)
    | Blank
    | Dashboard(stats: NetworkStats, routers: seq<Router>, alerts: seq<Alert>)

  /** JavaScript truthiness of a `string | null` state value. */
  predicate Truthy(s: Option<string>) {
    s.Some? && s.value != ""
  }

  /** The render gating: loading first, then a truthy error, then missing
      stats, then the dashboard. */
  function Render(loading: bool, error: Option<string>, v: View): (sc: Screen)
    ensures sc.LoadingScreen? <==> loading
    ensures sc.ErrorScreen? <==> !loading && Truthy(error)
    ensures sc.ErrorScreen? ==> sc.message == error.value
    ensures sc.Blank? <==> !loading && !Truthy(error) && v.stats.None?
    ensures sc.Dashboard? ==> v.stats == Some(sc.stats) && sc.routers == v.routers
    ensures sc.Dashboard? ==> sc.alerts == MapBackendAlerts(sc.stats.alerts.GetOr([]))
  {
    if loading then LoadingScreen
    else if Truthy(error) then ErrorScreen(error.value)
    else if v.stats.None? then Blank
    else Dashboard(v.stats.value, v.routers, MapBackendAlerts(v.stats.value.alerts.GetOr([])))
  }
}
