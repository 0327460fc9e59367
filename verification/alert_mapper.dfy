/** `mapBackendAlerts`: renames the fields of each raw alert and classifies
    its severity (src/api/mapper/alertMapper.ts). */
module AlertMapper {
  import opened NetworkTypes

  /** The severity rule: a router reported "down" is critical; otherwise a CPU
      load of at least 90 or a temperature of at least 80 is critical; anything
      else is a warning. */
  function Severity(status: string, cpu: int, temperature: int): (sev: AlertSeverity)
    ensures status == "down" ==> sev == Critical
    ensures sev == Critical <==> status == "down" || cpu >= 90 || temperature >= 80
    ensures sev == Warning <==> status != "down" && cpu < 90 && temperature < 80
  {
    if status == "down" then Critical
    else if cpu >= 90 || temperature >= 80 then Critical
    else Warning
  }

  /** The alert derived from one raw alert. */
  function MapAlert(a: BackendAlert): (r: Alert)
    ensures r.routerId == a.id && r.routerName == a.identityName
    ensures r.cpu == a.latestCpu && r.temperature == a.latestTemperature
    ensures r.status == a.latestStatus
    ensures r.severity == Severity(a.latestStatus, a.latestCpu, a.latestTemperature)
  {
    Alert(a.id, a.identityName, a.latestCpu, a.latestTemperature,
          Severity(a.latestStatus, a.latestCpu, a.latestTemperature), a.latestStatus)
  }

  /** `mapBackendAlerts`: one alert per raw alert, position by position. */
  function MapBackendAlerts(xs: seq<BackendAlert>): (r: seq<Alert>)
    ensures |r| == |xs|
    ensures forall i :: 0 <= i < |xs| ==> r[i] == MapAlert(xs[i])
  {
    if |xs| == 0 then [] else [MapAlert(xs[0])] + MapBackendAlerts(xs[1..])
  }

  /** Mapping distributes over concatenation, so alerts can be mapped in pieces. */
  lemma {:induction false} MapBackendAlertsAppend(xs: seq<BackendAlert>, ys: seq<BackendAlert>)
    ensures MapBackendAlerts(xs + ys) == MapBackendAlerts(xs) + MapBackendAlerts(ys)
  {
    var l := MapBackendAlerts(xs + ys);
    var r := MapBackendAlerts(xs) + MapBackendAlerts(ys);
    assert |l| == |r|;
    forall i | 0 <= i < |l| ensures l[i] == r[i] {
      if i < |xs| { assert (xs + ys)[i] == xs[i]; }
      else { assert (xs + ys)[i] == ys[i - |xs|]; }
    }
  }

  /** Raising the CPU load or the temperature never turns a critical alert
      into a warning. */
  lemma SeverityMonotone(status: string, cpu: int, temperature: int, cpu': int, temperature': int)
    requires cpu <= cpu' && temperature <= temperature'
    requires Severity(status, cpu, temperature) == Critical
    ensures Severity(status, cpu', temperature') == Critical
  {
  }

  /** Every alert whose raw status is "down" is critical, whatever its load. */
  lemma DownAlertsCritical(xs: seq<BackendAlert>)
    ensures forall i :: 0 <= i < |xs| && xs[i].latestStatus == "down" ==>
      MapBackendAlerts(xs)[i].severity == Critical
  {
  }
}
