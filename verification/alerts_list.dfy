/** The incident list of src/components/networkdetailed/AlertsList.tsx: the
    three-level `getSeverity` classifier and the value highlighting. Unlike
    `mapBackendAlerts`, this classifier ignores the alert's status. */
module AlertsList {
  import AlertMapper
  import NetworkTypes

  /** `AlertItem.status`: "warning" | "down". */
  datatype ItemStatus = WarningStatus | DownStatus

  datatype AlertItem = AlertItem(status: ItemStatus, cpu: int, temperature: int, createdAt: string)

  datatype Level = Info | Warning | Critical

  function Rank(l: Level): nat {
    match l
    case Info => 0
    case Warning => 1
    case Critical => 2
  }

  /** `getSeverity`: strict thresholds, CPU above 90 or temperature above 75
      is critical, CPU above 70 or temperature above 60 is a warning, anything
      else is informational. */
  function GetSeverity(a: AlertItem): (l: Level)
    ensures l == Critical <==> a.cpu > 90 || a.temperature > 75
    ensures l == Warning <==> a.cpu <= 90 && a.temperature <= 75 && (a.cpu > 70 || a.temperature > 60)
    ensures l == Info <==> a.cpu <= 70 && a.temperature <= 60
  {
    if a.cpu > 90 || a.temperature > 75 then Critical
    else if a.cpu > 70 || a.temperature > 60 then Warning
    else Info
  }

  /** The CPU figure is drawn in bold rose. */
  predicate CpuHighlighted(a: AlertItem) {
    a.cpu > 80
  }

  /** The temperature figure is drawn in bold rose. */
  predicate TemperatureHighlighted(a: AlertItem) {
    a.temperature > 65
  }

  /** The status plays no part in the severity. */
  lemma SeverityIgnoresStatus(a: AlertItem, st: ItemStatus)
    ensures GetSeverity(a.(status := st)) == GetSeverity(a)
  {
  }

  /** A higher CPU load or temperature never lowers the severity. */
  lemma SeverityMonotone(a: AlertItem, b: AlertItem)
    requires a.cpu <= b.cpu && a.temperature <= b.temperature
    ensures Rank(GetSeverity(a)) <= Rank(GetSeverity(b))
  {
  }

  /** Highlighting is consistent with the severity: a highlighted figure
      means at least a warning, every critical alert highlights a figure, and
      an informational alert highlights none. */
  lemma HighlightAgreesWithSeverity(a: AlertItem)
    ensures CpuHighlighted(a) || TemperatureHighlighted(a) ==> Rank(GetSeverity(a)) >= Rank(Warning)
    ensures GetSeverity(a) == Critical ==> CpuHighlighted(a) || TemperatureHighlighted(a)
    ensures GetSeverity(a) == Info ==> !CpuHighlighted(a) && !TemperatureHighlighted(a)
  {
  }

  function StatusText(st: ItemStatus): string {
    match st
    case WarningStatus => "warning"
    case DownStatus => "down"
  }

  /** The two classifiers of the code base disagree in both directions on the
      same readings: a CPU load of exactly 90 is critical for
      `mapBackendAlerts` but only a warning here, a temperature of 76 is
      critical here but a warning there, and a router that is down with low
      readings is critical there but informational here. */
  lemma ClassifiersDisagree()
    ensures AlertMapper.Severity(StatusText(WarningStatus), 90, 0) == NetworkTypes.Critical
    ensures GetSeverity(AlertItem(WarningStatus, 90, 0, "")) == Warning
    ensures AlertMapper.Severity(StatusText(WarningStatus), 0, 76) == NetworkTypes.Warning
    ensures GetSeverity(AlertItem(WarningStatus, 0, 76, "")) == Critical
    ensures AlertMapper.Severity(StatusText(DownStatus), 0, 0) == NetworkTypes.Critical
    ensures GetSeverity(AlertItem(DownStatus, 0, 0, "")) == Info
  {
  }
}
