/** The records exchanged between the network API, the push channel and the
    network-health views (src/types/network.ts, src/api/mapper/alertMapper.ts).
    Telemetry numbers are modelled as integers. */
module NetworkTypes {
  import opened Wrappers

  /** One managed router and its latest telemetry. */
  datatype Router = Router(
    id: int,
    ip: string,
    routerName: string,
    vendor: string,
    cpu: int,
    memory: int,
    temperature: int,
    latency: int,
    pppoeSessions: int,
    status: string,
    createdAt: string)

  /** The `data` of a `router_update` push message: the router it addresses and
      the telemetry fields it carries; an absent field is `None`. */
  datatype RouterPatch = RouterPatch(
    status: Option<string>,
    cpu: Option<int>,
    memory: Option<int>,
    latency: Option<int>,
    temperature: Option<int>,
    pppoeSessions: Option<int>)

  /** One raw alert as the stats endpoint reports it. */
  datatype BackendAlert = BackendAlert(
    id: string,
    identityName: string,
    latestCpu: int,
    latestTemperature: int,
    latestStatus: string)

  /** Fleet aggregate; `alerts` is `None` when the payload carries no list. */
  datatype NetworkStats = NetworkStats(
    total: int,
    online: int,
    warning: int,
    offline: int,
    avgCpu: int,
    avgLatency: int,
    status: string,
    alerts: Option<seq<BackendAlert>>)

  datatype AlertSeverity = Warning | Critical

  /** A user-facing alert derived from a `BackendAlert`. */
  datatype Alert = Alert(
    routerId: string,
    routerName: string,
    cpu: int,
    temperature: int,
    severity: AlertSeverity,
    status: string)
}
