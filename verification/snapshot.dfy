/** The in-memory view both network-health pages keep, and the reducer that
    applies one decoded push message to it (the `onmessage` handler of
    src/pages/dashboard/NetworkHealth.tsx and src/pages/dashboard/copy.tsx).
    The object spread `{ ...router, ...updated }` becomes a field-wise merge
    over the fixed telemetry schema of `RouterPatch`. */
module Snapshot {
  import opened Wrappers
  import opened NetworkTypes

  /** A push message after `JSON.parse`: the two tags the pages act on, any
      other tag, or a payload that failed to parse. */
  datatype Message =
    | RouterUpdate(routerId: int, patch: RouterPatch)
    | StatsUpdate(stats: NetworkStats)
    | Unrecognized(kind: string)
    | Malformed

  /** The router list and the stats object the page renders. */
  datatype View = View(routers: seq<Router>, stats: Option<NetworkStats>)

  /** `{ ...r, ...p }`: each field the patch carries overrides the router's,
      every other field is kept. */
  function Merge(r: Router, p: RouterPatch): (m: Router)
    ensures m.id == r.id && m.ip == r.ip && m.routerName == r.routerName
    ensures m.vendor == r.vendor && m.createdAt == r.createdAt
    ensures p.status.Some? ==> m.status == p.status.value
    ensures p.status.None? ==> m.status == r.status
    ensures p.cpu.Some? ==> m.cpu == p.cpu.value
    ensures p.cpu.None? ==> m.cpu == r.cpu
    ensures p.memory.Some? ==> m.memory == p.memory.value
    ensures p.memory.None? ==> m.memory == r.memory
    ensures p.latency.Some? ==> m.latency == p.latency.value
    ensures p.latency.None? ==> m.latency == r.latency
    ensures p.temperature.Some? ==> m.temperature == p.temperature.value
    ensures p.temperature.None? ==> m.temperature == r.temperature
    ensures p.pppoeSessions.Some? ==> m.pppoeSessions == p.pppoeSessions.value
    ensures p.pppoeSessions.None? ==> m.pppoeSessions == r.pppoeSessions
  {
    r.(status := p.status.GetOr(r.status),
       cpu := p.cpu.GetOr(r.cpu),
       memory := p.memory.GetOr(r.memory),
       latency := p.latency.GetOr(r.latency),
       temperature := p.temperature.GetOr(r.temperature),
       pppoeSessions := p.pppoeSessions.GetOr(r.pppoeSessions))
  }

  /** `prev.map(r => r.id === id ? { ...r, ...patch } : r)`. */
  function UpdateRouters(routers: seq<Router>, id: int, p: RouterPatch): (rs: seq<Router>)
    ensures |rs| == |routers|
    ensures forall i :: 0 <= i < |routers| && routers[i].id == id ==> rs[i] == Merge(routers[i], p)
    ensures forall i :: 0 <= i < |routers| && routers[i].id != id ==> rs[i] == routers[i]
  {
    if |routers| == 0 then []
    else
      var init := UpdateRouters(routers[..|routers| - 1], id, p);
      var last := routers[|routers| - 1];
      init + [if last.id == id then Merge(last, p) else last]
  }

  /** The effect of one push message on the view. */
  function Apply(v: View, m: Message): (v': View)
    ensures m.RouterUpdate? ==> v' == View(UpdateRouters(v.routers, m.routerId, m.patch), v.stats)
    ensures m.RouterUpdate? ==> |v'.routers| == |v.routers|
    ensures m.StatsUpdate? ==> v' == View(v.routers, Some(m.stats))
    ensures m.Unrecognized? || m.Malformed? ==> v' == v
  {
    match m
    case RouterUpdate(id, p) => View(UpdateRouters(v.routers, id, p), v.stats)
    case StatsUpdate(st) => View(v.routers, Some(st))
    case Unrecognized(_) => v
    case Malformed => v
  }

  /** The effect of a sequence of push messages, in arrival order. */
  function ApplyAll(v: View, ms: seq<Message>): (v': View)
  {
    if |ms| == 0 then v else Apply(ApplyAll(v, ms[..|ms| - 1]), ms[|ms| - 1])
  }

  // ---------------------------------------------------------------------
  // Last write wins, field by field

  /** The patch carrying no field. */
  const NoChange := RouterPatch(None, None, None, None, None, None)

  /** The latest present value in `xs`, if any. */
  function LastPresent<T>(xs: seq<Option<T>>): (r: Option<T>)
    ensures r.None? <==> forall i :: 0 <= i < |xs| ==> xs[i].None?
    ensures r.Some? ==> exists j :: 0 <= j < |xs| && xs[j] == r &&
                                     (forall k :: j < k < |xs| ==> xs[k].None?)
  {
    if |xs| == 0 then None
    else if xs[|xs| - 1].Some? then xs[|xs| - 1]
    else
      var r := LastPresent(xs[..|xs| - 1]);
      assert r.Some? ==> exists j :: 0 <= j < |xs| - 1 && xs[j] == r &&
                                      (forall k :: j < k < |xs| ==> xs[k].None?);
      r
  }

  /** One patch carrying, for each field, the latest value the patches of
      `ps` carry for it. */
  function Compose(ps: seq<RouterPatch>): (p: RouterPatch)
  {
    RouterPatch(
      LastPresent(seq(|ps|, i requires 0 <= i < |ps| => ps[i].status)),
      LastPresent(seq(|ps|, i requires 0 <= i < |ps| => ps[i].cpu)),
      LastPresent(seq(|ps|, i requires 0 <= i < |ps| => ps[i].memory)),
      LastPresent(seq(|ps|, i requires 0 <= i < |ps| => ps[i].latency)),
      LastPresent(seq(|ps|, i requires 0 <= i < |ps| => ps[i].temperature)),
      LastPresent(seq(|ps|, i requires 0 <= i < |ps| => ps[i].pppoeSessions)))
  }

  /** Applying the patches of `ps` to one router, in order. */
  function MergeAll(r: Router, ps: seq<RouterPatch>): (m: Router)
  {
    if |ps| == 0 then r else Merge(MergeAll(r, ps[..|ps| - 1]), ps[|ps| - 1])
  }

  /** The patches of the `router_update` messages of `ms` addressed to `id`,
      in arrival order. */
  function PatchesFor(ms: seq<Message>, id: int): (ps: seq<RouterPatch>)
    ensures |ps| <= |ms|
  {
    if |ms| == 0 then []
    else
      var m := ms[|ms| - 1];
      PatchesFor(ms[..|ms| - 1], id) +
        (if m.RouterUpdate? && m.routerId == id then [m.patch] else [])
  }

  /** The stats of the latest `network_stats_update` of `ms`, if any. */
  function LastStats(ms: seq<Message>): (st: Option<NetworkStats>)
  {
    if |ms| == 0 then None
    else if ms[|ms| - 1].StatsUpdate? then Some(ms[|ms| - 1].stats)
    else LastStats(ms[..|ms| - 1])
  }

  /** Applying a sequence of patches is applying the single patch that keeps
      the latest value of every field: last write wins per field, not per
      record. */
  lemma {:induction false} MergeAllIsCompose(r: Router, ps: seq<RouterPatch>)
    ensures MergeAll(r, ps) == Merge(r, Compose(ps))
  {
    if |ps| == 0 {
      assert Compose(ps) == NoChange;
    } else {
      var n := |ps| - 1;
      MergeAllIsCompose(r, ps[..n]);
      var c := Compose(ps[..n]);
      var q := ps[n];
      var c' := Compose(ps);
      assert seq(|ps|, i requires 0 <= i < |ps| => ps[i].status)[..n] == seq(n, i requires 0 <= i < n => ps[..n][i].status);
      assert seq(|ps|, i requires 0 <= i < |ps| => ps[i].cpu)[..n] == seq(n, i requires 0 <= i < n => ps[..n][i].cpu);
      assert seq(|ps|, i requires 0 <= i < |ps| => ps[i].memory)[..n] == seq(n, i requires 0 <= i < n => ps[..n][i].memory);
      assert seq(|ps|, i requires 0 <= i < |ps| => ps[i].latency)[..n] == seq(n, i requires 0 <= i < n => ps[..n][i].latency);
      assert seq(|ps|, i requires 0 <= i < |ps| => ps[i].temperature)[..n] == seq(n, i requires 0 <= i < n => ps[..n][i].temperature);
      assert seq(|ps|, i requires 0 <= i < |ps| => ps[i].pppoeSessions)[..n] == seq(n, i requires 0 <= i < n => ps[..n][i].pppoeSessions);
      assert c'.status == (if q.status.Some? then q.status else c.status);
      assert c'.cpu == (if q.cpu.Some? then q.cpu else c.cpu);
      assert c'.memory == (if q.memory.Some? then q.memory else c.memory);
      assert c'.latency == (if q.latency.Some? then q.latency else c.latency);
      assert c'.temperature == (if q.temperature.Some? then q.temperature else c.temperature);
      assert c'.pppoeSessions == (if q.pppoeSessions.Some? then q.pppoeSessions else c.pppoeSessions);
    }
  }

  /** After a stream of messages, each router is its bootstrap record with
      exactly the patches addressed to its id applied in arrival order; the
      list keeps its length and order and no router changes identity. */
  lemma {:induction false} RoutersAfterStream(v: View, ms: seq<Message>)
    ensures |ApplyAll(v, ms).routers| == |v.routers|
    ensures forall i :: 0 <= i < |v.routers| ==>
      ApplyAll(v, ms).routers[i] == MergeAll(v.routers[i], PatchesFor(ms, v.routers[i].id))
  {
    if |ms| > 0 {
      var n := |ms| - 1;
      RoutersAfterStream(v, ms[..n]);
      forall i | 0 <= i < |v.routers|
        ensures ApplyAll(v, ms).routers[i] == MergeAll(v.routers[i], PatchesFor(ms, v.routers[i].id))
      {
        RouterAfterOneMore(v, ms, i);
      }
    }
  }

  lemma RouterAfterOneMore(v: View, ms: seq<Message>, i: int)
    requires |ms| > 0 && 0 <= i < |v.routers|
    requires |ApplyAll(v, ms[..|ms| - 1]).routers| == |v.routers|
    requires ApplyAll(v, ms[..|ms| - 1]).routers[i] ==
      MergeAll(v.routers[i], PatchesFor(ms[..|ms| - 1], v.routers[i].id))
    ensures |ApplyAll(v, ms).routers| == |v.routers|
    ensures ApplyAll(v, ms).routers[i] == MergeAll(v.routers[i], PatchesFor(ms, v.routers[i].id))
  {
    var n := |ms| - 1;
    var prev := ApplyAll(v, ms[..n]);
    var m := ms[n];
    var id := v.routers[i].id;
    var ps := PatchesFor(ms[..n], id);
    MergeAllKeepsId(v.routers[i], ps);
    assert prev.routers[i].id == id;
    if m.RouterUpdate? && m.routerId == id {
      assert PatchesFor(ms, id) == ps + [m.patch];
      assert (ps + [m.patch])[..|ps|] == ps;
    } else {
      assert PatchesFor(ms, id) == ps;
    }
  }

  lemma {:induction false} MergeAllKeepsId(r: Router, ps: seq<RouterPatch>)
    ensures MergeAll(r, ps).id == r.id
  {
    if |ps| > 0 {
      MergeAllKeepsId(r, ps[..|ps| - 1]);
    }
  }

  /** After a stream of messages the stats are those of the latest
      `network_stats_update`, or the previous stats when there was none:
      stats are replaced wholesale, never merged. */
  lemma {:induction false} StatsAfterStream(v: View, ms: seq<Message>)
    ensures ApplyAll(v, ms).stats == if LastStats(ms).Some? then LastStats(ms) else v.stats
  {
    if |ms| > 0 {
      StatsAfterStream(v, ms[..|ms| - 1]);
    }
  }

  /** A `router_update` for an id no router has leaves the view unchanged. */
  lemma UnknownRouterIgnored(v: View, id: int, p: RouterPatch)
    requires forall i :: 0 <= i < |v.routers| ==> v.routers[i].id != id
    ensures Apply(v, RouterUpdate(id, p)) == v
  {
    assert UpdateRouters(v.routers, id, p) == v.routers;
  }

  /** Re-applying the same patch changes nothing more. */
  lemma MergeIdempotent(r: Router, p: RouterPatch)
    ensures Merge(Merge(r, p), p) == Merge(r, p)
  {
  }
}
