/** The older network-health page of src/pages/dashboard/copy.tsx. Its
    bootstrap awaits the routers request and only then issues the stats
    request; each is caught on its own, so either may fail without affecting
    the other. The stream handling is the same as the joined variant's. */
module SequentialHealth {
  import opened Wrappers
  import opened NetworkTypes
  import opened Snapshot
  import opened HealthView
  import NetworkHealth

  /** Which bootstrap request is outstanding. */
  datatype Phase = AwaitRouters | AwaitStats | Settled

  datatype Event =
    | RoutersOk(routers: seq<Router>)
    | RoutersFail
    | StatsOk(stats: NetworkStats)
    | StatsFail
    | Stream(msg: Message)
    | SocketClosed
    | Unmount

  /** The page state; `error` is declared by the page but never assigned. */
  datatype State = State(
    view: View,
    loading: bool,
    error: Option<string>,
    mounted: bool,
    socketOpen: bool,
    cleanup: bool,
    phase: Phase)

  function Start(token: Option<string>): (s: State)
    ensures s.view == View([], None) && s.loading && s.error == None && s.mounted
    ensures s.phase == AwaitRouters
    ensures s.socketOpen <==> NetworkHealth.HasToken(token)
    ensures s.cleanup <==> NetworkHealth.HasToken(token)
  {
    var open := NetworkHealth.HasToken(token);
    State(View([], None), true, None, true, open, open, AwaitRouters)
  }

  /** One event. A bootstrap result that does not answer the outstanding
      request cannot occur (the requests are sequential) and is ignored. */
  function Step(s: State, e: Event): (s': State)
    ensures s'.error == s.error && s'.cleanup == s.cleanup
    ensures s'.loading ==> s.loading
    ensures (e.StatsOk? || e.StatsFail?) && s.phase != AwaitStats ==> s' == s
    ensures (e.RoutersOk? || e.RoutersFail?) && s.phase != AwaitRouters ==> s' == s
    ensures e.RoutersOk? && s.phase == AwaitRouters ==>
      s' == s.(phase := AwaitStats, view := if s.mounted then View(e.routers, s.view.stats) else s.view)
    ensures e.RoutersFail? && s.phase == AwaitRouters ==> s' == s.(phase := AwaitStats)
    ensures e.StatsOk? && s.phase == AwaitStats && s.mounted ==>
      s' == s.(phase := Settled, view := View(s.view.routers, Some(e.stats)), loading := false)
    ensures e.StatsOk? && s.phase == AwaitStats && !s.mounted ==> s' == s.(phase := Settled)
    ensures e.StatsFail? && s.phase == AwaitStats ==>
      s' == s.(phase := Settled, loading := if s.mounted then false else s.loading)
    ensures e.Stream? && s.socketOpen ==> s' == s.(view := Apply(s.view, e.msg))
    ensures e.Stream? && !s.socketOpen ==> s' == s
    ensures e.Unmount? && s.cleanup ==> s' == s.(mounted := false, socketOpen := false)
    ensures e.Unmount? && !s.cleanup ==> s' == s
    ensures e.SocketClosed? ==> s' == s.(socketOpen := false)
  {
    match e
    case RoutersOk(rs) =>
      if s.phase != AwaitRouters then s
      else if s.mounted then s.(phase := AwaitStats, view := View(rs, s.view.stats))
      else s.(phase := AwaitStats)
    case RoutersFail =>
      if s.phase != AwaitRouters then s else s.(phase := AwaitStats)
    case StatsOk(st) =>
      if s.phase != AwaitStats then s
      else if s.mounted then s.(phase := Settled, view := View(s.view.routers, Some(st)), loading := false)
      else s.(phase := Settled)
    case StatsFail =>
      if s.phase != AwaitStats then s
      else if s.mounted then s.(phase := Settled, loading := false)
      else s.(phase := Settled)
    case Stream(m) =>
      if s.socketOpen then s.(view := Apply(s.view, m)) else s
    case SocketClosed =>
      s.(socketOpen := false)
    case Unmount =>
      if s.cleanup then s.(mounted := false, socketOpen := false) else s
  }

  function Run(s: State, t: seq<Event>): (s': State)
  {
    if |t| == 0 then s else Step(Run(s, t[..|t| - 1]), t[|t| - 1])
  }

  function Screen(s: State): (sc: Screen) {
    Render(s.loading, s.error, s.view)
  }

  lemma RunTwo(s: State, e1: Event, e2: Event)
    ensures Run(s, [e1]) == Step(s, e1)
    ensures Run(s, [e1, e2]) == Step(Step(s, e1), e2)
  {
    assert [e1, e2][..1] == [e1];
    assert [e1][..0] == [];
  }

  lemma {:induction false} RunAppend(s: State, a: seq<Event>, b: seq<Event>)
    ensures Run(s, a + b) == Run(Run(s, a), b)
    decreases |b|
  {
    if |b| == 0 {
      assert a + b == a;
    } else {
      assert (a + b)[..|a + b| - 1] == a + b[..|b| - 1];
      RunAppend(s, a, b[..|b| - 1]);
    }
  }

  /** No path assigns `error`: it stays null, so the error banner can never
      be shown. */
  lemma {:induction false} ErrorNeverSet(token: Option<string>, t: seq<Event>)
    ensures Run(Start(token), t).error == None
    ensures !Screen(Run(Start(token), t)).ErrorScreen?
  {
    if |t| > 0 {
      ErrorNeverSet(token, t[..|t| - 1]);
    }
  }

  /** The two bootstrap requests succeed or fail independently: whatever the
      routers request did, a successful stats request is applied, and both
      results land while the page is mounted. */
  lemma BootstrapIndependent(token: Option<string>, routersOk: bool, rs: seq<Router>,
                             statsOk: bool, st: NetworkStats)
    ensures var s := Run(Start(token), [if routersOk then RoutersOk(rs) else RoutersFail,
                                        if statsOk then StatsOk(st) else StatsFail]);
      && s.phase == Settled && !s.loading
      && s.view.routers == (if routersOk then rs else [])
      && s.view.stats == (if statsOk then Some(st) else None)
  {
    var e1 := if routersOk then RoutersOk(rs) else RoutersFail;
    var e2 := if statsOk then StatsOk(st) else StatsFail;
    RunTwo(Start(token), e1, e2);
  }

  /** The stats request is only issued once the routers request has
      settled: a stats result before that is not applied. */
  lemma {:induction false} StatsWaitForRouters(token: Option<string>, t: seq<Event>)
    requires forall i :: 0 <= i < |t| ==> !t[i].RoutersOk? && !t[i].RoutersFail?
    ensures Run(Start(token), t).phase == AwaitRouters
    ensures Run(Start(token), t).view.stats == Run(Start(token), Streams(t)).view.stats
    ensures Run(Start(token), t).loading
  {
    if |t| > 0 {
      var n := |t| - 1;
      StatsWaitForRouters(token, t[..n]);
      if t[n].Stream? || t[n].SocketClosed? || t[n].Unmount? {
        assert Streams(t) == Streams(t[..n]) + [t[n]];
        assert (Streams(t[..n]) + [t[n]])[..|Streams(t[..n])|] == Streams(t[..n]);
        StreamsSocketAgree(token, t[..n]);
      } else {
        assert Streams(t) == Streams(t[..n]);
      }
    }
  }

  /** Only the stream, socket and unmount events of a trace. */
  function Streams(t: seq<Event>): (r: seq<Event>)
    ensures forall i :: 0 <= i < |r| ==> r[i].Stream? || r[i].SocketClosed? || r[i].Unmount?
  {
    if |t| == 0 then []
    else
      var e := t[|t| - 1];
      Streams(t[..|t| - 1]) + (if e.Stream? || e.SocketClosed? || e.Unmount? then [e] else [])
  }

  /** The socket and mount flags depend only on the stream, socket and
      unmount events. */
  lemma {:induction false} StreamsSocketAgree(token: Option<string>, t: seq<Event>)
    ensures Run(Start(token), t).socketOpen == Run(Start(token), Streams(t)).socketOpen
    ensures Run(Start(token), t).mounted == Run(Start(token), Streams(t)).mounted
    ensures Run(Start(token), t).cleanup == Run(Start(token), Streams(t)).cleanup
  {
    if |t| > 0 {
      var n := |t| - 1;
      StreamsSocketAgree(token, t[..n]);
      var e := t[n];
      if e.Stream? || e.SocketClosed? || e.Unmount? {
        assert Streams(t) == Streams(t[..n]) + [e];
        assert (Streams(t[..n]) + [e])[..|Streams(t[..n])|] == Streams(t[..n]);
      } else {
        assert Streams(t) == Streams(t[..n]);
      }
    }
  }

  /** After a failed stats request, as long as no `network_stats_update`
      arrives, the page renders nothing at all. */
  lemma {:induction false} FailedStatsRendersBlank(s: State, t: seq<Event>)
    requires s.phase == Settled && !s.loading && s.error == None && s.view.stats == None
    requires forall i :: 0 <= i < |t| ==> !(t[i].Stream? && t[i].msg.StatsUpdate?)
    ensures Screen(Run(s, t)) == Blank
    ensures Run(s, t).phase == Settled && !Run(s, t).loading && Run(s, t).error == None
    ensures Run(s, t).view.stats == None
  {
    if |t| > 0 {
      FailedStatsRendersBlank(s, t[..|t| - 1]);
    }
  }

  /** Once the cleanup has run, late bootstrap results, messages and loading
      changes are not applied: only the bookkeeping of which request is
      outstanding advances. */
  lemma {:induction false} CleanedUpIsFinal(s: State, t: seq<Event>)
    requires s.cleanup && !s.mounted && !s.socketOpen
    ensures Run(s, t) == s.(phase := Run(s, t).phase)
  {
    if |t| > 0 {
      CleanedUpIsFinal(s, t[..|t| - 1]);
    }
  }

  // ---------------------------------------------------------------------
  // Agreement with the joined variant

  /** The states of the two variants show the same page and react to the
      stream the same way. */
  predicate Agrees(c: State, h: NetworkHealth.State) {
    c.view == h.view && c.loading == h.loading && c.error == h.error &&
    c.mounted == h.mounted && c.socketOpen == h.socketOpen && c.cleanup == h.cleanup
  }

  /** The joined variant's counterpart of a non-bootstrap event. */
  function Joined(e: Event): NetworkHealth.Event
    requires e.Stream? || e.SocketClosed? || e.Unmount?
  {
    match e
    case Stream(m) => NetworkHealth.Stream(m)
    case SocketClosed => NetworkHealth.SocketClosed
    case Unmount => NetworkHealth.Unmount
  }

  function JoinedTrace(t: seq<Event>): (r: seq<NetworkHealth.Event>)
    requires forall i :: 0 <= i < |t| ==> t[i].Stream? || t[i].SocketClosed? || t[i].Unmount?
    ensures |r| == |t|
  {
    seq(|t|, i requires 0 <= i < |t| => Joined(t[i]))
  }

  /** When both requests succeed, the sequential variant ends up exactly
      where the joined variant does, and from then on the two agree on every
      stream, socket and unmount event: the stream reducer is the same. */
  lemma {:induction false} AgreesWithJoinedVariant(token: Option<string>, rs: seq<Router>,
                                                  st: NetworkStats, t: seq<Event>)
    requires forall i :: 0 <= i < |t| ==> t[i].Stream? || t[i].SocketClosed? || t[i].Unmount?
    ensures Agrees(Run(Start(token), [RoutersOk(rs), StatsOk(st)] + t),
                   NetworkHealth.Run(NetworkHealth.Start(token), [NetworkHealth.BootOk(rs, st)] + JoinedTrace(t)))
  {
    var c0 := Run(Start(token), [RoutersOk(rs), StatsOk(st)]);
    var h0 := NetworkHealth.Run(NetworkHealth.Start(token), [NetworkHealth.BootOk(rs, st)]);
    RunTwo(Start(token), RoutersOk(rs), StatsOk(st));
    NetworkHealth.RunOne(NetworkHealth.Start(token), NetworkHealth.BootOk(rs, st));
    assert Agrees(c0, h0);
    RunAppend(Start(token), [RoutersOk(rs), StatsOk(st)], t);
    NetworkHealth.RunAppend(NetworkHealth.Start(token), [NetworkHealth.BootOk(rs, st)], JoinedTrace(t));
    AgreementPreserved(c0, h0, t);
  }

  lemma {:induction false} AgreementPreserved(c: State, h: NetworkHealth.State, t: seq<Event>)
    requires Agrees(c, h)
    requires forall i :: 0 <= i < |t| ==> t[i].Stream? || t[i].SocketClosed? || t[i].Unmount?
    ensures Agrees(Run(c, t), NetworkHealth.Run(h, JoinedTrace(t)))
  {
    if |t| > 0 {
      var n := |t| - 1;
      assert JoinedTrace(t)[..n] == JoinedTrace(t[..n]);
      AgreementPreserved(c, h, t[..n]);
    }
  }

  /** Where the variants part: routers loaded but stats failed. The joined
      variant shows its error banner and no routers; the sequential one keeps
      the routers and renders nothing. */
  lemma PartialFailureDiverges(token: Option<string>, rs: seq<Router>)
    ensures Screen(Run(Start(token), [RoutersOk(rs), StatsFail])) == Blank
    ensures Run(Start(token), [RoutersOk(rs), StatsFail]).view.routers == rs
    ensures NetworkHealth.Screen(NetworkHealth.Run(NetworkHealth.Start(token), [NetworkHealth.BootFail]))
      == ErrorScreen(NetworkHealth.BootError)
    ensures NetworkHealth.Run(NetworkHealth.Start(token), [NetworkHealth.BootFail]).view.routers == []
  {
    RunTwo(Start(token), RoutersOk(rs), StatsFail);
    NetworkHealth.RunOne(NetworkHealth.Start(token), NetworkHealth.BootFail);
  }
}
