/** The live network-health page of src/pages/dashboard/NetworkHealth.tsx as
    a state machine over the events its effect reacts to: the joined
    bootstrap (both requests under `Promise.all`) settling, decoded push
    messages, the socket closing, and the effect's cleanup on unmount. */
module NetworkHealth {
  import opened Wrappers
  import opened NetworkTypes
  import opened Snapshot
  import opened HealthView

  datatype Event =
    | BootOk(routers: seq<Router>, stats: NetworkStats)  // both requests resolved
    | BootFail                                           // either request rejected
    | Stream(msg: Message)                               // one `onmessage` delivery
    | SocketClosed                                       // transport closed; no reconnection
    | Unmount                                             // React runs the effect cleanup

  /** `mounted` is the effect's `isMounted` flag; `cleanup` records whether the
      effect returned its cleanup function, which it does only after opening
      the socket. */
  datatype State = State(
    view: View,
    loading: bool,
    error: Option<string>,
    mounted: bool,
    socketOpen: bool,
    cleanup: bool)

  const BootError := "Failed to connect to monitoring services."

  /** The token gate `if (!token) return;`: null and the empty string both
      leave the socket unopened. */
  predicate HasToken(token: Option<string>) {
    token.Some? && token.value != ""
  }

  /** The state right after the effect has run. */
  function Start(token: Option<string>): (s: State)
    ensures s.view == View([], None) && s.loading && s.error == None && s.mounted
    ensures s.socketOpen <==> HasToken(token)
    ensures s.cleanup <==> HasToken(token)
  {
    State(View([], None), true, None, true, HasToken(token), HasToken(token))
  }

  function Step(s: State, e: Event): (s': State)
    ensures s'.cleanup == s.cleanup
    ensures e.BootOk? && s.mounted ==> s' == s.(view := View(e.routers, Some(e.stats)), loading := false)
    ensures e.BootFail? && s.mounted ==> s' == s.(error := Some(BootError), loading := false)
    ensures (e.BootOk? || e.BootFail?) && !s.mounted ==> s' == s
    ensures e.Stream? && s.socketOpen ==> s' == s.(view := Apply(s.view, e.msg))
    ensures e.Stream? && !s.socketOpen ==> s' == s
    ensures e.Unmount? && s.cleanup ==> s' == s.(mounted := false, socketOpen := false)
    ensures e.Unmount? && !s.cleanup ==> s' == s
    ensures e.SocketClosed? ==> s' == s.(socketOpen := false)
  {
    match e
    case BootOk(rs, st) =>
      if s.mounted then s.(view := View(rs, Some(st)), loading := false) else s
    case BootFail =>
      if s.mounted then s.(error := Some(BootError), loading := false) else s
    case Stream(m) =>
      if s.socketOpen then s.(view := Apply(s.view, m)) else s
    case SocketClosed =>
      s.(socketOpen := false)
    case Unmount =>
      if s.cleanup then s.(mounted := false, socketOpen := false) else s
  }

  /** The state after a trace of events, applied in order. */
  function Run(s: State, t: seq<Event>): (s': State)
  {
    if |t| == 0 then s else Step(Run(s, t[..|t| - 1]), t[|t| - 1])
  }

  function Screen(s: State): (sc: Screen) {
    Render(s.loading, s.error, s.view)
  }

  lemma RunOne(s: State, e: Event)
    ensures Run(s, [e]) == Step(s, e)
  {
    assert [e][..0] == [];
  }

  lemma {:induction false} RunAppend(s: State, a: seq<Event>, b: seq<Event>)
    ensures Run(s, a + b) == Run(Run(s, a), b)
    decreases |b|
  {
    if |b| == 0 {
      assert a + b == a;
    } else {
      assert (a + b)[..|a + b| - 1] == a + b[..|b| - 1];
      RunAppend(s, a, b[..|b| - 1]);
    }
  }

  /** Once the cleanup has run, no event changes the state: late bootstrap
      results are discarded and no message is delivered. */
  lemma {:induction false} CleanedUpIsFinal(s: State, t: seq<Event>)
    requires s.cleanup && !s.mounted && !s.socketOpen
    ensures Run(s, t) == s
  {
    if |t| > 0 {
      CleanedUpIsFinal(s, t[..|t| - 1]);
    }
  }

  /** With a token, everything after an unmount is ignored. */
  lemma LateEventsAfterUnmountIgnored(token: Option<string>, before: seq<Event>, after: seq<Event>)
    requires HasToken(token)
    ensures Run(Start(token), before + [Unmount] + after) == Run(Start(token), before + [Unmount])
  {
    var s := Run(Start(token), before + [Unmount]);
    CleanupFixed(Start(token), before + [Unmount]);
    assert (before + [Unmount])[..|before + [Unmount]| - 1] == before;
    RunAppend(Start(token), before + [Unmount], after);
    CleanedUpIsFinal(s, after);
  }

  lemma {:induction false} CleanupFixed(s: State, t: seq<Event>)
    ensures Run(s, t).cleanup == s.cleanup
  {
    if |t| > 0 {
      CleanupFixed(s, t[..|t| - 1]);
    }
  }

  /** The bootstrap events of a trace, in order. */
  function BootEvents(t: seq<Event>): (b: seq<Event>)
    ensures forall i :: 0 <= i < |b| ==> b[i].BootOk? || b[i].BootFail?
  {
    if |t| == 0 then []
    else BootEvents(t[..|t| - 1]) + (if t[|t| - 1].BootOk? || t[|t| - 1].BootFail? then [t[|t| - 1]] else [])
  }

  /** Without a token no socket exists and no cleanup is registered: the
      state only ever reflects the bootstrap events, `isMounted` is never
      cleared, and the socket stays closed. */
  lemma {:induction false} NoTokenOnlyBootstrap(token: Option<string>, t: seq<Event>)
    requires !HasToken(token)
    ensures Run(Start(token), t) == Run(Start(token), BootEvents(t))
    ensures Run(Start(token), t).mounted && !Run(Start(token), t).socketOpen
  {
    if |t| > 0 {
      var n := |t| - 1;
      NoTokenOnlyBootstrap(token, t[..n]);
      CleanupFixed(Start(token), t[..n]);
      if t[n].BootOk? || t[n].BootFail? {
        var b := BootEvents(t[..n]);
        assert BootEvents(t) == b + [t[n]];
        assert (b + [t[n]])[..|b|] == b;
      } else {
        assert BootEvents(t) == BootEvents(t[..n]);
      }
    }
  }

  /** Stream messages never create routers: while no bootstrap has
      succeeded, the router list stays empty. */
  lemma {:induction false} RoutersOnlyFromBootstrap(token: Option<string>, t: seq<Event>)
    requires forall i :: 0 <= i < |t| ==> !t[i].BootOk?
    ensures Run(Start(token), t).view.routers == []
  {
    if |t| > 0 {
      RoutersOnlyFromBootstrap(token, t[..|t| - 1]);
    }
  }

  /** While the bootstrap has not settled the page shows the loading banner,
      whatever the stream delivers meanwhile. */
  lemma {:induction false} LoadingUntilBootstrap(token: Option<string>, t: seq<Event>)
    requires forall i :: 0 <= i < |t| ==> !t[i].BootOk? && !t[i].BootFail?
    ensures Run(Start(token), t).loading
    ensures Screen(Run(Start(token), t)) == LoadingScreen
  {
    if |t| > 0 {
      LoadingUntilBootstrap(token, t[..|t| - 1]);
    }
  }

  /** A failed bootstrap is final for the page: the error banner stays up
      whatever arrives later, because nothing clears `error` or sets
      `loading` again. */
  lemma {:induction false} ErrorScreenIsFinal(s: State, t: seq<Event>)
    requires !s.loading && s.error == Some(BootError)
    ensures Screen(Run(s, t)) == ErrorScreen(BootError)
    ensures !Run(s, t).loading && Run(s, t).error == Some(BootError)
  {
    if |t| > 0 {
      ErrorScreenIsFinal(s, t[..|t| - 1]);
    }
  }

  /** On an open socket, a run of messages acts exactly as the shared reducer
      applied to those messages in order. */
  lemma {:induction false} StreamRunIsApplyAll(s: State, ms: seq<Message>)
    requires s.socketOpen
    ensures Run(s, StreamOf(ms)) == s.(view := ApplyAll(s.view, ms))
  {
    if |ms| > 0 {
      var n := |ms| - 1;
      assert StreamOf(ms)[..n] == StreamOf(ms[..n]);
      StreamRunIsApplyAll(s, ms[..n]);
    }
  }

  /** Messages delivered one after another as stream events. */
  function StreamOf(ms: seq<Message>): (t: seq<Event>)
    ensures |t| == |ms|
    ensures forall i :: 0 <= i < |ms| ==> t[i] == Stream(ms[i])
  {
    seq(|ms|, i requires 0 <= i < |ms| => Stream(ms[i]))
  }

  /** Without an unmount the page stays mounted. */
  lemma {:induction false} MountedUntilUnmount(token: Option<string>, t: seq<Event>)
    requires forall i :: 0 <= i < |t| ==> !t[i].Unmount?
    ensures Run(Start(token), t).mounted
  {
    if |t| > 0 {
      MountedUntilUnmount(token, t[..|t| - 1]);
    }
  }

  /** Stream messages that arrive before the bootstrap settles are applied
      (stats included), but a successful bootstrap then replaces routers and
      stats wholesale, discarding them. */
  lemma {:induction false} BootstrapOverwritesEarlyStream(token: Option<string>, t: seq<Event>, rs: seq<Router>, st: NetworkStats)
    requires forall i :: 0 <= i < |t| ==> !t[i].Unmount?
    ensures Run(Start(token), t + [BootOk(rs, st)]).view == View(rs, Some(st))
  {
    MountedUntilUnmount(token, t);
    assert (t + [BootOk(rs, st)])[..|t|] == t;
  }

  /** The bootstrap is all or nothing: a success sets both the routers and
      the stats and shows the dashboard; a failure sets neither. */
  lemma BootstrapAllOrNothing(token: Option<string>, rs: seq<Router>, st: NetworkStats)
    ensures Run(Start(token), [BootOk(rs, st)]).view == View(rs, Some(st))
    ensures Screen(Run(Start(token), [BootOk(rs, st)])).Dashboard?
    ensures Run(Start(token), [BootFail]).view == View([], None)
    ensures Screen(Run(Start(token), [BootFail])) == ErrorScreen(BootError)
  {
    RunOne(Start(token), BootOk(rs, st));
    RunOne(Start(token), BootFail);
  }
}
