/** The synchronization controller (src/client/sync-controller.ts): drift correction
    towards the leader, and play/pause mirroring with a single shared echo flag. */
module Sync {
  import opened Playback
  import YouTubeWrapper
  import SpotifyWrapper

  datatype PlayerId = YouTube | Spotify

  function Other(p: PlayerId): (q: PlayerId)
    ensures q != p
  {
    if p == YouTube then Spotify else YouTube
  }

  /** The period of the drift tick; ticks are explicit calls here, so only documentary. */
  const SYNC_INTERVAL_MS: nat := 500
  const DRIFT_THRESHOLD_S: real := 1.5

  /** A handle returned by `setInterval`. */
  type TimerHandle = nat

  /** One call the controller makes on a player wrapper. */
  datatype Call = Call(to: PlayerId, command: Command)

  /** The controller's fields, the intervals still running in the page, and the log
      of every call the controller has made on the two wrappers, oldest first. */
  datatype ControllerState = ControllerState(
    leader: PlayerId,
    ignoreNextStateChange: bool,
    intervalId: Option<TimerHandle>,
    liveIntervals: set<TimerHandle>,
    issued: seq<Call>)

  /** The state right after construction. */
  const Initial: ControllerState := ControllerState(YouTube, false, None, {}, [])

  /** A position in `p`'s own unit, read in seconds. */
  function Seconds(p: PlayerId, position: real): real
  {
    if p == YouTube then position else position / 1000.0
  }

  /** The command of `c`, if it goes to `p`. */
  function Own(p: PlayerId, c: Call): seq<Command>
  {
    if c.to == p then [c.command] else []
  }

  /** The commands among `calls` that go to `p`, in order. */
  function CommandsTo(p: PlayerId, calls: seq<Call>): (r: seq<Command>)
    ensures |r| <= |calls|
    ensures forall c :: c in r ==> Call(p, c) in calls
  {
    if calls == [] then [] else Own(p, calls[0]) + CommandsTo(p, calls[1..])
  }

  /** Projecting a concatenation of logs is concatenating the projections. */
  lemma {:induction false} CommandsToDistributes(p: PlayerId, a: seq<Call>, b: seq<Call>)
    ensures CommandsTo(p, a + b) == CommandsTo(p, a) + CommandsTo(p, b)
    decreases |a|
  {
    if a == [] {
      assert a + b == b;
    } else {
      assert (a + b)[0] == a[0] && (a + b)[1..] == a[1..] + b;
      CommandsToDistributes(p, a[1..], b);
      var h, x, y := Own(p, a[0]), CommandsTo(p, a[1..]), CommandsTo(p, b);
      assert h + (x + y) == (h + x) + y;
    }
  }

  // ---------------------------------------------------------------------------
  // The interval timer
  // ---------------------------------------------------------------------------

  /** `start` with the handle `setInterval` returned: the handle field is overwritten
      whatever it held before. */
  function Started(s: ControllerState, h: TimerHandle): ControllerState
  {
    s.(intervalId := Some(h), liveIntervals := s.liveIntervals + {h})
  }

  /** `stop`: clear the interval in the handle field, if any. */
  function Stopped(s: ControllerState): ControllerState
  {
    match s.intervalId
    case None => s
    case Some(h) => s.(intervalId := None, liveIntervals := s.liveIntervals - {h})
  }

  /** After `stop` no interval is held and the one held before runs no more; a second
      `stop` changes nothing. Nothing but the timer changes. */
  lemma StopIsIdempotent(s: ControllerState)
    ensures Stopped(s).intervalId == None
    ensures s.intervalId.Some? ==> s.intervalId.value !in Stopped(s).liveIntervals
    ensures Stopped(Stopped(s)) == Stopped(s)
    ensures Stopped(s).(intervalId := s.intervalId, liveIntervals := s.liveIntervals) == s
  {
  }

  /** Two `start`s then a `stop` leave the first interval running with no handle to it. */
  lemma RestartLeaksFirstInterval(s: ControllerState, h1: TimerHandle, h2: TimerHandle)
    requires h1 != h2
    ensures var t := Stopped(Started(Started(s, h1), h2));
            t.intervalId == None && h1 in t.liveIntervals && h2 !in t.liveIntervals
  {
  }

  // ---------------------------------------------------------------------------
  // Fan-out commands
  // ---------------------------------------------------------------------------

  /** Issue `toYouTube` to YouTube, then `toSpotify` to Spotify. */
  function Commanded(s: ControllerState, toYouTube: Command, toSpotify: Command): ControllerState
  {
    s.(issued := s.issued + [Call(YouTube, toYouTube), Call(Spotify, toSpotify)])
  }

  function PlayedBoth(s: ControllerState): ControllerState
  {
    Commanded(s, Command.Play, Command.Play)
  }

  function PausedBoth(s: ControllerState): ControllerState
  {
    Commanded(s, Command.Pause, Command.Pause)
  }

  /** `seekTo(seconds)`: seconds for YouTube, milliseconds for Spotify. */
  function SoughtBoth(s: ControllerState, seconds: real): ControllerState
  {
    Commanded(s, Command.SeekTo(seconds), Command.SeekTo(seconds * 1000.0))
  }

  /** Each fan-out command appends one call per player, YouTube first, the same command
      to both, and touches neither the leader, the flag nor the timer; a seek sends
      both players to the same instant, each in its own unit. */
  lemma FanOutReachesBothInOrder(s: ControllerState, seconds: real)
    ensures forall r :: r in {PlayedBoth(s), PausedBoth(s), SoughtBoth(s, seconds)} ==>
              r.leader == s.leader && r.ignoreNextStateChange == s.ignoreNextStateChange &&
              r.intervalId == s.intervalId && r.liveIntervals == s.liveIntervals &&
              |r.issued| == |s.issued| + 2 && r.issued[..|s.issued|] == s.issued &&
              r.issued[|s.issued|].to == YouTube && r.issued[|s.issued| + 1].to == Spotify
    ensures PlayedBoth(s).issued[|s.issued|..] == [Call(YouTube, Command.Play), Call(Spotify, Command.Play)]
    ensures PausedBoth(s).issued[|s.issued|..] == [Call(YouTube, Command.Pause), Call(Spotify, Command.Pause)]
    ensures var calls := SoughtBoth(s, seconds).issued[|s.issued|..];
            calls[0].command.SeekTo? && calls[1].command.SeekTo? &&
            Seconds(YouTube, calls[0].command.position) == seconds &&
            Seconds(Spotify, calls[1].command.position) == seconds
  {
  }

  // ---------------------------------------------------------------------------
  // The drift tick
  // ---------------------------------------------------------------------------

  function Abs(x: real): real
  {
    if x < 0.0 then -x else x
  }

  /** The gap between the two positions, in seconds. */
  function Drift(ytSeconds: real, spMillis: real): real
  {
    Abs(ytSeconds - spMillis / 1000.0)
  }

  /** The position of `p`, in seconds, given both readings. */
  function PositionOf(p: PlayerId, ytSeconds: real, spMillis: real): real
  {
    if p == YouTube then ytSeconds else spMillis / 1000.0
  }

  /** The calls one tick makes: none within the threshold, otherwise one seek that
      moves the follower (never the leader) to the leader's position. */
  function SyncCalls(leader: PlayerId, ytSeconds: real, spMillis: real): (r: seq<Call>)
    ensures r == [] <==> Drift(ytSeconds, spMillis) <= DRIFT_THRESHOLD_S
    ensures r != [] ==> |r| == 1 && r[0].to == Other(leader) && r[0].command.SeekTo? &&
                        Seconds(r[0].to, r[0].command.position) == PositionOf(leader, ytSeconds, spMillis)
  {
    var ytTime := ytSeconds;
    var spTime := spMillis / 1000.0;
    if Abs(ytTime - spTime) <= DRIFT_THRESHOLD_S then []
    else if leader == YouTube then [Call(Spotify, Command.SeekTo(ytTime * 1000.0))]
    else [Call(YouTube, Command.SeekTo(spTime))]
  }

  /** Both readings after the players have carried out `calls`. */
  function AfterSeeks(ytSeconds: real, spMillis: real, calls: seq<Call>): (real, real)
    decreases |calls|
  {
    if calls == [] then (ytSeconds, spMillis)
    else
      var (yt, sp) := match calls[0].command
        case SeekTo(p) => if calls[0].to == YouTube then (p, spMillis) else (ytSeconds, p)
        case _ => (ytSeconds, spMillis);
      AfterSeeks(yt, sp, calls[1..])
  }

  /** A correction settles the drift: once the follower has carried out the tick's seek
      (if any), the leader's position is what it was, a corrected pair agrees exactly,
      and the next tick issues nothing. */
  lemma {:induction false} CorrectionSettles(leader: PlayerId, ytSeconds: real, spMillis: real)
    ensures var calls := SyncCalls(leader, ytSeconds, spMillis);
            var (yt, sp) := AfterSeeks(ytSeconds, spMillis, calls);
            PositionOf(leader, yt, sp) == PositionOf(leader, ytSeconds, spMillis) &&
            (calls != [] ==> Drift(yt, sp) == 0.0) &&
            SyncCalls(leader, yt, sp) == []
  {
    var calls := SyncCalls(leader, ytSeconds, spMillis);
    if calls != [] {
      assert calls[1..] == [];
      if leader == YouTube {
        assert AfterSeeks(ytSeconds, spMillis, calls) == (ytSeconds, ytSeconds * 1000.0);
        assert Drift(ytSeconds, ytSeconds * 1000.0) == 0.0;
      } else {
        assert AfterSeeks(ytSeconds, spMillis, calls) == (spMillis / 1000.0, spMillis);
        assert Drift(spMillis / 1000.0, spMillis) == 0.0;
      }
    }
  }

  /** One tick: its calls join the log; nothing else changes. */
  function Ticked(s: ControllerState, ytSeconds: real, spMillis: real): ControllerState
  {
    s.(issued := s.issued + SyncCalls(s.leader, ytSeconds, spMillis))
  }

  /** The Spotify wrapper's position estimate is always 0, so against it every tick past
      the threshold seeks again: with Spotify leading, YouTube goes back to 0; with
      YouTube leading, Spotify goes to YouTube's position. */
  lemma SpotifyEstimateDrivesEveryTick(sp: SpotifyWrapper.SpotifyPlayer, ytSeconds: real)
    requires Abs(ytSeconds) > DRIFT_THRESHOLD_S
    ensures SyncCalls(Spotify, ytSeconds, sp.GetCurrentTime()) == [Call(YouTube, Command.SeekTo(0.0))]
    ensures SyncCalls(YouTube, ytSeconds, sp.GetCurrentTime()) == [Call(Spotify, Command.SeekTo(ytSeconds * 1000.0))]
  {
  }

  // ---------------------------------------------------------------------------
  // State notifications and echo suppression
  // ---------------------------------------------------------------------------

  /** The command a reported state is mirrored as. */
  function Mirror(state: PlayerState): (c: Option<Command>)
    ensures c == Some(Command.Play) <==> state == Playing
    ensures c == Some(Command.Pause) <==> state == Paused
    ensures c == None <==> state == Unstarted
  {
    match state
    case Playing => Some(Command.Play)
    case Paused => Some(Command.Pause)
    case Unstarted => None
  }

  /** The calls that mirror `state` onto player `to`. */
  function Mirrored(to: PlayerId, state: PlayerState): seq<Call>
  {
    match Mirror(state)
    case Some(c) => [Call(to, c)]
    case None => []
  }

  /** A state-change notification from one of the wrappers. */
  datatype Notification = Notification(source: PlayerId, state: PlayerState)

  /** `onYTStateChange` / `onSpStateChange`. */
  function Notified(s: ControllerState, n: Notification): (r: ControllerState)
    ensures r.leader == n.source
    ensures r.ignoreNextStateChange == !s.ignoreNextStateChange
    ensures s.ignoreNextStateChange ==> r.issued == s.issued
    ensures !s.ignoreNextStateChange ==> r.issued == s.issued + Mirrored(Other(n.source), n.state)
    ensures r.intervalId == s.intervalId && r.liveIntervals == s.liveIntervals
  {
    var s' := s.(leader := n.source);
    if s'.ignoreNextStateChange then s'.(ignoreNextStateChange := false)
    else s'.(ignoreNextStateChange := true, issued := s'.issued + Mirrored(Other(n.source), n.state))
  }

  /** The state after the notifications `ns`, delivered in that order. */
  function Replay(s: ControllerState, ns: seq<Notification>): ControllerState
    decreases |ns|
  {
    if ns == [] then s else Replay(Notified(s, ns[0]), ns[1..])
  }

  /** The flag is binary: after `n` notifications it has flipped `n` times, so only the
      parity of the count matters. */
  lemma {:induction false} ReplayFlipsFlag(s: ControllerState, ns: seq<Notification>)
    ensures Replay(s, ns).ignoreNextStateChange == (s.ignoreNextStateChange != (|ns| % 2 == 1))
    decreases |ns|
  {
    if ns != [] {
      ReplayFlipsFlag(Notified(s, ns[0]), ns[1..]);
    }
  }

  /** The leader is the source of the last notification, suppressed or not; notifications
      leave the timer alone. */
  lemma {:induction false} ReplayLeader(s: ControllerState, ns: seq<Notification>)
    ensures ns == [] ==> Replay(s, ns).leader == s.leader
    ensures ns != [] ==> Replay(s, ns).leader == ns[|ns| - 1].source
    ensures Replay(s, ns).intervalId == s.intervalId && Replay(s, ns).liveIntervals == s.liveIntervals
    decreases |ns|
  {
    if ns != [] {
      ReplayLeader(Notified(s, ns[0]), ns[1..]);
      if |ns| > 1 {
        assert ns[1..][|ns| - 2] == ns[|ns| - 1];
      }
    }
  }

  /** The notifications at positions 0, 2, 4, ... of `ns`. */
  function EveryOther(ns: seq<Notification>): (r: seq<Notification>)
    ensures |r| == (|ns| + 1) / 2
    ensures forall i :: 0 <= i < |r| ==> r[i] == ns[2 * i]
    decreases |ns|
  {
    if |ns| <= 1 then ns else [ns[0]] + EveryOther(ns[2..])
  }

  /** The mirror calls for each notification of `ns`, in order. */
  function MirrorAll(ns: seq<Notification>): seq<Call>
    decreases |ns|
  {
    if ns == [] then [] else Mirrored(Other(ns[0].source), ns[0].state) + MirrorAll(ns[1..])
  }

  /** Starting with the flag clear, exactly the 1st, 3rd, 5th, ... notifications are
      mirrored and every other one is swallowed, whichever player sent it. */
  lemma {:induction false} ReplayMirrorsEveryOther(s: ControllerState, ns: seq<Notification>)
    requires !s.ignoreNextStateChange
    ensures Replay(s, ns).issued == s.issued + MirrorAll(EveryOther(ns))
    decreases |ns|
  {
    if |ns| == 1 {
      assert ns[1..] == [];
      assert MirrorAll(ns) == Mirrored(Other(ns[0].source), ns[0].state) + MirrorAll([]);
    } else if |ns| > 1 {
      var s1 := Notified(s, ns[0]);
      var s2 := Notified(s1, ns[1]);
      assert Replay(s, ns) == Replay(s2, ns[2..]) by {
        assert ns[1..][0] == ns[1] && ns[1..][1..] == ns[2..];
      }
      ReplayMirrorsEveryOther(s2, ns[2..]);
      var rest := EveryOther(ns[2..]);
      assert ([ns[0]] + rest)[0] == ns[0] && ([ns[0]] + rest)[1..] == rest;
      assert MirrorAll([ns[0]] + rest) == Mirrored(Other(ns[0].source), ns[0].state) + MirrorAll(rest);
    }
  }

  /** Starting with the flag set, the first notification is swallowed and then exactly
      the 2nd, 4th, ... are mirrored. */
  lemma ReplaySwallowsFirst(s: ControllerState, ns: seq<Notification>)
    requires s.ignoreNextStateChange && ns != []
    ensures Replay(s, ns).issued == s.issued + MirrorAll(EveryOther(ns[1..]))
  {
    ReplayMirrorsEveryOther(Notified(s, ns[0]), ns[1..]);
  }

  /** Of two consecutive notifications exactly one is acted on (the first when the flag
      is clear, the second when it is set), so at most one mirror call results, and the
      flag is back where it was. */
  lemma TwoNotificationsOneMirror(s: ControllerState, a: Notification, b: Notification)
    ensures var r := Replay(s, [a, b]);
            r.ignoreNextStateChange == s.ignoreNextStateChange &&
            r.issued == s.issued + (if s.ignoreNextStateChange then Mirrored(Other(b.source), b.state)
                                    else Mirrored(Other(a.source), a.state)) &&
            |r.issued| <= |s.issued| + 1
  {
    assert [a, b][1..] == [b] && [b][1..] == [];
    assert Replay(s, [a, b]) == Replay(Notified(s, a), [b]);
    assert Replay(Notified(s, a), [b]) == Notified(Notified(s, a), b);
  }

  /** Pausing Spotify with the flag clear pauses YouTube; YouTube's echo is then
      swallowed and the flag is clear again. The leader ends as YouTube, the sender of
      the swallowed echo: the code sets the leader before deciding to discard. */
  lemma PauseEchoIsSwallowed(s: ControllerState)
    requires !s.ignoreNextStateChange
    ensures var r := Replay(s, [Notification(Spotify, Paused), Notification(YouTube, Paused)]);
            r.issued == s.issued + [Call(YouTube, Command.Pause)] &&
            !r.ignoreNextStateChange && r.leader == YouTube
  {
    var ns := [Notification(Spotify, Paused), Notification(YouTube, Paused)];
    assert ns[1..] == [Notification(YouTube, Paused)] && ns[1..][1..] == [];
  }

  /** The shared flag does not know which player it waits for: if YouTube starts playing
      and the user pauses Spotify before YouTube's echo arrives, the pause is swallowed
      and YouTube keeps playing. */
  lemma CrossPlayerPauseIsLost(s: ControllerState)
    requires !s.ignoreNextStateChange
    ensures var r := Replay(s, [Notification(YouTube, Playing), Notification(Spotify, Paused)]);
            r.issued == s.issued + [Call(Spotify, Command.Play)] &&
            Call(YouTube, Command.Pause) !in r.issued[|s.issued|..]
  {
    var ns := [Notification(YouTube, Playing), Notification(Spotify, Paused)];
    assert ns[1..] == [Notification(Spotify, Paused)] && ns[1..][1..] == [];
  }

  // ---------------------------------------------------------------------------
  // The controller object
  // ---------------------------------------------------------------------------

  class SyncController {
    const yt: YouTubeWrapper.YouTubePlayer
    const sp: SpotifyWrapper.SpotifyPlayer
    var leader: PlayerId
    var intervalId: Option<TimerHandle>
    var ignoreNextStateChange: bool
    /** The page's running intervals, which `setInterval` adds to and `clearInterval`
        removes from. */
    ghost var liveIntervals: set<TimerHandle>
    /** Every call made on the two wrappers, oldest first. */
    ghost var issued: seq<Call>

    ghost function State(): ControllerState
      reads this
    {
      ControllerState(leader, ignoreNextStateChange, intervalId, liveIntervals, issued)
    }

    /** Each wrapper received the commands of `calls` addressed to it, in order. */
    twostate predicate Forwarded(calls: seq<Call>)
      reads this, yt, sp
    {
      yt.sdkCalls == old(yt.sdkCalls) + yt.Effects(CommandsTo(YouTube, calls)) &&
      sp.sdkCalls == old(sp.sdkCalls) + sp.Effects(CommandsTo(Spotify, calls))
    }

    /** Binding to two wrappers takes over their observer slots. */
    constructor (yt: YouTubeWrapper.YouTubePlayer, sp: SpotifyWrapper.SpotifyPlayer)
      modifies yt`onStateChange, sp`onStateChange
      ensures this.yt == yt && this.sp == sp
      ensures State() == Initial
      ensures yt.onStateChange == Some(Controller) && sp.onStateChange == Some(Controller)
    {
      this.yt := yt;
      this.sp := sp;
      leader := YouTube;
      intervalId := None;
      ignoreNextStateChange := false;
      liveIntervals := {};
      issued := [];
      new;
      yt.SetObserver(Controller);
      sp.SetObserver(Controller);
    }

    /** `start`, where `handle` is what `setInterval` returns. */
    method Start(handle: TimerHandle)
      modifies this`intervalId, this`liveIntervals
      ensures State() == Started(old(State()), handle)
    {
      liveIntervals := liveIntervals + {handle};
      intervalId := Some(handle);
    }

    method Stop()
      modifies this`intervalId, this`liveIntervals
      ensures State() == Stopped(old(State()))
    {
      if intervalId.Some? {
        liveIntervals := liveIntervals - {intervalId.value};
        intervalId := None;
      }
    }

    method Play()
      modifies this`issued, yt`sdkCalls, sp`sdkCalls
      ensures State() == PlayedBoth(old(State()))
      ensures Forwarded([Call(YouTube, Command.Play), Call(Spotify, Command.Play)])
    {
      yt.Play();
      sp.Play();
      issued := issued + [Call(YouTube, Command.Play), Call(Spotify, Command.Play)];
    }

    method Pause()
      modifies this`issued, yt`sdkCalls, sp`sdkCalls
      ensures State() == PausedBoth(old(State()))
      ensures Forwarded([Call(YouTube, Command.Pause), Call(Spotify, Command.Pause)])
    {
      yt.Pause();
      sp.Pause();
      issued := issued + [Call(YouTube, Command.Pause), Call(Spotify, Command.Pause)];
    }

    method SeekTo(seconds: real)
      modifies this`issued, yt`sdkCalls, sp`sdkCalls
      ensures State() == SoughtBoth(old(State()), seconds)
      ensures Forwarded([Call(YouTube, Command.SeekTo(seconds)), Call(Spotify, Command.SeekTo(seconds * 1000.0))])
    {
      yt.SeekTo(seconds);
      sp.SeekTo(seconds * 1000.0);
      issued := issued + [Call(YouTube, Command.SeekTo(seconds)), Call(Spotify, Command.SeekTo(seconds * 1000.0))];
    }

    /** `syncLoop`, run by the running interval `firing`. */
    method Tick(ghost firing: TimerHandle)
      requires firing in liveIntervals
      modifies this`issued, yt`sdkCalls, sp`sdkCalls
      ensures State() == Ticked(old(State()), yt.GetCurrentTime(), sp.GetCurrentTime())
      ensures Forwarded(SyncCalls(leader, yt.GetCurrentTime(), sp.GetCurrentTime()))
    {
      var ytTime := yt.GetCurrentTime();
      var spTime := sp.GetCurrentTime() / 1000.0;
      var drift := Abs(ytTime - spTime);
      if drift <= DRIFT_THRESHOLD_S {
        return;
      }
      if leader == YouTube {
        sp.SeekTo(ytTime * 1000.0);
        issued := issued + [Call(Spotify, Command.SeekTo(ytTime * 1000.0))];
      } else {
        yt.SeekTo(spTime);
        issued := issued + [Call(YouTube, Command.SeekTo(spTime))];
      }
    }

    method OnYTStateChange(state: PlayerState)
      modifies this`leader, this`ignoreNextStateChange, this`issued, sp`sdkCalls
      ensures State() == Notified(old(State()), Notification(YouTube, state))
      ensures Forwarded(issued[|old(issued)|..])
    {
      leader := YouTube;
      if ignoreNextStateChange {
        ignoreNextStateChange := false;
        return;
      }
      ignoreNextStateChange := true;
      if state == Playing {
        sp.Play();
        issued := issued + [Call(Spotify, Command.Play)];
      } else if state == Paused {
        sp.Pause();
        issued := issued + [Call(Spotify, Command.Pause)];
      }
    }

    method OnSpStateChange(state: PlayerState)
      modifies this`leader, this`ignoreNextStateChange, this`issued, yt`sdkCalls
      ensures State() == Notified(old(State()), Notification(Spotify, state))
      ensures Forwarded(issued[|old(issued)|..])
    {
      leader := Spotify;
      if ignoreNextStateChange {
        ignoreNextStateChange := false;
        return;
      }
      ignoreNextStateChange := true;
      if state == Playing {
        yt.Play();
        issued := issued + [Call(YouTube, Command.Play)];
      } else if state == Paused {
        yt.Pause();
        issued := issued + [Call(YouTube, Command.Pause)];
      }
    }
  }
}
