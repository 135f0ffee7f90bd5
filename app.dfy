/** The page wiring that joins parsers, wrappers and controller (src/client/index.ts,
    and the observer binding of src/client/sync-controller.ts). */
module App {
  import opened Playback
  import Identifiers
  import YouTubeWrapper
  import SpotifyWrapper
  import Sync

  /** The authenticated part of `init`: both wrappers are built with the status display
      as their observer, the controller then takes over both slots (so the status display
      receives no state events), and the drift interval starts. */
  method Boot(handle: Sync.TimerHandle) returns (c: Sync.SyncController)
    ensures fresh(c) && fresh(c.yt) && fresh(c.sp)
    ensures c.State() == Sync.Started(Sync.Initial, handle)
    ensures c.yt.onStateChange == Some(Controller) && c.sp.onStateChange == Some(Controller)
    ensures c.yt.player == None && !c.yt.ready && c.yt.pendingVideoId == None && c.yt.sdkCalls == []
    ensures !c.sp.hasPlayer && c.sp.deviceId == None && c.sp.currentState == Unstarted
    ensures c.sp.sdkCalls == [] && c.sp.playRequests == []
  {
    var yt := new YouTubeWrapper.YouTubePlayer(Some(StatusDisplay));
    var sp := new SpotifyWrapper.SpotifyPlayer(Some(StatusDisplay));
    c := new Sync.SyncController(yt, sp);
    c.Start(handle);
  }

  /** The play button: load each player whose parsed identifier is non-empty, then tell
      the controller to play, whatever was loaded. `ytId` and `spUri` are the parsed
      input boxes (OnPlayClick) and `token` is what the Spotify wrapper's token fetch
      returns. */
  method LoadAndPlay(c: Sync.SyncController, ytId: string, spUri: string, token: Option<string>)
    modifies c.yt`pendingVideoId, c.yt`sdkCalls, c.sp`playRequests, c.sp`sdkCalls, c`issued
    ensures c.State() == Sync.PlayedBoth(old(c.State()))
    ensures var cued := ytId != "" && c.yt.ready && c.yt.player.Some?;
            c.yt.sdkCalls == old(c.yt.sdkCalls) + (if cued then [YouTubeWrapper.CueVideoById(ytId)] else []) +
                             c.yt.Effect(Command.Play) &&
            c.yt.pendingVideoId == (if ytId != "" && !cued then Some(ytId) else old(c.yt.pendingVideoId))
    ensures var sent := spUri != "" && Truthy(c.sp.deviceId) && Truthy(token);
            c.sp.playRequests == old(c.sp.playRequests) +
                                 (if sent then [SpotifyWrapper.PlayRequest(c.sp.deviceId.value, token.value, [spUri])] else []) &&
            c.sp.sdkCalls == old(c.sp.sdkCalls) + c.sp.Effect(Command.Play)
  {
    if ytId != "" {
      c.yt.Load(ytId);
    }
    if spUri != "" {
      c.sp.Load(spUri, token);
    }
    c.Play();
  }

  /** The play button's click handler: parse both input boxes (empty text when a box is
      missing), with `parseUrl` standing for `new URL`, then LoadAndPlay. */
  method OnPlayClick(c: Sync.SyncController, ytInput: string, spInput: string,
                     parseUrl: string -> Option<Identifiers.Url>, token: Option<string>)
    returns (ytId: string, spUri: string)
    modifies c.yt`pendingVideoId, c.yt`sdkCalls, c.sp`playRequests, c.sp`sdkCalls, c`issued
    ensures ytId == Identifiers.ParseYouTubeId(ytInput, parseUrl)
    ensures spUri == Identifiers.ParseSpotifyUri(spInput)
    ensures c.State() == Sync.PlayedBoth(old(c.State()))
    ensures var cued := ytId != "" && c.yt.ready && c.yt.player.Some?;
            c.yt.sdkCalls == old(c.yt.sdkCalls) + (if cued then [YouTubeWrapper.CueVideoById(ytId)] else []) +
                             c.yt.Effect(Command.Play) &&
            c.yt.pendingVideoId == (if ytId != "" && !cued then Some(ytId) else old(c.yt.pendingVideoId))
    ensures var sent := spUri != "" && Truthy(c.sp.deviceId) && Truthy(token);
            c.sp.playRequests == old(c.sp.playRequests) +
                                 (if sent then [SpotifyWrapper.PlayRequest(c.sp.deviceId.value, token.value, [spUri])] else []) &&
            c.sp.sdkCalls == old(c.sp.sdkCalls) + c.sp.Effect(Command.Play)
  {
    ytId := Identifiers.ParseYouTubeId(ytInput, parseUrl);
    spUri := Identifiers.ParseSpotifyUri(spInput);
    LoadAndPlay(c, ytId, spUri, token);
  }

  /** A YouTube state event: the wrapper maps the code and calls its observer; when the
      controller holds the slot, that is its YouTube handler. */
  method YouTubeStateEvent(c: Sync.SyncController, code: int)
    modifies c`leader, c`ignoreNextStateChange, c`issued, c.sp`sdkCalls
    ensures c.yt.onStateChange == Some(Controller) ==>
              c.State() == Sync.Notified(old(c.State()), Sync.Notification(Sync.YouTube, YouTubeWrapper.MapState(code)))
    ensures c.yt.onStateChange == Some(Controller) ==> c.Forwarded(c.issued[|old(c.issued)|..])
    ensures c.yt.onStateChange != Some(Controller) ==>
              c.State() == old(c.State()) && c.sp.sdkCalls == old(c.sp.sdkCalls)
  {
    var delivered := c.yt.OnSdkStateChange(code);
    if delivered.Some? && delivered.value.observer == Controller {
      c.OnYTStateChange(delivered.value.state);
    }
  }

  /** A Spotify `player_state_changed` event: the wrapper records the state and calls
      its observer; when the controller holds the slot, that is its Spotify handler. */
  method SpotifyStateEvent(c: Sync.SyncController, state: Option<SpotifyWrapper.SdkPlaybackState>)
    modifies c.sp`currentState, c`leader, c`ignoreNextStateChange, c`issued, c.yt`sdkCalls
    ensures c.sp.currentState == SpotifyWrapper.StateOf(state)
    ensures c.sp.onStateChange == Some(Controller) ==>
              c.State() == Sync.Notified(old(c.State()), Sync.Notification(Sync.Spotify, SpotifyWrapper.StateOf(state)))
    ensures c.sp.onStateChange == Some(Controller) ==> c.Forwarded(c.issued[|old(c.issued)|..])
    ensures c.sp.onStateChange != Some(Controller) ==>
              c.State() == old(c.State()) && c.yt.sdkCalls == old(c.yt.sdkCalls)
  {
    var delivered := c.sp.OnPlayerStateChanged(state);
    if delivered.Some? && delivered.value.observer == Controller {
      c.OnSpStateChange(delivered.value.state);
    }
  }
}
