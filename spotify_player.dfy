/** The Spotify Web Playback SDK wrapper (src/client/spotify-player.ts). */
module SpotifyWrapper {
  import opened Playback

  /** The part of the SDK's playback state the wrapper reads. */
  datatype SdkPlaybackState = SdkPlaybackState(paused: bool)

  /** Calls that reach the SDK player. */
  datatype SdkCall = Resume | PausePlayback | Seek(positionMs: real)

  /** A `PUT /v1/me/player/play?device_id=<deviceId>` with a bearer token and the URIs to play. */
  datatype PlayRequest = PlayRequest(deviceId: string, token: string, uris: seq<string>)

  /** The SDK call a player command becomes. */
  function Forward(c: Command): SdkCall
  {
    match c
    case Play => Resume
    case Pause => PausePlayback
    case SeekTo(ms) => Seek(ms)
  }

  /** The `player_state_changed` reading: no state is unstarted, otherwise paused or playing. */
  function StateOf(state: Option<SdkPlaybackState>): (s: PlayerState)
    ensures s == Unstarted <==> state.None?
    ensures s == Paused <==> state.Some? && state.value.paused
    ensures s == Playing <==> state.Some? && !state.value.paused
  {
    match state
    case None => Unstarted
    case Some(st) => if st.paused then Paused else Playing
  }

  class SpotifyPlayer {
    /** `player !== null`: the SDK player was constructed. */
    var hasPlayer: bool
    /** Set by the SDK's `ready` event. */
    var deviceId: Option<string>
    var currentState: PlayerState
    /** The single observer slot. */
    var onStateChange: Option<Observer>
    /** Every call made on the SDK player, oldest first. */
    var sdkCalls: seq<SdkCall>
    /** Every play request sent to the Web API, oldest first. */
    var playRequests: seq<PlayRequest>

    constructor (onStateChange: Option<Observer>)
      ensures !hasPlayer && deviceId == None && currentState == Unstarted
      ensures this.onStateChange == onStateChange && sdkCalls == [] && playRequests == []
    {
      hasPlayer := false;
      deviceId := None;
      currentState := Unstarted;
      this.onStateChange := onStateChange;
      sdkCalls := [];
      playRequests := [];
    }

    /** `createPlayer`, given what the token fetch returned: no player without a token. */
    method CreatePlayer(token: Option<string>)
      modifies this`hasPlayer
      ensures hasPlayer == (old(hasPlayer) || Truthy(token))
    {
      if !Truthy(token) {
        return;
      }
      hasPlayer := true;
    }

    /** The SDK's `ready` event. */
    method OnDeviceReady(id: string)
      modifies this`deviceId
      ensures deviceId == Some(id)
    {
      deviceId := Some(id);
    }

    /** The `player_state_changed` event: record the reading and pass exactly that
        value to the current observer, if any. */
    method OnPlayerStateChanged(state: Option<SdkPlaybackState>) returns (delivered: Option<Delivery>)
      modifies this`currentState
      ensures currentState == StateOf(state)
      ensures onStateChange.None? ==> delivered == None
      ensures onStateChange.Some? ==> delivered == Some(Delivery(onStateChange.value, currentState))
    {
      if state.None? {
        currentState := Unstarted;
        delivered := if onStateChange.Some? then Some(Delivery(onStateChange.value, currentState)) else None;
        return;
      }
      currentState := if state.value.paused then Paused else Playing;
      delivered := if onStateChange.Some? then Some(Delivery(onStateChange.value, currentState)) else None;
    }

    /** Installs `observer` in the single slot, replacing what was there. */
    method SetObserver(observer: Observer)
      modifies this`onStateChange
      ensures onStateChange == Some(observer)
    {
      onStateChange := Some(observer);
    }

    /** `load`, given what the token fetch returned: without a device id the request is
        dropped (not buffered), without a token too; otherwise one play request for the
        URI goes to this device. */
    method Load(trackUri: string, token: Option<string>)
      modifies this`playRequests
      ensures !Truthy(deviceId) || !Truthy(token) ==> playRequests == old(playRequests)
      ensures Truthy(deviceId) && Truthy(token) ==>
                playRequests == old(playRequests) + [PlayRequest(deviceId.value, token.value, [trackUri])]
    {
      if !Truthy(deviceId) {
        return;
      }
      if !Truthy(token) {
        return;
      }
      playRequests := playRequests + [PlayRequest(deviceId.value, token.value, [trackUri])];
    }

    /** The SDK calls a command produces: its translation, or nothing without a player. */
    function Effect(c: Command): (r: seq<SdkCall>)
      reads this
      ensures !hasPlayer ==> r == []
      ensures hasPlayer ==> r == [Forward(c)]
    {
      if hasPlayer then [Forward(c)] else []
    }

    /** The SDK calls a sequence of commands produces. */
    function Effects(cs: seq<Command>): (r: seq<SdkCall>)
      reads this
      ensures !hasPlayer ==> r == []
      ensures hasPlayer ==> |r| == |cs| && forall i :: 0 <= i < |cs| ==> r[i] == Forward(cs[i])
    {
      if cs == [] then [] else Effect(cs[0]) + Effects(cs[1..])
    }

    method Play()
      modifies this`sdkCalls
      ensures sdkCalls == old(sdkCalls) + Effect(Command.Play)
    {
      if hasPlayer {
        sdkCalls := sdkCalls + [Resume];
      }
    }

    method Pause()
      modifies this`sdkCalls
      ensures sdkCalls == old(sdkCalls) + Effect(Command.Pause)
    {
      if hasPlayer {
        sdkCalls := sdkCalls + [PausePlayback];
      }
    }

    method SeekTo(positionMs: real)
      modifies this`sdkCalls
      ensures sdkCalls == old(sdkCalls) + Effect(Command.SeekTo(positionMs))
    {
      if hasPlayer {
        sdkCalls := sdkCalls + [Seek(positionMs)];
      }
    }

    /** The position estimate in milliseconds: always 0, nothing updates it. */
    function GetCurrentTime(): (ms: real)
      ensures ms == 0.0
    {
      0.0
    }

    /** The duration estimate: always 0. */
    function GetDuration(): (ms: real)
      ensures ms == 0.0
    {
      0.0
    }

    /** The state last recorded by `player_state_changed`. */
    function GetState(): (s: PlayerState)
      reads this
      ensures s == currentState
    {
      currentState
    }
  }

  /** Unlike the YouTube wrapper, nothing is buffered: a load before the device is ready
      is lost, and the device becoming ready later sends nothing. */
  method LoadBeforeDeviceIsDropped(p: SpotifyPlayer, trackUri: string, token: Option<string>, id: string)
    requires !Truthy(p.deviceId)
    modifies p`playRequests, p`deviceId
    ensures p.deviceId == Some(id)
    ensures p.playRequests == old(p.playRequests)
  {
    p.Load(trackUri, token);
    p.OnDeviceReady(id);
  }
}
