/** The YouTube IFrame API wrapper (src/client/youtube-player.ts). */
module YouTubeWrapper {
  import opened Playback

  /** Raw state codes of the IFrame API's `YT.PlayerState`. */
  const UNSTARTED: int := -1
  const ENDED: int := 0
  const PLAYING: int := 1
  const PAUSED: int := 2
  const BUFFERING: int := 3
  const CUED: int := 5

  /** `mapState`: playing and paused codes keep their meaning, every other code
      (ended, buffering, cued, unstarted, anything unknown) reads as unstarted. */
  function MapState(code: int): (s: PlayerState)
    ensures s == Playing <==> code == PLAYING
    ensures s == Paused <==> code == PAUSED
    ensures s == Unstarted <==> code != PLAYING && code != PAUSED
  {
    if code == PLAYING then Playing
    else if code == PAUSED then Paused
    else Unstarted
  }

  /** What the IFrame API player reports when asked (`getCurrentTime`, `getDuration`,
      `getPlayerState`); the values are the player's own. */
  datatype IFramePlayer = IFramePlayer(currentTime: real, duration: real, playerState: int)

  /** Calls that reach the IFrame API player. */
  datatype IFrameCall =
    | CueVideoById(videoId: string)
    | PlayVideo
    | PauseVideo
    | SeekVideo(seconds: real, allowSeekAhead: bool)

  /** The IFrame call a player command becomes; seeks always allow seeking ahead. */
  function Forward(c: Command): IFrameCall
  {
    match c
    case Play => PlayVideo
    case Pause => PauseVideo
    case SeekTo(seconds) => SeekVideo(seconds, true)
  }

  class YouTubePlayer {
    /** `player`: None until the API has constructed the IFrame player. */
    var player: Option<IFramePlayer>
    var ready: bool
    /** A one-slot buffer for a `load` that came before readiness. */
    var pendingVideoId: Option<string>
    /** The single observer slot. */
    var onStateChange: Option<Observer>
    /** Every call made on the IFrame player, oldest first. */
    var sdkCalls: seq<IFrameCall>

    constructor (onStateChange: Option<Observer>)
      ensures player == None && !ready && pendingVideoId == None
      ensures this.onStateChange == onStateChange && sdkCalls == []
    {
      player := None;
      ready := false;
      pendingVideoId := None;
      this.onStateChange := onStateChange;
      sdkCalls := [];
    }

    /** `createPlayer`: the API has loaded and built its player, reporting `initial`. */
    method CreatePlayer(initial: IFramePlayer)
      modifies this`player
      ensures player == Some(initial)
    {
      player := Some(initial);
    }

    /** The IFrame calls a command produces: its translation, or nothing without a player. */
    function Effect(c: Command): (r: seq<IFrameCall>)
      reads this
      ensures player.None? ==> r == []
      ensures player.Some? ==> r == [Forward(c)]
    {
      if player.Some? then [Forward(c)] else []
    }

    /** The IFrame calls a sequence of commands produces. */
    function Effects(cs: seq<Command>): (r: seq<IFrameCall>)
      reads this
      ensures player.None? ==> r == []
      ensures player.Some? ==> |r| == |cs| && forall i :: 0 <= i < |cs| ==> r[i] == Forward(cs[i])
    {
      if cs == [] then [] else Effect(cs[0]) + Effects(cs[1..])
    }

    /** `load`: before readiness (or without a player) the id replaces whatever was
        buffered and nothing is cued; afterwards exactly that id is cued. */
    method Load(videoId: string)
      modifies this`pendingVideoId, this`sdkCalls
      ensures !ready || player.None? ==>
                pendingVideoId == Some(videoId) && sdkCalls == old(sdkCalls)
      ensures ready && player.Some? ==>
                pendingVideoId == old(pendingVideoId) && sdkCalls == old(sdkCalls) + [CueVideoById(videoId)]
    {
      if !ready || player.None? {
        pendingVideoId := Some(videoId);
        return;
      }
      sdkCalls := sdkCalls + [CueVideoById(videoId)];
    }

    /** The `onReady` event: mark ready, then flush a non-empty buffered id through
        `load` once and clear the slot. An empty id is falsy and stays put. */
    method OnReady()
      modifies this`ready, this`pendingVideoId, this`sdkCalls
      ensures ready
      ensures Truthy(old(pendingVideoId)) ==>
                pendingVideoId == None &&
                sdkCalls == old(sdkCalls) + (if player.Some? then [CueVideoById(old(pendingVideoId).value)] else [])
      ensures !Truthy(old(pendingVideoId)) ==>
                pendingVideoId == old(pendingVideoId) && sdkCalls == old(sdkCalls)
    {
      ready := true;
      if Truthy(pendingVideoId) {
        Load(pendingVideoId.value);
        pendingVideoId := None;
      }
    }

    /** The `onStateChange` event: the mapped state goes to the current observer, if any. */
    method OnSdkStateChange(code: int) returns (delivered: Option<Delivery>)
      ensures onStateChange.None? ==> delivered == None
      ensures onStateChange.Some? ==> delivered == Some(Delivery(onStateChange.value, MapState(code)))
    {
      var state := MapState(code);
      if onStateChange.Some? {
        delivered := Some(Delivery(onStateChange.value, state));
      } else {
        delivered := None;
      }
    }

    /** Installs `observer` in the single slot, replacing what was there. */
    method SetObserver(observer: Observer)
      modifies this`onStateChange
      ensures onStateChange == Some(observer)
    {
      onStateChange := Some(observer);
    }

    method Play()
      modifies this`sdkCalls
      ensures sdkCalls == old(sdkCalls) + Effect(Command.Play)
    {
      if player.Some? {
        sdkCalls := sdkCalls + [PlayVideo];
      }
    }

    method Pause()
      modifies this`sdkCalls
      ensures sdkCalls == old(sdkCalls) + Effect(Command.Pause)
    {
      if player.Some? {
        sdkCalls := sdkCalls + [PauseVideo];
      }
    }

    method SeekTo(seconds: real)
      modifies this`sdkCalls
      ensures sdkCalls == old(sdkCalls) + Effect(Command.SeekTo(seconds))
    {
      if player.Some? {
        sdkCalls := sdkCalls + [SeekVideo(seconds, true)];
      }
    }

    /** Seconds into the video, 0 without a player. */
    function GetCurrentTime(): (t: real)
      reads this
      ensures player.None? ==> t == 0.0
      ensures player.Some? ==> t == player.value.currentTime
    {
      if player.Some? then player.value.currentTime else 0.0
    }

    /** Length of the video in seconds, 0 without a player. */
    function GetDuration(): (t: real)
      reads this
      ensures player.None? ==> t == 0.0
      ensures player.Some? ==> t == player.value.duration
    {
      if player.Some? then player.value.duration else 0.0
    }

    /** Unstarted without a player, otherwise the mapped state the player reports. */
    function GetState(): (s: PlayerState)
      reads this
      ensures player.None? ==> s == Unstarted
      ensures player.Some? ==> s == MapState(player.value.playerState)
    {
      if player.None? then Unstarted else MapState(player.value.playerState)
    }
  }

  /** The buffer has one slot: two loads before readiness, then readiness, cue only the
      second id, once, and a repeated ready event cues nothing more. */
  method LoadsBeforeReady(p: YouTubePlayer, first: string, second: string)
    requires !p.ready && p.player.Some? && second != ""
    modifies p`ready, p`pendingVideoId, p`sdkCalls
    ensures p.ready && p.pendingVideoId == None
    ensures p.sdkCalls == old(p.sdkCalls) + [CueVideoById(second)]
  {
    p.Load(first);
    p.Load(second);
    p.OnReady();
    p.OnReady();
  }
}
