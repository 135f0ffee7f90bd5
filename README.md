# SimulPlay browser client: a Dafny model

SimulPlay plays a YouTube video and a Spotify track side by side and keeps them in
step. The browser client has three parts, and this project models all three.

- **Two player wrappers.** `YouTubePlayer` wraps the YouTube IFrame API and
  `SpotifyPlayer` wraps the Spotify Web Playback SDK. Each one turns the SDK into the
  same small interface: load, play, pause, seek, position, state, and one observer
  slot for state notifications.
- **The synchronization controller** (`SyncController`).
  - It takes over both observer slots.
  - It fans play, pause and seek out to both players, YouTube first.
  - Every tick it measures the drift. Past 1.5 s, it seeks the follower to the
    leader's position.
  - It mirrors a play or pause reported by one player onto the other. A single
    shared flag, `ignoreNextStateChange`, swallows the echo that follows.
- **The page glue.**
  - `parseYouTubeId` and `parseSpotifyUri` turn the input boxes into identifiers.
  - The play button loads each non-empty identifier and then tells the controller
    to play.

Module layout:

| file | module | models |
|---|---|---|
| `playback.dfy` | `Playback` | the shared vocabulary: player states, commands, observers, JavaScript truthiness of strings |
| `js_string.dfy` | `JsString` | `String.prototype.trim` and its white-space set |
| `identifiers.dfy` | `Identifiers` | `parseYouTubeId` and `parseSpotifyUri` |
| `youtube_player.dfy` | `YouTubeWrapper` | class `YouTubePlayer` |
| `spotify_player.dfy` | `SpotifyWrapper` | class `SpotifyPlayer` |
| `sync_controller.dfy` | `Sync` | the controller as pure transition functions on `ControllerState`, their lemmas, and class `SyncController`, whose methods follow those functions |
| `app.dfy` | `App` | the start-up wiring of `init`, the play handler and the delivery of SDK state events |

How the model records behaviour:

- Each wrapper keeps the SDK calls it makes in a log field, `sdkCalls`.
- The Spotify wrapper also logs its Web API play requests in `playRequests`.
- The controller keeps a ghost log, `issued`, of every call it makes on a wrapper.
- The twostate predicate `Forwarded` ties that ghost log to the calls the two
  wrappers actually made.

Every controller method ensures `State() == F(old(State()))`, where `F` is one of
the pure functions `Started`, `Stopped`, `PlayedBoth`, `PausedBoth`, `SoughtBoth`,
`Ticked` or `Notified`. The system's promises are proved as lemmas about those
functions.

Behaviour of the code worth knowing before reading the model:

- **Leader.** The code sets the leader on every notification, before it checks the
  echo flag, so a swallowed echo still makes its sender the leader
  (sync-controller.ts:63 and 77). `PauseEchoIsSwallowed` proves this for a Spotify
  pause and its echo: the leader ends as YouTube.
- **Units.** The wrappers pass units through unchanged: YouTube works in seconds and
  Spotify's `seekTo` takes milliseconds. The controller does the conversion itself.
  It seeks Spotify with seconds times 1000 and divides Spotify's position by 1000
  (sync-controller.ts:45, 50, 56).
- **Load buffering.** Only the YouTube wrapper buffers a `load` made before it is
  ready (youtube-player.ts:70-74). The Spotify wrapper drops a load made before its
  device is ready (spotify-player.ts:78-81, `LoadBeforeDeviceIsDropped`).
- **Spotify position.** The Spotify wrapper's position estimate is the constant 0
  (spotify-player.ts:110-113). Against it, once YouTube is past 1.5 s, every tick
  seeks again (`SpotifyEstimateDrivesEveryTick`):
  - with Spotify leading, YouTube is sent back to 0;
  - with YouTube leading, Spotify is sent to YouTube's position.

## Model

| member | source | states |
|---|---|---|
| `JsString.TrimStart` | src/client/index.ts:6 | the result is a suffix of the input, everything removed is ECMAScript white space, and the result does not start with white space |
| `JsString.TrimEnd` | src/client/index.ts:6 | the result is a prefix of the input, everything removed is white space, and the result does not end with white space |
| `JsString.Trim` | src/client/index.ts:6 | `trim()`: the result is a slice of the input with only white space on either side, and neither of its ends is white space |
| `JsString.TrimmedIsFixed` | src/client/index.ts:6 | a string with no white space at either end is its own trim |
| `JsString.TrimIdempotent` | src/client/index.ts:6 | trimming twice is trimming once |
| `Identifiers.DropFirst` | src/client/index.ts:12 | `slice(1)`: the input minus its first character, and "" for "" |
| `Identifiers.ParseYouTubeId` | src/client/index.ts:5-17 | the four exits: input that is not a URL comes back trimmed; a non-empty `v` parameter wins; otherwise a `youtu.be` host yields the path minus its first character; any other URL comes back trimmed |
| `Identifiers.RawYouTubeIdIsFixed` | src/client/index.ts:5-17 | for a raw id (trimmed input that is not a URL), parsing the result again changes nothing |
| `Identifiers.AlnumRun` | src/client/index.ts:22 | `[A-Za-z0-9]*` taken greedily: the longest alphanumeric prefix, possibly empty (MatchAt rejects an empty run, which gives the `+`) |
| `Identifiers.StartsWithIsPrefix` | src/client/index.ts:22 | the character-by-character prefix test is the sequence prefix relation |
| `Identifiers.KindAfterHost` | src/client/index.ts:22 | the group of kinds after the host: the kind named is track, album or playlist and it follows the host with a `/`; None means none of the three does |
| `Identifiers.MatchAt` | src/client/index.ts:22 | a result at position i is a match of the regular expression at i, per the reference predicate `MatchesAt` |
| `Identifiers.MatchAtComplete` | src/client/index.ts:22 | conversely, every match at i is the one MatchAt returns, so the capture groups are unique |
| `Identifiers.NoMatchAtIff` | src/client/index.ts:22 | there is no match at i exactly when MatchAt returns None |
| `Identifiers.FirstMatch` | src/client/index.ts:22 | `String.prototype.match` without the g flag: the leftmost position that matches, with nothing matching before it; None means no position matches |
| `Identifiers.ParseSpotifyUri` | src/client/index.ts:19-25 | `parseSpotifyUri`; it has no contract of its own, and its meaning is given by `Identifiers.ParseSpotifyUriRewritesFirstMatch`, `Identifiers.ParseSpotifyUriPassesThrough` and `Identifiers.ParseSpotifyUriIdempotent` |
| `Identifiers.ParseSpotifyUriRewritesFirstMatch` | src/client/index.ts:19-23 | if the trimmed input's leftmost match is at i with groups kind and id, the result is `spotify:<kind>:<id>` |
| `Identifiers.ParseSpotifyUriPassesThrough` | src/client/index.ts:19-24 | if no position of the trimmed input matches, the result is the trimmed input |
| `Identifiers.SpotifyUriIsStable` | src/client/index.ts:19-24 | a rewritten `spotify:<kind>:<id>` parses to itself |
| `Identifiers.ParseSpotifyUriIdempotent` | src/client/index.ts:19-25 | parsing a parsed input changes nothing |
| `YouTubeWrapper.MapState` | src/client/youtube-player.ts:59-68 | code PLAYING (1) reads as playing and only it; PAUSED (2) as paused and only it; every other code as unstarted |
| `YouTubeWrapper.YouTubePlayer.constructor` | src/client/youtube-player.ts:12-24 | no player, not ready, nothing buffered, the given observer (or none), and no SDK calls |
| `YouTubeWrapper.YouTubePlayer.CreatePlayer` | src/client/youtube-player.ts:38-39 | the IFrame player exists |
| `YouTubeWrapper.YouTubePlayer.Effect` | src/client/youtube-player.ts:78-88 | a command reaches the IFrame player as its translation (a seek with allowSeekAhead true) and is dropped without a player |
| `YouTubeWrapper.YouTubePlayer.Effects` | src/client/youtube-player.ts:78-88 | a sequence of commands reaches the player one by one, in order, or not at all without a player |
| `YouTubeWrapper.YouTubePlayer.Load` | src/client/youtube-player.ts:70-76 | before readiness, or without a player, the id overwrites the buffer and nothing is cued; otherwise exactly that id is cued and the buffer is untouched |
| `YouTubeWrapper.YouTubePlayer.OnReady` | src/client/youtube-player.ts:44-49 | marks the player ready; a non-empty buffered id is cued once through `load` and the slot is cleared; an empty buffered id is falsy and stays |
| `YouTubeWrapper.YouTubePlayer.OnSdkStateChange` | src/client/youtube-player.ts:51-54 | the mapped state goes to the current observer, and nothing is delivered when the slot is empty |
| `YouTubeWrapper.YouTubePlayer.SetObserver` | src/client/sync-controller.ts:18 | the single observer slot holds the new observer |
| `YouTubeWrapper.YouTubePlayer.Play` | src/client/youtube-player.ts:78-80 | appends exactly `Effect(Play)` to the SDK log |
| `YouTubeWrapper.YouTubePlayer.Pause` | src/client/youtube-player.ts:82-84 | appends exactly `Effect(Pause)` to the SDK log |
| `YouTubeWrapper.YouTubePlayer.SeekTo` | src/client/youtube-player.ts:86-88 | appends exactly `Effect(SeekTo(seconds))` to the SDK log |
| `YouTubeWrapper.YouTubePlayer.GetCurrentTime` | src/client/youtube-player.ts:90-92 | the player's position, and 0 without a player |
| `YouTubeWrapper.YouTubePlayer.GetDuration` | src/client/youtube-player.ts:94-96 | the player's duration, and 0 without a player |
| `YouTubeWrapper.YouTubePlayer.GetState` | src/client/youtube-player.ts:98-102 | unstarted without a player, and otherwise the mapped state the player reports |
| `YouTubeWrapper.LoadsBeforeReady` | src/client/youtube-player.ts:44-76 | the buffer is one slot: after two early loads and a ready event, only the second id is cued, once, even after a second ready event |
| `SpotifyWrapper.StateOf` | src/client/spotify-player.ts:53-61 | no state reads as unstarted; a paused state as paused; anything else as playing, each in both directions |
| `SpotifyWrapper.SpotifyPlayer.constructor` | src/client/spotify-player.ts:12-21 | no player, no device, unstarted, the given observer, and empty logs |
| `SpotifyWrapper.SpotifyPlayer.CreatePlayer` | src/client/spotify-player.ts:31-35 | a player exists after this call exactly when one existed before or the fetched token is non-empty |
| `SpotifyWrapper.SpotifyPlayer.OnDeviceReady` | src/client/spotify-player.ts:44-47 | the device id is the one the SDK reported |
| `SpotifyWrapper.SpotifyPlayer.OnPlayerStateChanged` | src/client/spotify-player.ts:53-61 | the recorded state is `StateOf(state)`, and that same value goes to the current observer, if any |
| `SpotifyWrapper.SpotifyPlayer.SetObserver` | src/client/sync-controller.ts:19 | the single observer slot holds the new observer |
| `SpotifyWrapper.SpotifyPlayer.Load` | src/client/spotify-player.ts:77-96 | without a non-empty device id or token, nothing is sent; otherwise one play request for exactly `[trackUri]` goes to this device with this token |
| `SpotifyWrapper.SpotifyPlayer.Effect` | src/client/spotify-player.ts:98-108 | a command reaches the SDK player as resume, pause or seek, and is dropped without a player |
| `SpotifyWrapper.SpotifyPlayer.Effects` | src/client/spotify-player.ts:98-108 | a sequence of commands reaches the SDK one by one, in order, or not at all without a player |
| `SpotifyWrapper.SpotifyPlayer.Play` | src/client/spotify-player.ts:98-100 | appends exactly `Effect(Play)` to the SDK log |
| `SpotifyWrapper.SpotifyPlayer.Pause` | src/client/spotify-player.ts:102-104 | appends exactly `Effect(Pause)` to the SDK log |
| `SpotifyWrapper.SpotifyPlayer.SeekTo` | src/client/spotify-player.ts:106-108 | appends exactly `Effect(SeekTo(positionMs))` to the SDK log |
| `SpotifyWrapper.SpotifyPlayer.GetCurrentTime` | src/client/spotify-player.ts:110-113 | the position estimate is always 0 |
| `SpotifyWrapper.SpotifyPlayer.GetDuration` | src/client/spotify-player.ts:115-117 | the duration estimate is always 0 |
| `SpotifyWrapper.SpotifyPlayer.GetState` | src/client/spotify-player.ts:119-121 | the state last recorded by `player_state_changed` |
| `SpotifyWrapper.LoadBeforeDeviceIsDropped` | src/client/spotify-player.ts:44-81 | nothing is buffered: a load before the device is ready sends no request, and the later ready event sends none either |
| `Sync.Other` | src/client/sync-controller.ts:55-59 | the follower is never the leader |
| `Sync.CommandsTo` | src/client/sync-controller.ts:33-46 | the commands addressed to one player are drawn from the log, and there are no more of them than calls |
| `Sync.CommandsToDistributes` | src/client/sync-controller.ts:33-46 | the commands addressed to one player in a concatenation of call logs are those of the first log followed by those of the second, so the projection keeps order and loses nothing |
| `Sync.StopIsIdempotent` | src/client/sync-controller.ts:26-31 | after `stop` no handle is held and the interval it held runs no more; a second `stop` changes nothing; nothing but the timer changes |
| `Sync.RestartLeaksFirstInterval` | src/client/sync-controller.ts:22-31 | `start` overwrites the handle, so after two starts and a stop the first interval still runs and nothing refers to it |
| `Sync.FanOutReachesBothInOrder` | src/client/sync-controller.ts:33-46 | play, pause and seek each append one call per player, YouTube first, whoever leads; leader, flag and timer are untouched; a seek sends both players to the same instant, each in its own unit |
| `Sync.SyncCalls` | src/client/sync-controller.ts:48-60 | a tick issues nothing exactly when the drift is at most 1.5 s; otherwise it issues exactly one seek, to the follower, to the leader's position |
| `Sync.CorrectionSettles` | src/client/sync-controller.ts:48-60 | the leader's position is never adjusted; for players whose readings follow the seeks, after a correction the two positions agree exactly and the next tick issues nothing; the Spotify wrapper's reading does not follow them, see `Sync.SpotifyEstimateDrivesEveryTick` |
| `Sync.SpotifyEstimateDrivesEveryTick` | src/client/sync-controller.ts:49-59 | with the Spotify estimate fixed at 0, every tick past the threshold seeks: YouTube back to 0 when Spotify leads, Spotify to YouTube's position when YouTube leads |
| `Sync.Mirror` | src/client/sync-controller.ts:69-73 | playing is mirrored as play, paused as pause, and unstarted as nothing, each in both directions |
| `Sync.Notified` | src/client/sync-controller.ts:62-88 | the source becomes leader; the flag flips; with the flag set nothing is issued; with it clear the state is mirrored onto the other player; the timer is untouched |
| `Sync.ReplayFlipsFlag` | src/client/sync-controller.ts:62-88 | after n notifications the flag has flipped n times: it is binary, not a counter |
| `Sync.ReplayLeader` | src/client/sync-controller.ts:62-88 | the leader is the source of the last notification, swallowed or not |
| `Sync.EveryOther` | src/client/sync-controller.ts:64-68 | the notifications at even positions (0, 2, 4, …): (n+1)/2 of them, in order |
| `Sync.ReplayMirrorsEveryOther` | src/client/sync-controller.ts:62-88 | with the flag clear, exactly the 1st, 3rd, 5th, … notifications are mirrored, whichever player sent them |
| `Sync.ReplaySwallowsFirst` | src/client/sync-controller.ts:62-88 | with the flag set, the first notification is swallowed and then the 2nd, 4th, … are mirrored |
| `Sync.TwoNotificationsOneMirror` | src/client/sync-controller.ts:62-88 | of two consecutive notifications exactly one is acted on and the flag returns to where it was |
| `Sync.PauseEchoIsSwallowed` | src/client/sync-controller.ts:62-88 | Spotify pauses: YouTube is paused once, YouTube's echo is swallowed, the flag is clear again, and YouTube ends as leader |
| `Sync.CrossPlayerPauseIsLost` | src/client/sync-controller.ts:62-88 | YouTube starts playing, then Spotify pauses before YouTube's echo arrives: the pause is swallowed and YouTube is never paused |
| `Sync.SyncController.constructor` | src/client/sync-controller.ts:9-20 | holds the two given wrappers and starts with YouTube leading, the flag clear and no interval; both observer slots now hold the controller |
| `Sync.SyncController.Start` | src/client/sync-controller.ts:22-24 | the new state is `Started`: the handle is overwritten and a new interval runs |
| `Sync.SyncController.Stop` | src/client/sync-controller.ts:26-31 | the new state is `Stopped` |
| `Sync.SyncController.Play` | src/client/sync-controller.ts:33-36 | the new state is `PlayedBoth`, and each wrapper received its play |
| `Sync.SyncController.Pause` | src/client/sync-controller.ts:38-41 | the new state is `PausedBoth`, and each wrapper received its pause |
| `Sync.SyncController.SeekTo` | src/client/sync-controller.ts:43-46 | the new state is `SoughtBoth`: YouTube in seconds, Spotify in milliseconds |
| `Sync.SyncController.Tick` | src/client/sync-controller.ts:48-60 | the new state is `Ticked` on the wrappers' own readings, and the wrappers received exactly `SyncCalls` |
| `Sync.SyncController.OnYTStateChange` | src/client/sync-controller.ts:62-74 | the new state is `Notified` for a YouTube notification, and Spotify received the calls logged |
| `Sync.SyncController.OnSpStateChange` | src/client/sync-controller.ts:76-88 | the new state is `Notified` for a Spotify notification, and YouTube received the calls logged |
| `App.Boot` | src/client/index.ts:62-71 | builds both wrappers with the status display as observer, the controller takes both slots over (the status display then gets no state events), and one interval runs with its handle held |
| `App.LoadAndPlay` | src/client/index.ts:77-80 | YouTube cues or buffers a non-empty id; Spotify sends a play request for a non-empty URI given device and token; then the controller plays both, whatever was loaded |
| `App.OnPlayClick` | src/client/index.ts:73-80 | both boxes go through their parsers, and then comes the load-and-play above |
| `App.YouTubeStateEvent` | src/client/youtube-player.ts:51-54 | with the controller in YouTube's observer slot, an IFrame state event is the controller's YouTube notification of the mapped state; otherwise the controller is untouched |
| `App.SpotifyStateEvent` | src/client/spotify-player.ts:53-61 | Spotify records the state; with the controller in its slot, that state becomes the controller's Spotify notification; otherwise the controller is untouched |

## Left out

- The server (`src/server`): OAuth login, token endpoint and static hosting are outside the browser client.
- `init` in index.ts, apart from `App.Boot`: the authentication gate, the connect button and the status text. These are DOM effects. The status-display observer is only a tag, `StatusDisplay`. The pause button is `Sync.SyncController.Pause`.
- The page's global hooks `onYouTubeIframeAPIReady` and `onSpotifyWebPlaybackSDKReady`, and the `prev` chaining of the first. A constructor followed by `CreatePlayer` models both orders: the SDK already loaded, or loaded later.
- The Spotify `not_ready` listener: it only logs.
- `fetchToken` and the network: the token is a parameter (`Option<string>`, None for a failed fetch). A play request is appended to a log, not sent.
- `getOAuthToken` token refresh: it is internal to the SDK.
- Asynchrony: `load` awaits a token fetch and a PUT, so the play request really completes after `controller.play()`. The model runs `load` to completion first.
- The IFrame readings: fixed values handed to `CreatePlayer`, and constant between calls. Player progress over time is not modelled, and neither is the `?? 0` fallback when the SDK returns undefined.
- Sync.SyncController.Start: the 500 ms period of `setInterval` is a documentary constant. Ticks are explicit calls of `Tick` by a running interval.
- Sync.SyncCalls: positions are real numbers. IEEE-754 rounding of `* 1000` and `/ 1000` is not modelled.
- Identifiers.ParseYouTubeId: the WHATWG URL parser is a parameter. The model takes only the `v` parameter, host name and path it yields, with None where `new URL` throws.
- Identifiers.MatchAt: the regular-expression engine is replaced by its meaning for this one pattern, the reference predicate `MatchesAt`.
- Strings: Dafny strings are sequences of Unicode scalar values, while JavaScript strings are sequences of UTF-16 code units. So `slice(1)` here drops a code point where JavaScript drops a code unit, and input holding lone surrogates cannot be represented. The pattern is ASCII and the white-space set lies in the Basic Multilingual Plane, so nothing else differs.
