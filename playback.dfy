/** Vocabulary shared by the two player wrappers and the synchronization controller. */
module Playback {

  datatype Option<+T> = None | Some(value: T)

  /** The playback state a player wrapper reports. */
  datatype PlayerState = Playing | Paused | Unstarted

  /** A command of the player interface. A seek position is in the player's own unit:
      seconds for YouTube, milliseconds for Spotify. */
  datatype Command = Play | Pause | SeekTo(position: real)

  /** Who sits in a wrapper's single state-change observer slot: the status-line
      callback the page installs, or the controller that replaces it. */
  datatype Observer = StatusDisplay | Controller

  /** One invocation of an observer callback. */
  datatype Delivery = Delivery(observer: Observer, state: PlayerState)

  /** JavaScript truthiness of a `string | null`: null and "" are both false. */
  predicate Truthy(s: Option<string>)
  {
    s.Some? && s.value != ""
  }
}
