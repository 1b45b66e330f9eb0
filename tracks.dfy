/** The catalog's entities: one track as the remote service describes it. */
module Tracks {

  datatype Option<+T> = None | Some(value: T)

  /** One catalog entry. `album` and `coverUrl` may be absent; `audioUrl` is the
      media locator handed to the audio output. */
  datatype Track = Track(
    id: string,
    title: string,
    artist: string,
    album: Option<string>,
    audioUrl: string,
    coverUrl: Option<string>)
}
