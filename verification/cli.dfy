/** The command-line entry: classify `-u` and hand it, with `-o`, to the
    processor for its kind. */
module Cli {
  import opened Wrappers
  import opened UrlClassifier

  /** Which tab of a channel `process_channel` walks. */
  datatype ChannelMode = VideosMode | PlaylistsMode

  /** The `mode` argument passed to `process_channel`. */
  function ModeName(m: ChannelMode): string {
    match m
    case VideosMode => "videos"
    case PlaylistsMode => "playlists"
  }

  /** The processor call the command makes, or the error it stops with. */
  datatype Route =
    | ProcessVideo(url: string, output: string)
    | ProcessPlaylist(url: string, output: string)
    | ProcessChannel(url: string, output: string, mode: ChannelMode)
    | UnsupportedUrl(url: string)
    | MissingUrl

  /** The kind of URL a route serves; None for the missing-option error. */
  function RouteKind(r: Route): Option<UrlKind> {
    match r
    case ProcessVideo(_, _) => Some(Video)
    case ProcessPlaylist(_, _) => Some(Playlist)
    case ProcessChannel(_, _, m) =>
      Some(if m == PlaylistsMode then ChannelPlaylists else ChannelVideos)
    case UnsupportedUrl(_) => Some(Unknown)
    case MissingUrl => None
  }

  /** The command: without `-u` it fails with a usage error; otherwise the
      URL's kind picks the processor, and an Unknown URL is reported as
      unsupported. */
  function Dispatch(url: Option<string>, output: string): (r: Route)
    ensures url.None? <==> r == MissingUrl
    ensures url.Some? ==> RouteKind(r) == Some(DetectUrlType(url.value))
    ensures url.Some? ==> !r.MissingUrl? && r.url == url.value
    ensures r.ProcessVideo? || r.ProcessPlaylist? || r.ProcessChannel? ==> r.output == output
  {
    match url
    case None => MissingUrl
    case Some(u) =>
      match DetectUrlType(u)
      case Video => ProcessVideo(u, output)
      case Playlist => ProcessPlaylist(u, output)
      case ChannelVideos => ProcessChannel(u, output, VideosMode)
      case ChannelPlaylists => ProcessChannel(u, output, PlaylistsMode)
      case Unknown => UnsupportedUrl(u)
  }

  /** A URL with a video ID always goes to the single-video processor, with
      the URL and output path unchanged. */
  lemma VideoUrlsGoToSingleVideo(url: string, output: string)
    requires ExtractVideoId(url).Some?
    ensures Dispatch(Some(url), output) == ProcessVideo(url, output)
  {
  }

  /** Channel pages go to the channel processor with the mode their tab names. */
  lemma ChannelUrlsGetTheirMode(url: string, output: string)
    requires DetectUrlType(url) in {ChannelVideos, ChannelPlaylists}
    ensures Dispatch(Some(url), output).ProcessChannel?
    ensures ModeName(Dispatch(Some(url), output).mode) ==
              (if DetectUrlType(url) == ChannelPlaylists then "playlists" else "videos")
  {
  }
}
