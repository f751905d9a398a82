/** The command-line test cases: the processor each test URL is routed to. */
module CliExamples {
  import opened Wrappers
  import opened Urls
  import opened UrlClassifier
  import opened Cli
  import ClassifierExamples
  import StoreExamples

  const PlaylistTestUrl := "https://" + "www.youtube.com" + "/playlist" + "?list=PLtest"

  /** Without `-u` the command fails. */
  lemma NoArguments()
    ensures Dispatch(None, "test.csv") == MissingUrl
  {
  }

  lemma WatchUrlRoute()
    ensures Dispatch(Some(StoreExamples.TestUrl), "test.csv")
         == ProcessVideo(StoreExamples.TestUrl, "test.csv")
  {
    assert IsVideoId("test_id");
    assert RenderQuery([Param("v", "test_id")] + []) == "v=test_id";
    assert StoreExamples.TestUrl == WatchUrl("www.youtube.com", "test_id", []);
    WatchUrlRoundTrip("www.youtube.com", "test_id", []);
  }

  lemma PlaylistUrlRoute()
    ensures Dispatch(Some(PlaylistTestUrl), "test.csv").ProcessPlaylist?
  {
    assert RenderQuery([Param("list", "PLtest")]) == "list=PLtest";
    assert PlaylistTestUrl == PlaylistUrl("www.youtube.com", "PLtest");
    PlaylistUrlIsPlaylist("www.youtube.com", "PLtest");
  }

  lemma ChannelVideosRoute()
    ensures Dispatch(Some(ClassifierExamples.HandleVideos), "test.csv")
         == ProcessChannel(ClassifierExamples.HandleVideos, "test.csv", VideosMode)
    ensures ModeName(VideosMode) == "videos"
  {
    ClassifierExamples.DetectHandleVideos();
  }

  lemma ChannelPlaylistsRoute()
    ensures Dispatch(Some(ClassifierExamples.HandlePlaylists), "test.csv")
         == ProcessChannel(ClassifierExamples.HandlePlaylists, "test.csv", PlaylistsMode)
    ensures ModeName(PlaylistsMode) == "playlists"
  {
    ClassifierExamples.DetectHandlePlaylists();
  }

  /** A URL of another site is reported as unsupported. */
  lemma UnknownUrlRoute()
    ensures Dispatch(Some(ClassifierExamples.OtherSitePage), "test.csv")
         == UnsupportedUrl(ClassifierExamples.OtherSitePage)
  {
    ClassifierExamples.DetectOtherSitePage();
  }
}
