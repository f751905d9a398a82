/** The URLs of the classifier's test suite, each with the answer the suite
    expects. Each URL is first shown to be an instance of one of the shapes
    of `UrlClassifier`; the answer then follows from that shape's lemma. */
module ClassifierExamples {
  import opened Wrappers
  import opened Urls
  import opened UrlClassifier

  const RickId := "dQw4w9WgXcQ"

  // The test suite's URLs, each cut where its scheme, host, path and query meet.
  const StandardWatch := "https://" + "www.youtube.com" + "/watch" + "?v=dQw4w9WgXcQ"
  const ShortForm := "https://" + "youtu.be" + "/dQw4w9WgXcQ"
  const EmbedForm := "https://" + "www.youtube.com" + "/embed/dQw4w9WgXcQ"
  const WatchWithParams := "https://" + "www.youtube.com" + "/watch" + "?v=dQw4w9WgXcQ&list=PLrAXt&index=1"
  const MobileWatch := "https://" + "m.youtube.com" + "/watch" + "?v=dQw4w9WgXcQ"
  const PlaylistOnly := "https://" + "www.youtube.com" + "/playlist" + "?list=PLrAXt"
  const WatchVideoId := "https://" + "www.youtube.com" + "/watch" + "?v=VIDEO_ID"
  const ShortVideoId := "https://" + "youtu.be" + "/VIDEO_ID"
  const WatchInPlaylist := "https://" + "www.youtube.com" + "/watch" + "?v=VIDEO&list=PLAYLIST"
  const PlaylistPage := "https://" + "www.youtube.com" + "/playlist" + "?list=PLAYLIST_ID"
  const HandleVideos := "https://" + "www.youtube.com" + "/@channel/videos"
  const CustomVideos := "https://" + "www.youtube.com" + "/c/channel/videos"
  const HandlePlaylists := "https://" + "www.youtube.com" + "/@channel/playlists"
  const HandleOnly := "https://" + "www.youtube.com" + "/@channel"
  const OtherSite := "https://" + "example.com" + ""
  const OtherSitePage := "https://" + "example.com" + "/not-youtube"

  const ExtraParams := [Param("list", "PLrAXt"), Param("index", "1")]
  const ListParam := [Param("list", "PLAYLIST")]

  // ---------------------------------------------------------------------------
  // Which shape each test URL has

  lemma TestIdsAreVideoIds()
    ensures IsVideoId(RickId) && IsVideoId("VIDEO_ID") && IsVideoId("VIDEO")
  {
  }

  lemma ShapeStandardWatch()
    ensures StandardWatch == WatchUrl("www.youtube.com", RickId, [])
  {
    assert RenderQuery([Param("v", RickId)] + []) == "v=dQw4w9WgXcQ";
  }

  lemma ShapeShortForm()
    ensures ShortForm == ShortUrl(RickId)
  {
  }

  lemma ShapeEmbedForm()
    ensures EmbedForm == EmbedUrl("www.youtube.com", RickId)
  {
  }

  lemma ShapeWatchWithParams()
    ensures WatchWithParams == WatchUrl("www.youtube.com", RickId, ExtraParams)
  {
    WatchWithParamsQuery();
    WatchWithParamsRender();
  }

  lemma WatchWithParamsQuery()
    ensures RenderQuery([Param("v", RickId)] + ExtraParams) == "v=dQw4w9WgXcQ&list=PLrAXt&index=1"
  {
    var ps := [Param("v", RickId)] + ExtraParams;
    assert ps[0] == Param("v", RickId) && ps[1..] == ExtraParams;
    ExtraParamsQuery();
    assert RenderQuery(ps) == "v=dQw4w9WgXcQ" + "&" + "list=PLrAXt&index=1";
  }

  lemma ExtraParamsQuery()
    ensures RenderQuery(ExtraParams) == "list=PLrAXt&index=1"
  {
    assert ExtraParams[1..] == [Param("index", "1")];
    assert RenderQuery(ExtraParams) == "list=PLrAXt" + "&" + "index=1";
  }

  lemma WatchWithParamsRender()
    ensures WatchWithParams == Render(Url("www.youtube.com", "/watch", "v=dQw4w9WgXcQ&list=PLrAXt&index=1"))
  {
  }

  lemma ShapeMobileWatch()
    ensures MobileWatch == WatchUrl("m.youtube.com", RickId, [])
  {
    assert RenderQuery([Param("v", RickId)] + []) == "v=dQw4w9WgXcQ";
  }

  lemma ShapePlaylistOnly()
    ensures PlaylistOnly == PlaylistUrl("www.youtube.com", "PLrAXt")
  {
    assert RenderQuery([Param("list", "PLrAXt")]) == "list=PLrAXt";
  }

  lemma ShapeWatchVideoId()
    ensures WatchVideoId == WatchUrl("www.youtube.com", "VIDEO_ID", [])
  {
    assert RenderQuery([Param("v", "VIDEO_ID")] + []) == "v=VIDEO_ID";
  }

  lemma ShapeShortVideoId()
    ensures ShortVideoId == ShortUrl("VIDEO_ID")
  {
  }

  lemma ShapeWatchInPlaylist()
    ensures WatchInPlaylist == WatchUrl("www.youtube.com", "VIDEO", ListParam + [])
  {
    assert RenderQuery([Param("v", "VIDEO")] + (ListParam + [])) == "v=VIDEO&list=PLAYLIST";
  }

  lemma ShapePlaylistPage()
    ensures PlaylistPage == PlaylistUrl("www.youtube.com", "PLAYLIST_ID")
  {
    assert RenderQuery([Param("list", "PLAYLIST_ID")]) == "list=PLAYLIST_ID";
  }

  lemma ShapeHandleVideos()
    ensures HandleVideos == ChannelUrl("www.youtube.com", Handle, "channel", "videos")
  {
  }

  lemma ShapeCustomVideos()
    ensures CustomVideos == ChannelUrl("www.youtube.com", Custom, "channel", "videos")
  {
  }

  lemma ShapeHandlePlaylists()
    ensures HandlePlaylists == ChannelUrl("www.youtube.com", Handle, "channel", "playlists")
  {
  }

  lemma ShapeHandleOnly()
    ensures HandleOnly == ChannelUrl("www.youtube.com", Handle, "channel", "")
  {
  }

  lemma ShapeOtherSite()
    ensures OtherSite == Render(Url("example.com", "", ""))
  {
  }

  lemma ShapeOtherSitePage()
    ensures OtherSitePage == Render(Url("example.com", "/not-youtube", ""))
  {
  }

  // ---------------------------------------------------------------------------
  // extract_video_id on the test URLs: the standard watch, short, embed,
  // parameterised and mobile URLs all name the same video, and a bare
  // playlist page names none.

  lemma ExtractStandardWatch()
    ensures ExtractVideoId(StandardWatch) == Some(RickId)
  {
    TestIdsAreVideoIds();
    ShapeStandardWatch();
    WatchUrlRoundTrip("www.youtube.com", RickId, []);
  }

  lemma ExtractShortForm()
    ensures ExtractVideoId(ShortForm) == Some(RickId)
  {
    TestIdsAreVideoIds();
    ShapeShortForm();
    ShortUrlRoundTrip(RickId);
  }

  lemma ExtractEmbedForm()
    ensures ExtractVideoId(EmbedForm) == Some(RickId)
  {
    TestIdsAreVideoIds();
    ShapeEmbedForm();
    EmbedUrlRoundTrip("www.youtube.com", RickId);
  }

  lemma ExtractWatchWithParams()
    ensures ExtractVideoId(WatchWithParams) == Some(RickId)
  {
    TestIdsAreVideoIds();
    ShapeWatchWithParams();
    assert WellFormedParams(ExtraParams);
    WatchUrlRoundTrip("www.youtube.com", RickId, ExtraParams);
  }

  lemma ExtractMobileWatch()
    ensures ExtractVideoId(MobileWatch) == Some(RickId)
  {
    TestIdsAreVideoIds();
    ShapeMobileWatch();
    WatchUrlRoundTrip("m.youtube.com", RickId, []);
  }

  lemma ExtractPlaylistOnly()
    ensures ExtractVideoId(PlaylistOnly) == None
  {
    ShapePlaylistOnly();
    PlaylistUrlIsPlaylist("www.youtube.com", "PLrAXt");
  }

  // ---------------------------------------------------------------------------
  // detect_url_type on the test URLs, by the name it is reported under

  lemma DetectWatchVideoId()
    ensures KindName(DetectUrlType(WatchVideoId)) == "video"
  {
    TestIdsAreVideoIds();
    ShapeWatchVideoId();
    WatchUrlRoundTrip("www.youtube.com", "VIDEO_ID", []);
  }

  lemma DetectShortVideoId()
    ensures KindName(DetectUrlType(ShortVideoId)) == "video"
  {
    TestIdsAreVideoIds();
    ShapeShortVideoId();
    ShortUrlRoundTrip("VIDEO_ID");
  }

  /** A video takes precedence over the playlist it is played from. */
  lemma DetectWatchInPlaylist()
    ensures KindName(DetectUrlType(WatchInPlaylist)) == "video"
  {
    TestIdsAreVideoIds();
    ShapeWatchInPlaylist();
    assert WellFormedParams(ListParam + []);
    WatchWithListIsVideo("www.youtube.com", "VIDEO", "PLAYLIST", []);
  }

  lemma DetectPlaylistPage()
    ensures KindName(DetectUrlType(PlaylistPage)) == "playlist"
  {
    ShapePlaylistPage();
    PlaylistUrlIsPlaylist("www.youtube.com", "PLAYLIST_ID");
  }

  lemma DetectHandleVideos()
    ensures KindName(DetectUrlType(HandleVideos)) == "channel_videos"
  {
    ShapeHandleVideos();
    ChannelUrlClassified("www.youtube.com", Handle, "channel", "videos");
  }

  lemma DetectCustomVideos()
    ensures KindName(DetectUrlType(CustomVideos)) == "channel_videos"
  {
    ShapeCustomVideos();
    ChannelUrlClassified("www.youtube.com", Custom, "channel", "videos");
  }

  lemma DetectHandlePlaylists()
    ensures KindName(DetectUrlType(HandlePlaylists)) == "channel_playlists"
  {
    ShapeHandlePlaylists();
    ChannelUrlClassified("www.youtube.com", Handle, "channel", "playlists");
  }

  /** A channel without a tab defaults to its videos. */
  lemma DetectHandleOnly()
    ensures KindName(DetectUrlType(HandleOnly)) == "channel_videos"
  {
    ShapeHandleOnly();
    ChannelUrlClassified("www.youtube.com", Handle, "channel", "");
  }

  lemma DetectOtherSite()
    ensures KindName(DetectUrlType(OtherSite)) == "unknown"
  {
    ShapeOtherSite();
    OtherHostIsUnknown(Url("example.com", "", ""));
  }

  lemma DetectOtherSitePage()
    ensures KindName(DetectUrlType(OtherSitePage)) == "unknown"
  {
    ShapeOtherSitePage();
    OtherHostIsUnknown(Url("example.com", "/not-youtube", ""));
  }
}
