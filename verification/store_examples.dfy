/** The record store's test cases: a new video into an empty file, and a
    video that is already in the file. */
module StoreExamples {
  import opened Wrappers
  import opened Urls
  import opened UrlClassifier
  import opened VideoInfo
  import opened RecordStore

  /** Into an empty table, a fetched video becomes the one and only row. */
  lemma FirstVideoIntoEmptyTable(url: string, fetch: Fetcher)
    requires fetch(url).Some?
    ensures var r := ProcessSingleVideo(url, [], fetch);
      r.status == Appended && r.rows == [fetch(url).value]
  {
    assert Ids([]) == {};
  }

  const TestUrl := "https://" + "www.youtube.com" + "/watch" + "?v=test_id"
  const TestRecord := VideoRecord("test_id", "Test Video", "https://www.youtube.com/watch?v=test_id",
                                  "Test", "Test transcript", "20240101", 300, 1000,
                                  "Test Channel", "ch_123")

  /** The new-video test: exactly one row, with the fetched ID and title. */
  lemma NewVideoWritesOneRow()
    ensures var r := ProcessSingleVideo(TestUrl, [], _ => Some(TestRecord));
      |r.rows| == 1 && r.rows[0].videoId == "test_id" && r.rows[0].title == "Test Video"
  {
    FirstVideoIntoEmptyTable(TestUrl, _ => Some(TestRecord));
  }

  const ExistingUrl := "https://" + "www.youtube.com" + "/watch" + "?v=existing_id"
  /** The pre-populated file holds only the `video_id` and `title` columns;
      the others read as empty. */
  const ExistingRow := VideoRecord("existing_id", "Existing Video", "", "", "", "", 0, 0, "", "")

  lemma ExistingUrlNamesExistingId()
    ensures ExtractVideoId(ExistingUrl) == Some("existing_id")
  {
    assert IsVideoId("existing_id");
    assert RenderQuery([Param("v", "existing_id")] + []) == "v=existing_id";
    assert ExistingUrl == WatchUrl("www.youtube.com", "existing_id", []);
    WatchUrlRoundTrip("www.youtube.com", "existing_id", []);
  }

  /** The resume test: whatever the fetcher would return, the stored video
      is not fetched and the table keeps its one row. */
  lemma ResumeSkipsStoredVideo(fetch: Fetcher)
    ensures ProcessSingleVideo(ExistingUrl, [ExistingRow], fetch) == Step([ExistingRow], AlreadyStored, false)
  {
    ExistingUrlNamesExistingId();
    assert [ExistingRow][0].videoId == "existing_id";
    assert KnownVideo(ExistingUrl, [ExistingRow]);
  }

  // ---------------------------------------------------------------------------
  // Resuming over a URL whose video ID cannot be read

  /** A Shorts link: a YouTube page whose video ID the classifier does not read. */
  const ShortsUrl := "https://" + "www.youtube.com" + "/shorts/abc"
  const ShortsRow := VideoRecord("abc", "Short Video", ShortsUrl, "", "", "", 0, 0, "", "")

  const ShortsPage := Url("www.youtube.com", "/shorts/abc", "")

  lemma ShapeShorts()
    ensures ShortsUrl == Render(ShortsPage)
  {
  }

  /** Neither `/watch` nor `/embed/`: the page names no video. */
  lemma ShortsPageNamesNoId()
    ensures VideoIdOf(ShortsPage) == None
  {
    assert |ShortsPage.path| != |"/watch"|;
    assert ShortsPage.path[1] != "/embed/"[1];
  }

  lemma ShortsUrlNamesNoId()
    ensures ExtractVideoId(ShortsUrl) == None
  {
    MainHostsWellFormed(ShortsPage.host);
    ShapeShorts();
    ParseRender(ShortsPage);
    ShortsPageNamesNoId();
  }

  /** The plain-append step, resumed over a Shorts video it has already stored,
      fetches it again and stores a second row with the same ID. */
  lemma PlainAppendDuplicatesShorts()
    ensures UniqueIds([ShortsRow])
    ensures !UniqueIds(PlainAppend(ShortsUrl, [ShortsRow], _ => Some(ShortsRow)).rows)
  {
    ShortsUrlNamesNoId();
    assert !KnownVideo(ShortsUrl, [ShortsRow]);
    var rows := PlainAppend(ShortsUrl, [ShortsRow], _ => Some(ShortsRow)).rows;
    assert rows == [ShortsRow, ShortsRow];
    assert rows[0].videoId == rows[1].videoId;
  }

  /** The guarded step fetches the Shorts video again but keeps its one row. */
  lemma GuardedStepKeepsShortsOnce()
    ensures ProcessSingleVideo(ShortsUrl, [ShortsRow], _ => Some(ShortsRow)) ==
              Step([ShortsRow], AlreadyStored, true)
  {
    ShortsUrlNamesNoId();
    assert !KnownVideo(ShortsUrl, [ShortsRow]);
    assert [ShortsRow][0].videoId == "abc";
  }
}
