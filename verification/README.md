# yt-dlp-transcripts: URL classifier and resume-safe record store, in Dafny

This project models the core logic of `yt_dlp_transcripts`. The tool takes a
YouTube URL, works out whether it names a single video, a playlist or a
channel tab, and then fetches each video's metadata and transcript. Each
result becomes one row of a CSV file. A video already in the file is skipped,
so an interrupted run can be restarted.

The only source is the project's test suite, `tests/test_core.py`; the
implementation module is not part of this model. The model therefore follows
the behaviour that the tests' assertions fix. Where the tests leave a choice
open, the model makes one and lists it under "Left out".

Modules:

- `Wrappers`: `Option`.
- `Strings`: prefix tests, character scanning (`IndexOfAny`) and its
  concatenation lemmas.
- `Urls`: a URL as host, path and query (`ParseUrl`); `Render`, which
  `ParseUrl` reads back; and query-parameter lookup (`QueryParam`) against the
  reference reading `Lookup` of a rendered parameter list.
- `UrlClassifier`: `ExtractVideoId`, `DetectUrlType` and the `UrlKind` datatype
  with its reported names. It also has builders for the URL shapes the site
  uses (watch, short link, embed, playlist, channel page), each with a lemma
  giving the classifier's answer for every instance of that shape.
- `ClassifierExamples`: each URL of the classifier tests, with the answer the
  test expects, derived from the shape lemmas.
- `VideoInfo`: the `VideoRecord` row, transcript assembly (`JoinFragments`,
  characterised by how it joins two runs of fragments, with `SplitOnSpaces`
  as its inverse on fragments that hold no space), and `GetVideoInfo`. Both fetchers are
  function parameters.
- `RecordStore`: the output file as `seq<VideoRecord>` with the invariant that
  no two rows share a video ID. It defines `ProcessSingleVideo`, whose result
  records whether the fetcher was consulted, and `PlainAppend`, the
  same step without the check after the fetch (see "Findings"). It also defines `ProcessAll`,
  which processes a list of URLs one after the other, with the resume lemmas.
- `StoreExamples`: the two CSV tests.
- `Cli`: routing from URL kind to processor (`Dispatch`).
- `CliExamples`: the routing tests.

## Model

| member | source | states |
|---|---|---|
| UrlClassifier.ExtractVideoId | tests/test_core.py:25-47 | An extracted ID is a non-empty run of letters, digits, `_` and `-`, and only a YouTube host yields one |
| UrlClassifier.WatchUrlRoundTrip | tests/test_core.py:25-43 | On the main, `www.` or mobile host, `watch?v=<id>` yields `<id>` whatever parameters follow |
| UrlClassifier.ShortUrlRoundTrip | tests/test_core.py:29-31 | `youtu.be/<id>` yields `<id>` |
| UrlClassifier.EmbedUrlRoundTrip | tests/test_core.py:33-35 | `/embed/<id>` yields `<id>` |
| Urls.QueryParamRenderQuery | tests/test_core.py:37-39 | Reading a parameter out of a query string finds the first parameter of that name, whatever other parameters surround it |
| Urls.ParseRender | tests/test_core.py:25-75 | For a well-formed URL value, splitting its written-out form into host, path and query gives back its parts, so each URL shape is read back part by part |
| UrlClassifier.PlaylistUrlIsPlaylist | tests/test_core.py:45-58 | A `/playlist?list=<p>` page names no video, names playlist `<p>`, and is classified `playlist` |
| UrlClassifier.DetectUrlType | tests/test_core.py:50-75 | The precedence rule: `video` exactly when a video ID is extractable; `playlist` exactly when there is no ID but a `list` parameter; a channel kind exactly when there is neither but a channel page, and `channel_playlists` exactly when that page's tab is `playlists`; any non-`unknown` kind implies a YouTube host |
| UrlClassifier.WatchWithListIsVideo | tests/test_core.py:57-60 | A watch URL that also carries `list=` is a `video` |
| UrlClassifier.ChannelUrlClassified | tests/test_core.py:62-72 | On `/@name` or `/c/name`, the tab is read back: `/playlists` gives `channel_playlists`, while `/videos` or no tab gives `channel_videos` |
| UrlClassifier.NonYouTubeIsUnknown | tests/test_core.py:74-75 | A URL on any other host names no video and is `unknown` |
| UrlClassifier.KindName | tests/test_core.py:53-75 | Each kind's reported name is read back as that kind |
| UrlClassifier.KindNameInjective | tests/test_core.py:53-75 | Different kinds are reported under different names |
| ClassifierExamples.ExtractStandardWatch | tests/test_core.py:25-27 | The standard watch URL yields `dQw4w9WgXcQ` |
| ClassifierExamples.ExtractShortForm | tests/test_core.py:29-31 | The short link yields `dQw4w9WgXcQ` |
| ClassifierExamples.ExtractEmbedForm | tests/test_core.py:33-35 | The embed URL yields `dQw4w9WgXcQ` |
| ClassifierExamples.ExtractWatchWithParams | tests/test_core.py:37-39 | The watch URL with `&list=PLrAXt&index=1` yields `dQw4w9WgXcQ` |
| ClassifierExamples.ExtractMobileWatch | tests/test_core.py:41-43 | The `m.youtube.com` watch URL yields `dQw4w9WgXcQ` |
| ClassifierExamples.ExtractPlaylistOnly | tests/test_core.py:45-47 | The bare playlist URL yields no ID |
| ClassifierExamples.DetectWatchVideoId | tests/test_core.py:53-54 | The watch URL is reported as `video` |
| ClassifierExamples.DetectShortVideoId | tests/test_core.py:53-55 | The short link is reported as `video` |
| ClassifierExamples.DetectPlaylistPage | tests/test_core.py:57-58 | The playlist page is reported as `playlist` |
| ClassifierExamples.DetectWatchInPlaylist | tests/test_core.py:59-60 | A watch URL with `list=` is reported as `video` |
| ClassifierExamples.DetectHandleVideos | tests/test_core.py:62-63 | `@channel/videos` is reported as `channel_videos` |
| ClassifierExamples.DetectCustomVideos | tests/test_core.py:62-64 | `c/channel/videos` is reported as `channel_videos` |
| ClassifierExamples.DetectHandlePlaylists | tests/test_core.py:66-68 | `@channel/playlists` is reported as `channel_playlists` |
| ClassifierExamples.DetectHandleOnly | tests/test_core.py:70-72 | `@channel` with no tab is reported as `channel_videos` |
| ClassifierExamples.DetectOtherSite | tests/test_core.py:74-75 | `https://example.com` is reported as `unknown` |
| VideoInfo.JoinFragments | tests/test_core.py:98-107 | The joined transcript is empty for no fragments; otherwise it starts with the first fragment, followed by a space when more follow, and its length is the fragments' total plus one per gap |
| VideoInfo.JoinConcat | tests/test_core.py:98-107 | For any fragments, spaces inside them included: joining two non-empty runs is joining each and putting one space between them, which with the one-fragment case fixes the whole text |
| VideoInfo.JoinAppend | tests/test_core.py:98-107 | One more fragment adds a single space and that fragment at the end |
| VideoInfo.SplitJoin | tests/test_core.py:98-107 | For fragments that hold no space, splitting the joined transcript at spaces gives the fragments back, so the join loses and merges nothing |
| VideoInfo.HelloWorldTranscript | tests/test_core.py:98-107 | `['Hello','World']` is joined to `"Hello World"` |
| VideoInfo.GetVideoInfo | tests/test_core.py:81-132 | A record exists exactly when the metadata fetch succeeds. It carries that metadata unchanged and the requested URL. Its transcript is the joined fragments, or empty when the transcript fetch fails, so that failure never drops the record |
| VideoInfo.GetVideoInfoWithTranscript | tests/test_core.py:81-108 | The mocked fetch gives `video_id` `test_id`, title `Test Video`, transcript `Hello World` and duration 300 |
| VideoInfo.GetVideoInfoWithoutTranscript | tests/test_core.py:110-132 | With the transcript fetch failing, the record still exists, with `video_id` `test_id` and an empty transcript |
| RecordStore.ProcessSingleVideo | tests/test_core.py:203-259 | Keeps IDs unique. A URL naming a stored video returns the table unchanged and does not fetch. Any other URL is fetched. The call appends exactly the fetched record, and only when that record's ID is new. In every other case the table is unchanged |
| RecordStore.PlainAppend | tests/test_core.py:203-259 | The plain-append step: a URL naming a stored video is skipped without fetching; any other URL is fetched and a successful fetch is appended as it is; IDs stay unique whenever the fetcher answers for the video the URL names |
| RecordStore.ProcessSingleVideoAgreesWhenFetchMatches | tests/test_core.py:203-259 | When the fetcher answers for the video the URL names, the guarded step writes the same table and makes the same fetches as the plain-append step |
| RecordStore.AppendFreshKeepsUnique | tests/test_core.py:203-232 | Appending a record whose ID is not stored keeps IDs unique and adds exactly that ID |
| RecordStore.CountUnique | tests/test_core.py:249-254 | With unique IDs, a stored ID has exactly one row and any other ID none |
| RecordStore.ProcessTwice | tests/test_core.py:234-259 | Processing the same URL twice: for every URL and fetcher, the second call leaves the table unchanged. When the URL names a video, the fetcher answers for that video and the first call stored it, the second call does not fetch and there is exactly one row with its ID |
| RecordStore.ProcessAll | tests/test_core.py:234-259 | Processing URLs in turn only appends: the old table is a prefix of the new one, with at most one fetch per URL |
| RecordStore.ProcessAllKeepsUnique | tests/test_core.py:234-259 | Processing URLs in turn keeps IDs unique |
| RecordStore.ProcessAllKeepsIds | tests/test_core.py:234-259 | Processing URLs in turn never drops a stored ID |
| RecordStore.StepAbsorbs | tests/test_core.py:234-259 | For every URL and fetcher, after one call the URL names a stored video, its fetch fails, or the ID it fetches is stored; a further call in that state changes nothing |
| RecordStore.ProcessAllAbsorbs | tests/test_core.py:234-259 | For every URL list and fetcher, after a run each of its URLs is in that state |
| RecordStore.AbsorbedRunIsNoOp | tests/test_core.py:234-259 | A run over URLs that are all in that state leaves the table as it is |
| RecordStore.ProcessAllSettles | tests/test_core.py:234-259 | When every URL names a video and the fetcher answers for that video, after a run every URL whose fetch succeeds has its ID stored |
| RecordStore.SettledRunIsNoOp | tests/test_core.py:234-259 | A run whose URLs are all stored, or whose fetches fail, leaves the table as is. If every fetch succeeds, it fetches nothing |
| RecordStore.RerunAppendsNothing | tests/test_core.py:234-259 | Resume: for every URL list and fetcher, rerunning the same URLs appends nothing. When every URL names a video, the fetcher answers for it and every fetch succeeds, the rerun fetches nothing |
| StoreExamples.FirstVideoIntoEmptyTable | tests/test_core.py:203-232 | Into an empty table, a fetched video becomes the only row |
| StoreExamples.NewVideoWritesOneRow | tests/test_core.py:203-232 | The test's new video gives exactly one row, with `video_id` `test_id` and title `Test Video` |
| StoreExamples.ExistingUrlNamesExistingId | tests/test_core.py:247 | The resume test's URL names `existing_id` |
| StoreExamples.ResumeSkipsStoredVideo | tests/test_core.py:234-259 | Whatever the fetcher would return, the stored video is not fetched and the one row stays as it was |
| StoreExamples.ShortsUrlNamesNoId | tests/test_core.py:234-259 | A `/shorts/` link on a YouTube host names no video the classifier reads |
| StoreExamples.PlainAppendDuplicatesShorts | tests/test_core.py:234-259 | The plain-append step, resumed over a stored Shorts video, stores a second row with the same ID |
| StoreExamples.GuardedStepKeepsShortsOnce | tests/test_core.py:234-259 | The guarded step, on the same input, fetches again but keeps the table's one row |
| Cli.Dispatch | tests/test_core.py:138-197 | No `-u` gives the usage error. Otherwise the route serves exactly the kind `DetectUrlType` reports, an `unknown` URL becomes the unsupported-URL error, and URL and output path are passed on unchanged |
| Cli.VideoUrlsGoToSingleVideo | tests/test_core.py:150-158 | A URL with a video ID is passed, with the output path, to the single-video processor |
| Cli.ChannelUrlsGetTheirMode | tests/test_core.py:170-188 | Channel pages go to the channel processor with mode `playlists` or `videos` as their kind says |
| CliExamples.NoArguments | tests/test_core.py:138-142 | With no `-u`, the command fails |
| CliExamples.WatchUrlRoute | tests/test_core.py:150-158 | The test's watch URL is routed to `process_single_video(url, 'test.csv')` |
| CliExamples.PlaylistUrlRoute | tests/test_core.py:160-168 | The test's playlist URL is routed to `process_playlist` |
| CliExamples.ChannelVideosRoute | tests/test_core.py:170-178 | `@channel/videos` is routed to `process_channel` with mode `videos` |
| CliExamples.ChannelPlaylistsRoute | tests/test_core.py:180-188 | `@channel/playlists` is routed to `process_channel` with mode `playlists` |
| CliExamples.UnknownUrlRoute | tests/test_core.py:190-197 | `https://example.com/not-youtube` is reported as unsupported |

## Left out

- `yt_dlp_transcripts/core.py` is not part of this model. The classification rules below are chosen to agree with every assertion of the test suite; patterns the tests do not exercise may differ from it.
- UrlClassifier.IsVideoId: an ID is any non-empty run of `[A-Za-z0-9_-]`, with no 11-character rule, because the tests classify `VIDEO` and `VIDEO_ID` as videos.
- UrlClassifier.ExtractVideoId: only the hosts `youtube.com`, `www.youtube.com`, `m.youtube.com` and `youtu.be` are recognised, compared case-sensitively. The `v` parameter counts only on path `/watch`. Other shapes (`/shorts/`, `/live/`, `/v/`, `youtube-nocookie.com`, `music.youtube.com`) are not recognised.
- UrlClassifier.ChannelTab: only `/@name` and `/c/name` are channel pages (not `/channel/<id>` or `/user/<name>`). Any tab other than `playlists` counts as videos, the default.
- Urls.ParseUrl: a `#` fragment ends the path and query; percent-encoding, user info and ports are not modelled.
- Network collaborators: the metadata extractor and the transcript service are function parameters (`metadataOf`, `captionsOf`, `Fetcher`). Their failures are `None`.
- VideoInfo.GetVideoInfo: the transcript is requested by the ID the metadata reports, and the record's `url` is the requested URL. Missing `duration` or `view_count` values are not modelled (both are `nat`).
- CSV file handling: quoting, UTF-8, the header row, column order on disk, creating the file versus appending to it, and reading a file with fewer columns are left out. The file is the in-memory `seq<VideoRecord>`. The resume test's two-column row has its other fields empty.
- RecordStore.ProcessSingleVideo: after a fetch, a record whose ID is already stored is not appended. Without this check the step is a plain append, `RecordStore.PlainAppend`; "Findings" shows the duplicate row it writes.
- Playlist and channel enumeration, and the per-video error messages of a batch run, are left out because they depend on the listing collaborator. `RecordStore.ProcessAll` models only the per-video loop over a given URL list.
- Command-line mechanics: option parsing, `--help` text, exit codes and the exact printed messages are left out. `Cli.Dispatch` returns the route or error as a value.

## Findings

| source | as written | input that shows it | evidently intended | confidence | as-written member | corrected member |
|---|---|---|---|---|---|---|
| tests/test_core.py:234-259 | A stored video is recognised only by the ID read from the URL; otherwise the fetched record is appended with no look at its ID | Resuming over `https://www.youtube.com/shorts/abc` with a row for `abc` already stored: the URL names no readable ID, so the video is fetched again and a second `abc` row is appended | A duplicate `video_id` on resume is skipped, so the file never holds two rows for one video | low: not executed; the implementation is not part of this model | StoreExamples.PlainAppendDuplicatesShorts | RecordStore.ProcessSingleVideo |
