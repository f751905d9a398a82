/** `get_video_info`: one video's metadata and transcript, assembled into the
    record the output table stores. Both fetchers are collaborators outside
    the model and appear as function parameters. */
module VideoInfo {
  import opened Wrappers
  import opened Strings

  /** What the metadata fetcher reports about one video. */
  datatype Metadata = Metadata(
    id: string,
    title: string,
    description: string,
    uploadDate: string,
    duration: nat,
    viewCount: nat,
    channel: string,
    channelId: string)

  /** One row of the output table, in its column order. */
  datatype VideoRecord = VideoRecord(
    videoId: string,
    title: string,
    url: string,
    description: string,
    transcript: string,
    uploadDate: string,
    duration: nat,
    viewCount: nat,
    channel: string,
    channelId: string)

  /** The metadata columns of a record. */
  function MetadataOf(r: VideoRecord): Metadata {
    Metadata(r.videoId, r.title, r.description, r.uploadDate, r.duration,
             r.viewCount, r.channel, r.channelId)
  }

  // ---------------------------------------------------------------------------
  // Transcript text

  /** Total length of the fragments. */
  function TotalLength(fs: seq<string>): nat {
    if |fs| == 0 then 0 else |fs[0]| + TotalLength(fs[1..])
  }

  /** The caption fragments joined with single spaces. */
  function JoinFragments(fs: seq<string>): (s: string)
    ensures |fs| == 0 ==> s == ""
    ensures |fs| > 0 ==> |s| == TotalLength(fs) + |fs| - 1
    ensures |fs| > 0 ==> s[..|fs[0]|] == fs[0]
    ensures |fs| > 1 ==> s[|fs[0]|] == ' '
  {
    if |fs| == 0 then ""
    else if |fs| == 1 then fs[0]
    else fs[0] + " " + JoinFragments(fs[1..])
  }

  /** Joining two non-empty runs of fragments is joining each and putting one
      space between them; with `JoinFragments([f]) == f` this fixes the text
      of every transcript, spaces inside the fragments included. */
  lemma {:induction false} JoinConcat(a: seq<string>, b: seq<string>)
    requires |a| > 0 && |b| > 0
    ensures JoinFragments(a + b) == JoinFragments(a) + " " + JoinFragments(b)
    decreases |a|
  {
    assert (a + b)[0] == a[0];
    assert (a + b)[1..] == a[1..] + b;
    if |a| > 1 {
      JoinConcat(a[1..], b);
    }
  }

  /** One more fragment adds a space and that fragment at the end. */
  lemma JoinAppend(fs: seq<string>, f: string)
    requires |fs| > 0
    ensures JoinFragments(fs + [f]) == JoinFragments(fs) + " " + f
  {
    JoinConcat(fs, [f]);
  }

  /** The space-separated pieces of `s`: the inverse of `JoinFragments`. */
  function SplitOnSpaces(s: string): (fs: seq<string>)
    ensures |fs| > 0
    ensures forall i :: 0 <= i < |fs| ==> Avoids(fs[i], {' '})
    decreases |s|
  {
    var i := IndexOfAny(s, {' '});
    if i == |s| then [s] else [s[..i]] + SplitOnSpaces(s[i + 1..])
  }

  /** Splitting a space-free piece, a space and more text yields the piece first. */
  lemma SplitFirst(f: string, rest: string)
    requires Avoids(f, {' '})
    ensures SplitOnSpaces(f + " " + rest) == [f] + SplitOnSpaces(rest)
  {
    var s := f + (" " + rest);
    assert f + " " + rest == s;
    IndexOfAnyStopsAt(f, " " + rest, {' '});
    assert s[..|f|] == f;
    assert s[|f| + 1..] == rest;
  }

  /** Joining fragments that hold no space and splitting the result again
      gives back the fragments: nothing is lost or merged by the join. */
  lemma {:induction false} SplitJoin(fs: seq<string>)
    requires |fs| > 0
    requires forall i :: 0 <= i < |fs| ==> Avoids(fs[i], {' '})
    ensures SplitOnSpaces(JoinFragments(fs)) == fs
  {
    var f := fs[0];
    assert Avoids(f, {' '});
    if |fs| == 1 {
      IndexOfAnyWhole(f, {' '});
      assert f[..|f|] == f;
    } else {
      var tail := fs[1..];
      assert forall i :: 0 <= i < |tail| ==> Avoids(tail[i], {' '}) by {
        forall i | 0 <= i < |tail| ensures Avoids(tail[i], {' '}) {
          assert tail[i] == fs[i + 1];
        }
      }
      SplitFirst(f, JoinFragments(tail));
      SplitJoin(tail);
      assert fs == [f] + tail;
    }
  }

  /** The transcript column: the joined fragments, or "" when the transcript
      could not be fetched. */
  function TranscriptText(captions: Option<seq<string>>): (t: string)
    ensures captions.None? ==> t == ""
    ensures captions.Some? && |captions.value| > 0 ==>
              |t| == TotalLength(captions.value) + |captions.value| - 1
  {
    match captions
    case None => ""
    case Some(fs) => JoinFragments(fs)
  }

  /** `get_video_info`: None when the metadata fetch fails; otherwise the
      record of the fetched metadata, the requested URL and the transcript.
      A failed transcript fetch still yields the record, with an empty
      transcript. */
  function GetVideoInfo(
    url: string,
    metadataOf: string -> Option<Metadata>,
    captionsOf: string -> Option<seq<string>>
  ): (r: Option<VideoRecord>)
    ensures r.Some? <==> metadataOf(url).Some?
    ensures r.Some? ==> MetadataOf(r.value) == metadataOf(url).value && r.value.url == url
    ensures r.Some? && captionsOf(r.value.videoId).None? ==> r.value.transcript == ""
    ensures r.Some? && captionsOf(r.value.videoId).Some? ==>
              r.value.transcript == JoinFragments(captionsOf(r.value.videoId).value)
  {
    match metadataOf(url)
    case None => None
    case Some(m) =>
      Some(VideoRecord(m.id, m.title, url, m.description, TranscriptText(captionsOf(m.id)),
                       m.uploadDate, m.duration, m.viewCount, m.channel, m.channelId))
  }

  // ---------------------------------------------------------------------------
  // The test suite's two fetches

  const TestMetadata := Metadata("test_id", "Test Video", "Test Description", "20240101",
                                 300, 1000, "Test Channel", "channel_123")
  const TestUrl := "https://www.youtube.com/watch?v=test_id"

  /** Two caption fragments are joined with one space. */
  lemma HelloWorldTranscript()
    ensures JoinFragments(["Hello", "World"]) == "Hello World"
  {
    assert ["Hello", "World"][1..] == ["World"];
  }

  /** A successful fetch carries the metadata and the joined transcript. */
  lemma GetVideoInfoWithTranscript()
    ensures var r := GetVideoInfo(TestUrl, _ => Some(TestMetadata), _ => Some(["Hello", "World"]));
      && r.Some?
      && r.value.videoId == "test_id" && r.value.title == "Test Video"
      && r.value.transcript == "Hello World" && r.value.duration == 300
  {
    HelloWorldTranscript();
  }

  /** A failed transcript fetch leaves the transcript empty, not the record missing. */
  lemma GetVideoInfoWithoutTranscript()
    ensures var r := GetVideoInfo(TestUrl, _ => Some(TestMetadata), _ => None);
      r.Some? && r.value.videoId == "test_id" && r.value.transcript == ""
  {
  }
}
