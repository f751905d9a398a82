/** The output table and `process_single_video`, its resume-safe append:
    a video already in the table is neither fetched again nor stored twice. */
module RecordStore {
  import opened Wrappers
  import opened VideoInfo
  import UrlClassifier

  /** The rows of the output file, in file order. */
  type Table = seq<VideoRecord>

  /** The fetch collaborator: a URL to its record, or None when it fails. */
  type Fetcher = string -> Option<VideoRecord>

  /** The video IDs stored in the table. */
  function Ids(t: Table): (ids: set<string>)
    ensures forall i :: 0 <= i < |t| ==> t[i].videoId in ids
    ensures forall id :: id in ids ==> exists i :: 0 <= i < |t| && t[i].videoId == id
  {
    set i | 0 <= i < |t| :: t[i].videoId
  }

  /** The table's key invariant: no two rows share a video ID. */
  predicate UniqueIds(t: Table) {
    forall i, j :: 0 <= i < j < |t| ==> t[i].videoId != t[j].videoId
  }

  /** How many rows hold `id`. */
  function CountId(t: Table, id: string): nat {
    if |t| == 0 then 0
    else (if t[0].videoId == id then 1 else 0) + CountId(t[1..], id)
  }

  /** In a table with unique IDs every stored ID has exactly one row and
      every other ID none. */
  lemma {:induction false} CountUnique(t: Table, id: string)
    requires UniqueIds(t)
    ensures CountId(t, id) == (if id in Ids(t) then 1 else 0)
  {
    if |t| > 0 {
      var tail := t[1..];
      assert UniqueIds(tail) by {
        forall i, j | 0 <= i < j < |tail| ensures tail[i].videoId != tail[j].videoId {
          assert tail[i] == t[i + 1] && tail[j] == t[j + 1];
        }
      }
      CountUnique(tail, id);
      assert Ids(t) == {t[0].videoId} + Ids(tail) by {
        forall x | x in Ids(t) ensures x in {t[0].videoId} + Ids(tail) {
          var i :| 0 <= i < |t| && t[i].videoId == x;
          if i > 0 { assert tail[i - 1] == t[i]; }
        }
        forall x | x in Ids(tail) ensures x in Ids(t) {
          var i :| 0 <= i < |tail| && tail[i].videoId == x;
          assert t[i + 1] == tail[i];
        }
      }
      if t[0].videoId == id {
        assert id !in Ids(tail);
      }
    }
  }

  /** Appending a row whose ID is not stored keeps the IDs unique. */
  lemma AppendFreshKeepsUnique(t: Table, r: VideoRecord)
    requires r.videoId !in Ids(t)
    ensures UniqueIds(t) ==> UniqueIds(t + [r])
    ensures Ids(t + [r]) == Ids(t) + {r.videoId}
  {
    var t' := t + [r];
    forall i, j | UniqueIds(t) && 0 <= i < j < |t'| ensures t'[i].videoId != t'[j].videoId {
      if j == |t| {
        assert t'[i] == t[i];
      } else {
        assert t'[i] == t[i] && t'[j] == t[j];
      }
    }
    assert Ids(t') == Ids(t) + {r.videoId} by {
      forall x | x in Ids(t') ensures x in Ids(t) + {r.videoId} {
        var i :| 0 <= i < |t'| && t'[i].videoId == x;
        if i < |t| { assert t'[i] == t[i]; }
      }
      forall x | x in Ids(t) ensures x in Ids(t') {
        var i :| 0 <= i < |t| && t[i].videoId == x;
        assert t'[i] == t[i];
      }
    }
  }

  // ---------------------------------------------------------------------------
  // process_single_video

  /** Whether the video was already stored, newly appended, or could not be
      fetched. */
  datatype Status = AlreadyStored | Appended | FetchFailed

  /** The table after one call, what happened, and whether the fetcher was
      consulted. */
  datatype Step = Step(rows: Table, status: Status, fetched: bool)

  /** The ID the URL names is already in the table. */
  predicate KnownVideo(url: string, rows: Table) {
    match UrlClassifier.ExtractVideoId(url)
    case Some(id) => id in Ids(rows)
    case None => false
  }

  /** `process_single_video`: when the URL names a stored video, return at
      once without fetching; otherwise fetch the record and append it, unless
      the fetch fails or the fetched ID is already stored. */
  function ProcessSingleVideo(url: string, rows: Table, fetch: Fetcher): (r: Step)
    ensures UniqueIds(rows) ==> UniqueIds(r.rows)
    ensures KnownVideo(url, rows) ==> r == Step(rows, AlreadyStored, false)
    ensures !KnownVideo(url, rows) ==> r.fetched
    ensures r.status == FetchFailed <==> r.fetched && fetch(url).None?
    ensures r.status == Appended <==>
              r.fetched && fetch(url).Some? && fetch(url).value.videoId !in Ids(rows)
    ensures r.status == Appended ==> r.rows == rows + [fetch(url).value]
    ensures r.status != Appended ==> r.rows == rows
  {
    if KnownVideo(url, rows) then Step(rows, AlreadyStored, false)
    else
      match fetch(url)
      case None => Step(rows, FetchFailed, true)
      case Some(rec) =>
        if rec.videoId in Ids(rows) then Step(rows, AlreadyStored, true)
        else
          AppendFreshKeepsUnique(rows, rec);
          Step(rows + [rec], Appended, true)
  }

  /** The fetcher answers for the video the URL names. */
  predicate FetchMatchesUrl(fetch: Fetcher, url: string) {
    && UrlClassifier.ExtractVideoId(url).Some?
    && (fetch(url).Some? ==> fetch(url).value.videoId == UrlClassifier.ExtractVideoId(url).value)
  }

  /** The store step without the check after the fetch: a URL naming a
      stored video is skipped, and any other URL is fetched and its record
      appended. It keeps IDs unique only when the fetcher answers for the
      video the URL names. */
  function PlainAppend(url: string, rows: Table, fetch: Fetcher): (r: Step)
    ensures KnownVideo(url, rows) ==> r == Step(rows, AlreadyStored, false)
    ensures !KnownVideo(url, rows) ==> r.fetched
    ensures r.status == FetchFailed <==> r.fetched && fetch(url).None?
    ensures r.status == Appended <==> r.fetched && fetch(url).Some?
    ensures r.status == Appended ==> r.rows == rows + [fetch(url).value]
    ensures r.status != Appended ==> r.rows == rows
    ensures UniqueIds(rows) && FetchMatchesUrl(fetch, url) ==> UniqueIds(r.rows)
  {
    if KnownVideo(url, rows) then Step(rows, AlreadyStored, false)
    else
      match fetch(url)
      case None => Step(rows, FetchFailed, true)
      case Some(rec) =>
        if rec.videoId in Ids(rows) then Step(rows + [rec], Appended, true)
        else
          AppendFreshKeepsUnique(rows, rec);
          Step(rows + [rec], Appended, true)
  }

  /** When the fetcher answers for the video the URL names, the guarded step
      and the plain append write the same table: the check after the fetch
      only matters for URLs whose ID cannot be read. */
  lemma ProcessSingleVideoAgreesWhenFetchMatches(url: string, rows: Table, fetch: Fetcher)
    requires FetchMatchesUrl(fetch, url)
    ensures ProcessSingleVideo(url, rows, fetch).rows == PlainAppend(url, rows, fetch).rows
    ensures ProcessSingleVideo(url, rows, fetch).fetched == PlainAppend(url, rows, fetch).fetched
  {
    if !KnownVideo(url, rows) && fetch(url).Some? {
      assert UrlClassifier.ExtractVideoId(url).value !in Ids(rows);
    }
  }

  /** After a call for `url` the table no longer changes for it: the URL
      names a stored video, its fetch fails, or the ID it fetches is stored. */
  predicate Absorbed(url: string, rows: Table, fetch: Fetcher) {
    || KnownVideo(url, rows)
    || fetch(url).None?
    || fetch(url).value.videoId in Ids(rows)
  }

  /** A call leaves its URL absorbed, and changes nothing for a URL that
      already is. */
  lemma StepAbsorbs(url: string, rows: Table, fetch: Fetcher)
    ensures Absorbed(url, ProcessSingleVideo(url, rows, fetch).rows, fetch)
    ensures Absorbed(url, rows, fetch) ==> ProcessSingleVideo(url, rows, fetch).rows == rows
  {
    var step := ProcessSingleVideo(url, rows, fetch);
    if step.status == Appended {
      assert step.rows[|rows|] == fetch(url).value;
    }
  }

  /** Processing the same URL twice: the second call changes nothing, for
      every URL and fetcher. When the URL names a video, the fetcher answers
      for it and the first call stored it, the second call does not fetch
      and the table holds exactly one row for it. */
  lemma ProcessTwice(url: string, rows: Table, fetch: Fetcher)
    ensures var first := ProcessSingleVideo(url, rows, fetch);
      var second := ProcessSingleVideo(url, first.rows, fetch);
      && second.rows == first.rows
      && (UniqueIds(rows) && FetchMatchesUrl(fetch, url) && first.status != FetchFailed ==>
            !second.fetched && CountId(second.rows, UrlClassifier.ExtractVideoId(url).value) == 1)
  {
    var first := ProcessSingleVideo(url, rows, fetch);
    StepAbsorbs(url, rows, fetch);
    StepAbsorbs(url, first.rows, fetch);
    if UniqueIds(rows) && FetchMatchesUrl(fetch, url) && first.status != FetchFailed {
      var id := UrlClassifier.ExtractVideoId(url).value;
      if first.status == Appended {
        assert id in Ids(first.rows) by {
          assert first.rows[|rows|] == fetch(url).value;
        }
      }
      assert id in Ids(first.rows);
      CountUnique(first.rows, id);
    }
  }

  // ---------------------------------------------------------------------------
  // A run over several URLs, one after the other

  /** The table after a run and how many fetches it made. */
  datatype Run = Run(rows: Table, fetches: nat)

  /** `process_single_video` applied to each URL in turn, as a playlist or
      channel run does for its videos. */
  function ProcessAll(urls: seq<string>, rows: Table, fetch: Fetcher): (r: Run)
    ensures r.fetches <= |urls|
    ensures |rows| <= |r.rows| && r.rows[..|rows|] == rows
    decreases |urls|
  {
    if |urls| == 0 then Run(rows, 0)
    else
      var step := ProcessSingleVideo(urls[0], rows, fetch);
      var rest := ProcessAll(urls[1..], step.rows, fetch);
      assert rest.rows[..|rows|] == rows by {
        assert rest.rows[..|step.rows|] == step.rows;
        assert step.rows[..|rows|] == rows;
      }
      Run(rest.rows, rest.fetches + (if step.fetched then 1 else 0))
  }

  /** A run keeps the table's IDs unique. */
  lemma {:induction false} ProcessAllKeepsUnique(urls: seq<string>, rows: Table, fetch: Fetcher)
    requires UniqueIds(rows)
    ensures UniqueIds(ProcessAll(urls, rows, fetch).rows)
    decreases |urls|
  {
    if |urls| > 0 {
      ProcessAllKeepsUnique(urls[1..], ProcessSingleVideo(urls[0], rows, fetch).rows, fetch);
    }
  }

  /** A run never drops a stored ID. */
  lemma ProcessAllKeepsIds(urls: seq<string>, rows: Table, fetch: Fetcher)
    ensures Ids(rows) <= Ids(ProcessAll(urls, rows, fetch).rows)
  {
    var out := ProcessAll(urls, rows, fetch).rows;
    forall x | x in Ids(rows) ensures x in Ids(out) {
      var i :| 0 <= i < |rows| && rows[i].videoId == x;
      assert out[i] == out[..|rows|][i] == rows[i];
    }
  }

  /** Every URL of the list is absorbed in the table. */
  predicate AllAbsorbed(urls: seq<string>, rows: Table, fetch: Fetcher) {
    forall k :: 0 <= k < |urls| ==> Absorbed(urls[k], rows, fetch)
  }

  /** After a run every URL of it is absorbed, whatever the fetcher does. */
  lemma {:induction false} ProcessAllAbsorbs(urls: seq<string>, rows: Table, fetch: Fetcher)
    ensures AllAbsorbed(urls, ProcessAll(urls, rows, fetch).rows, fetch)
    decreases |urls|
  {
    if |urls| > 0 {
      var step := ProcessSingleVideo(urls[0], rows, fetch);
      var out := ProcessAll(urls, rows, fetch).rows;
      assert out == ProcessAll(urls[1..], step.rows, fetch).rows;
      StepAbsorbs(urls[0], rows, fetch);
      ProcessAllAbsorbs(urls[1..], step.rows, fetch);
      ProcessAllKeepsIds(urls[1..], step.rows, fetch);
      assert Absorbed(urls[0], out, fetch);
      forall k | 0 <= k < |urls| ensures Absorbed(urls[k], out, fetch) {
        if k > 0 {
          assert urls[k] == urls[1..][k - 1];
        }
      }
    }
  }

  /** A run over URLs that are all absorbed leaves the table as it is. */
  lemma {:induction false} AbsorbedRunIsNoOp(urls: seq<string>, rows: Table, fetch: Fetcher)
    requires AllAbsorbed(urls, rows, fetch)
    ensures ProcessAll(urls, rows, fetch).rows == rows
    decreases |urls|
  {
    if |urls| > 0 {
      StepAbsorbs(urls[0], rows, fetch);
      assert AllAbsorbed(urls[1..], rows, fetch) by {
        forall k | 0 <= k < |urls[1..]| ensures Absorbed(urls[1..][k], rows, fetch) {
          assert urls[1..][k] == urls[k + 1];
        }
      }
      AbsorbedRunIsNoOp(urls[1..], rows, fetch);
    }
  }

  /** Every URL of a run has its ID stored afterwards, or its fetch failed. */
  predicate Settled(urls: seq<string>, rows: Table, fetch: Fetcher) {
    forall k :: 0 <= k < |urls| ==>
      KnownVideo(urls[k], rows) || fetch(urls[k]).None?
  }

  /** After a run, every URL whose fetch succeeds is stored. */
  lemma ProcessAllSettles(urls: seq<string>, rows: Table, fetch: Fetcher)
    requires forall k :: 0 <= k < |urls| ==> FetchMatchesUrl(fetch, urls[k])
    ensures Settled(urls, ProcessAll(urls, rows, fetch).rows, fetch)
  {
    var out := ProcessAll(urls, rows, fetch).rows;
    ProcessAllAbsorbs(urls, rows, fetch);
    forall k | 0 <= k < |urls| ensures KnownVideo(urls[k], out) || fetch(urls[k]).None? {
      assert Absorbed(urls[k], out, fetch);
      assert FetchMatchesUrl(fetch, urls[k]);
    }
  }

  /** A run over URLs that are all settled leaves the table as it is, and
      fetches only the URLs whose fetch fails. */
  lemma {:induction false} SettledRunIsNoOp(urls: seq<string>, rows: Table, fetch: Fetcher)
    requires Settled(urls, rows, fetch)
    ensures ProcessAll(urls, rows, fetch).rows == rows
    ensures (forall k :: 0 <= k < |urls| ==> fetch(urls[k]).Some?) ==>
              ProcessAll(urls, rows, fetch).fetches == 0
    decreases |urls|
  {
    if |urls| > 0 {
      var step := ProcessSingleVideo(urls[0], rows, fetch);
      assert KnownVideo(urls[0], rows) || fetch(urls[0]).None?;
      assert step.rows == rows;
      assert Settled(urls[1..], rows, fetch) by {
        forall k | 0 <= k < |urls[1..]|
          ensures KnownVideo(urls[1..][k], rows) || fetch(urls[1..][k]).None?
        {
          assert urls[1..][k] == urls[k + 1];
        }
      }
      SettledRunIsNoOp(urls[1..], rows, fetch);
      if forall k :: 0 <= k < |urls| ==> fetch(urls[k]).Some? {
        assert fetch(urls[0]).Some?;
        assert forall k :: 0 <= k < |urls[1..]| ==> fetch(urls[1..][k]).Some? by {
          forall k | 0 <= k < |urls[1..]| ensures fetch(urls[1..][k]).Some? {
            assert urls[1..][k] == urls[k + 1];
          }
        }
      }
    }
  }

  /** Resume: running the same URLs again after a run appends nothing, for
      every URL list and fetcher. When every URL names a video, the fetcher
      answers for it and every fetch succeeds, the rerun fetches nothing. */
  lemma RerunAppendsNothing(urls: seq<string>, rows: Table, fetch: Fetcher)
    ensures var first := ProcessAll(urls, rows, fetch);
      var second := ProcessAll(urls, first.rows, fetch);
      && second.rows == first.rows
      && ((forall k :: 0 <= k < |urls| ==> FetchMatchesUrl(fetch, urls[k]) && fetch(urls[k]).Some?) ==>
            second.fetches == 0)
  {
    var first := ProcessAll(urls, rows, fetch);
    ProcessAllAbsorbs(urls, rows, fetch);
    AbsorbedRunIsNoOp(urls, first.rows, fetch);
    if forall k :: 0 <= k < |urls| ==> FetchMatchesUrl(fetch, urls[k]) && fetch(urls[k]).Some? {
      ProcessAllSettles(urls, rows, fetch);
      SettledRunIsNoOp(urls, first.rows, fetch);
    }
  }
}
