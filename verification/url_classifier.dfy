/** The URL classifier: which video a URL names, and which of the five
    kinds of URL it is. */
module UrlClassifier {
  import opened Wrappers
  import opened Strings
  import opened Urls

  /** The five kinds `detect_url_type` reports. */
  datatype UrlKind = Video | Playlist | ChannelVideos | ChannelPlaylists | Unknown

  /** The name under which a kind is reported. */
  function KindName(k: UrlKind): (name: string)
    ensures KindOfName(name) == Some(k)
  {
    match k
    case Video => "video"
    case Playlist => "playlist"
    case ChannelVideos => "channel_videos"
    case ChannelPlaylists => "channel_playlists"
    case Unknown => "unknown"
  }

  /** The kind reported under `name`, if any. */
  function KindOfName(name: string): Option<UrlKind> {
    if name == "video" then Some(Video)
    else if name == "playlist" then Some(Playlist)
    else if name == "channel_videos" then Some(ChannelVideos)
    else if name == "channel_playlists" then Some(ChannelPlaylists)
    else if name == "unknown" then Some(Unknown)
    else None
  }

  /** Different kinds are reported under different names. */
  lemma KindNameInjective(a: UrlKind, b: UrlKind)
    ensures KindName(a) == KindName(b) <==> a == b
  {
    if KindName(a) == KindName(b) {
      assert KindOfName(KindName(a)) == KindOfName(KindName(b));
    }
  }

  // ---------------------------------------------------------------------------
  // Hosts and video IDs

  const ShortHost := "youtu.be"
  /** The full site, bare, with `www.` and on the mobile `m.` host. */
  const MainHosts: set<string> := {"youtube.com", "www.youtube.com", "m.youtube.com"}

  predicate IsYouTubeHost(host: string) {
    host in MainHosts || host == ShortHost
  }

  predicate IsIdChar(c: char) {
    ('a' <= c <= 'z') || ('A' <= c <= 'Z') || ('0' <= c <= '9') || c == '_' || c == '-'
  }

  /** A video ID: a non-empty run of letters, digits, '_' and '-'. */
  predicate IsVideoId(s: string) {
    |s| > 0 && forall i :: 0 <= i < |s| ==> IsIdChar(s[i])
  }

  /** The longest prefix of `s` made of ID characters. */
  function IdPrefix(s: string): (p: string)
    ensures HasPrefix(s, p)
    ensures forall i :: 0 <= i < |p| ==> IsIdChar(p[i])
    ensures |p| < |s| ==> !IsIdChar(s[|p|])
  {
    if |s| == 0 || !IsIdChar(s[0]) then "" else [s[0]] + IdPrefix(s[1..])
  }

  /** The video ID that starts `s`, if one does. */
  function IdAt(s: string): (r: Option<string>)
    ensures r.Some? ==> IsVideoId(r.value) && HasPrefix(s, r.value)
    ensures r.None? ==> s == "" || !IsIdChar(s[0])
  {
    var p := IdPrefix(s);
    if |p| == 0 then None else Some(p)
  }

  /** An ID followed by a non-ID character (or nothing) is read back whole. */
  lemma IdAtDelimited(id: string, rest: string)
    requires IsVideoId(id)
    requires rest == "" || !IsIdChar(rest[0])
    ensures IdAt(id + rest) == Some(id)
  {
    var s := id + rest;
    var p := IdPrefix(s);
    assert forall i :: 0 <= i < |id| ==> s[i] == id[i];
    assert |p| <= |id| by {
      if rest != "" { assert s[|id|] == rest[0]; }
    }
    assert |p| == |id|;
    assert p == (id + rest)[..|id|] == id;
  }

  /** An ID on its own is read back whole. */
  lemma IdAtWhole(id: string)
    requires IsVideoId(id)
    ensures IdAt(id) == Some(id)
  {
    IdAtDelimited(id, "");
    assert id + "" == id;
  }

  /** No ID character is a URL delimiter. */
  lemma VideoIdAvoidsDelimiters(id: string)
    requires IsVideoId(id)
    ensures Avoids(id, {'/', '?', '#', '&', '='})
  {
  }

  // ---------------------------------------------------------------------------
  // extract_video_id and detect_url_type

  /** The ID of the video a URL names: `v=` on a watch page (other query
      parameters do not matter), `youtu.be/<id>`, or `/embed/<id>`, on the
      main, `www.` or mobile host. None for every other URL. */
  function ExtractVideoId(url: string): (r: Option<string>)
    ensures r.Some? ==> IsVideoId(r.value)
    ensures r.Some? ==> IsYouTubeHost(ParseUrl(url).host)
  {
    VideoIdOf(ParseUrl(url))
  }

  function VideoIdOf(u: Url): (r: Option<string>)
    ensures r.Some? ==> IsVideoId(r.value) && IsYouTubeHost(u.host)
  {
    if u.host == ShortHost then ShortLinkId(u.path)
    else if u.host in MainHosts then PageVideoId(u.path, u.query)
    else None
  }

  /** The ID in the path of a `youtu.be` link. */
  function ShortLinkId(path: string): (r: Option<string>)
    ensures r.Some? ==> IsVideoId(r.value)
  {
    if HasPrefix(path, "/") then IdAt(path[1..]) else None
  }

  /** The ID a page of the main site names: `v` of a watch page, or the
      segment after `/embed/`. */
  function PageVideoId(path: string, query: string): (r: Option<string>)
    ensures r.Some? ==> IsVideoId(r.value)
  {
    if path == "/watch" then
      match QueryParam(query, "v")
      case Some(v) => IdAt(v)
      case None => None
    else if HasPrefix(path, "/embed/") then IdAt(path[7..])
    else None
  }

  /** The playlist a URL names by a non-empty `list` parameter on a YouTube host. */
  function PlaylistId(url: string): (r: Option<string>)
    ensures r.Some? ==> |r.value| > 0 && IsYouTubeHost(ParseUrl(url).host)
  {
    PlaylistOf(ParseUrl(url))
  }

  function PlaylistOf(u: Url): (r: Option<string>)
    ensures r.Some? ==> |r.value| > 0 && IsYouTubeHost(u.host)
  {
    if !IsYouTubeHost(u.host) then None
    else
      match QueryParam(u.query, "list")
      case Some(p) => if |p| > 0 then Some(p) else None
      case None => None
  }

  /** The text after a `/@` or `/c/` channel prefix of a path. */
  function ChannelRest(path: string): Option<string> {
    if HasPrefix(path, "/@") then Some(path[2..])
    else if HasPrefix(path, "/c/") then Some(path[3..])
    else None
  }

  /** For a channel page on a main host, the tab segment after the channel
      name ("" when there is none). */
  function ChannelTab(url: string): (r: Option<string>)
    ensures r.Some? ==> ParseUrl(url).host in MainHosts && Avoids(r.value, {'/'})
  {
    ChannelTabOf(ParseUrl(url))
  }

  function ChannelTabOf(u: Url): (r: Option<string>)
    ensures r.Some? ==> u.host in MainHosts && Avoids(r.value, {'/'})
  {
    if u.host !in MainHosts then None
    else
      match ChannelRest(u.path)
      case None => None
      case Some(rest) => TabAfterName(rest)
  }

  /** The segment after the first one of `rest`, "" when there is only one,
      and None when the first (the channel name) is empty. */
  function TabAfterName(rest: string): (r: Option<string>)
    ensures r.Some? ==> Avoids(r.value, {'/'})
  {
    var n := IndexOfAny(rest, {'/'});
    if n == 0 then None
    else if n == |rest| then Some("")
    else
      var after := rest[n + 1..];
      Some(after[..IndexOfAny(after, {'/'})])
  }

  /** The `playlists` tab lists playlists; any other tab, or none, means videos. */
  function ChannelKind(tab: string): (k: UrlKind)
    ensures k == ChannelPlaylists || k == ChannelVideos
    ensures k == ChannelPlaylists <==> tab == "playlists"
  {
    if tab == "playlists" then ChannelPlaylists else ChannelVideos
  }

  /** `detect_url_type`: a video ID wins over a playlist, a playlist over a
      channel page, and a URL that is none of these is Unknown. */
  function DetectUrlType(url: string): (k: UrlKind)
    ensures k == Video <==> ExtractVideoId(url).Some?
    ensures k == Playlist <==> ExtractVideoId(url).None? && PlaylistId(url).Some?
    ensures (k == ChannelVideos || k == ChannelPlaylists) <==>
              ExtractVideoId(url).None? && PlaylistId(url).None? && ChannelTab(url).Some?
    ensures k == ChannelPlaylists <==>
              ExtractVideoId(url).None? && PlaylistId(url).None? && ChannelTab(url) == Some("playlists")
    ensures k != Unknown ==> IsYouTubeHost(ParseUrl(url).host)
  {
    KindOf(ParseUrl(url))
  }

  function KindOf(u: Url): (k: UrlKind)
    ensures k == Video <==> VideoIdOf(u).Some?
    ensures k == Playlist <==> VideoIdOf(u).None? && PlaylistOf(u).Some?
    ensures (k == ChannelVideos || k == ChannelPlaylists) <==>
              VideoIdOf(u).None? && PlaylistOf(u).None? && ChannelTabOf(u).Some?
    ensures k == ChannelPlaylists <==>
              VideoIdOf(u).None? && PlaylistOf(u).None? && ChannelTabOf(u) == Some("playlists")
    ensures k != Unknown ==> IsYouTubeHost(u.host)
  {
    if VideoIdOf(u).Some? then Video
    else if PlaylistOf(u).Some? then Playlist
    else
      match ChannelTabOf(u)
      case Some(tab) => ChannelKind(tab)
      case None => Unknown
  }

  /** A URL on any other host names no video and is Unknown. */
  lemma NonYouTubeIsUnknown(url: string)
    requires !IsYouTubeHost(ParseUrl(url).host)
    ensures ExtractVideoId(url) == None
    ensures DetectUrlType(url) == Unknown
  {
  }

  /** A rendered URL on any other host is Unknown. */
  lemma OtherHostIsUnknown(u: Url)
    requires WellFormed(u) && !IsYouTubeHost(u.host)
    ensures DetectUrlType(Render(u)) == Unknown
  {
    ParseRender(u);
    NonYouTubeIsUnknown(Render(u));
  }

  // ---------------------------------------------------------------------------
  // The URL shapes the site uses, and what the classifier makes of them

  lemma MainHostsWellFormed(host: string)
    requires host in MainHosts
    ensures Avoids(host, HostEnd)
    ensures host != ShortHost
  {
  }

  /** `https://<host>/watch?v=<id>&<extra>`. */
  function WatchUrl(host: string, id: string, extra: seq<Param>): string {
    Render(Url(host, "/watch", RenderQuery([Param("v", id)] + extra)))
  }

  /** `https://youtu.be/<id>`. */
  function ShortUrl(id: string): string {
    Render(Url(ShortHost, "/" + id, ""))
  }

  /** `https://<host>/embed/<id>`. */
  function EmbedUrl(host: string, id: string): string {
    Render(Url(host, "/embed/" + id, ""))
  }

  /** `https://<host>/playlist?list=<list>`. */
  function PlaylistUrl(host: string, list: string): string {
    Render(Url(host, "/playlist", RenderQuery([Param("list", list)])))
  }

  datatype ChannelStyle = Handle | Custom

  function ChannelPath(style: ChannelStyle, name: string, tab: string): string {
    (match style case Handle => "/@" case Custom => "/c/")
    + name + (if tab == "" then "" else "/" + tab)
  }

  /** `https://<host>/@<name>[/<tab>]` or `https://<host>/c/<name>[/<tab>]`. */
  function ChannelUrl(host: string, style: ChannelStyle, name: string, tab: string): string {
    Render(Url(host, ChannelPath(style, name, tab), ""))
  }

  /** The ID of a watch URL is read back, whatever parameters follow `v=`. */
  lemma WatchUrlRoundTrip(host: string, id: string, extra: seq<Param>)
    requires host in MainHosts
    requires IsVideoId(id)
    requires WellFormedParams(extra)
    ensures ExtractVideoId(WatchUrl(host, id, extra)) == Some(id)
  {
    var ps := [Param("v", id)] + extra;
    VideoIdAvoidsDelimiters(id);
    assert WellFormedParams(ps) by {
      forall i | 0 <= i < |ps| ensures WellFormedParam(ps[i]) {
        if i > 0 { assert ps[i] == extra[i - 1]; }
      }
    }
    RenderQueryAvoidsFragment(ps);
    MainHostsWellFormed(host);
    var u := Url(host, "/watch", RenderQuery(ps));
    ParseRender(u);
    QueryParamRenderQuery(ps, "v");
    assert Lookup(ps, "v") == Some(id);
    IdAtWhole(id);
  }

  /** The ID of a short link is read back. */
  lemma ShortUrlRoundTrip(id: string)
    requires IsVideoId(id)
    ensures ExtractVideoId(ShortUrl(id)) == Some(id)
  {
    VideoIdAvoidsDelimiters(id);
    AvoidsConcat("/", id, PathEnd);
    ParseRender(Url(ShortHost, "/" + id, ""));
    assert ("/" + id)[1..] == id;
    IdAtWhole(id);
  }

  /** The ID of an embed URL is read back. */
  lemma EmbedUrlRoundTrip(host: string, id: string)
    requires host in MainHosts
    requires IsVideoId(id)
    ensures ExtractVideoId(EmbedUrl(host, id)) == Some(id)
  {
    VideoIdAvoidsDelimiters(id);
    AvoidsConcat("/embed/", id, PathEnd);
    MainHostsWellFormed(host);
    ParseRender(Url(host, "/embed/" + id, ""));
    assert HasPrefix("/embed/" + id, "/embed/");
    assert ("/embed/" + id)[7..] == id;
    IdAtWhole(id);
  }

  /** A watch URL is a video even when it also carries a `list` parameter. */
  lemma WatchWithListIsVideo(host: string, id: string, list: string, extra: seq<Param>)
    requires host in MainHosts
    requires IsVideoId(id)
    requires WellFormedParams([Param("list", list)] + extra)
    ensures DetectUrlType(WatchUrl(host, id, [Param("list", list)] + extra)) == Video
  {
    WatchUrlRoundTrip(host, id, [Param("list", list)] + extra);
  }

  /** A playlist page names no video and is a Playlist. */
  lemma PlaylistUrlIsPlaylist(host: string, list: string)
    requires host in MainHosts
    requires |list| > 0 && Avoids(list, {'&', '#'})
    ensures ExtractVideoId(PlaylistUrl(host, list)) == None
    ensures PlaylistId(PlaylistUrl(host, list)) == Some(list)
    ensures DetectUrlType(PlaylistUrl(host, list)) == Playlist
  {
    var ps := [Param("list", list)];
    assert WellFormedParams(ps);
    RenderQueryAvoidsFragment(ps);
    MainHostsWellFormed(host);
    var u := Url(host, "/playlist", RenderQuery(ps));
    ParseRender(u);
    assert ParseUrl(PlaylistUrl(host, list)) == u;
    PlaylistPage(host, ps, list);
  }

  lemma PlaylistPage(host: string, ps: seq<Param>, list: string)
    requires host in MainHosts
    requires ps == [Param("list", list)] && |list| > 0 && WellFormedParams(ps)
    ensures VideoIdOf(Url(host, "/playlist", RenderQuery(ps))) == None
    ensures PlaylistOf(Url(host, "/playlist", RenderQuery(ps))) == Some(list)
  {
    MainHostsWellFormed(host);
    QueryParamRenderQuery(ps, "list");
    assert !HasPrefix("/playlist", "/embed/") by { assert "/playlist"[1] == 'p'; }
    assert PageVideoId("/playlist", RenderQuery(ps)) == None;
  }

  /** The tab of `<name>[/<tab>]` is read back. */
  lemma TabAfterNameRoundTrip(name: string, tab: string)
    requires |name| > 0 && Avoids(name, {'/'})
    requires Avoids(tab, {'/'})
    ensures TabAfterName(name + (if tab == "" then "" else "/" + tab)) == Some(tab)
  {
    var rest := name + (if tab == "" then "" else "/" + tab);
    if tab == "" {
      assert rest == name;
      IndexOfAnyWhole(name, {'/'});
    } else {
      IndexOfAnyStopsAt(name, "/" + tab, {'/'});
      assert rest[|name| + 1..] == tab;
      IndexOfAnyWhole(tab, {'/'});
      assert tab[..|tab|] == tab;
    }
  }

  /** A channel page is classified by its tab; no tab means videos. */
  lemma ChannelUrlClassified(host: string, style: ChannelStyle, name: string, tab: string)
    requires host in MainHosts
    requires |name| > 0 && Avoids(name, {'/', '?', '#'})
    requires Avoids(tab, {'/', '?', '#'})
    ensures ChannelTab(ChannelUrl(host, style, name, tab)) == Some(tab)
    ensures DetectUrlType(ChannelUrl(host, style, name, tab)) == ChannelKind(tab)
  {
    var path := ChannelPath(style, name, tab);
    ChannelPathWellFormed(style, name, tab);
    MainHostsWellFormed(host);
    var u := Url(host, path, "");
    ParseRender(u);
    assert ParseUrl(ChannelUrl(host, style, name, tab)) == u;
    ChannelPage(host, style, name, tab);
  }

  lemma ChannelPathWellFormed(style: ChannelStyle, name: string, tab: string)
    requires Avoids(name, {'/', '?', '#'}) && Avoids(tab, {'/', '?', '#'})
    ensures Avoids(ChannelPath(style, name, tab), PathEnd)
    ensures ChannelPath(style, name, tab)[0] == '/'
  {
    var prefix := match style case Handle => "/@" case Custom => "/c/";
    var suffix := if tab == "" then "" else "/" + tab;
    assert ChannelPath(style, name, tab) == prefix + (name + suffix);
    assert Avoids(name + suffix, PathEnd) by {
      if tab != "" { AvoidsConcat("/", tab, PathEnd); }
      AvoidsConcat(name, suffix, PathEnd);
    }
    AvoidsConcat(prefix, name + suffix, PathEnd);
  }

  lemma ChannelPage(host: string, style: ChannelStyle, name: string, tab: string)
    requires host in MainHosts
    requires |name| > 0 && Avoids(name, {'/', '?', '#'})
    requires Avoids(tab, {'/', '?', '#'})
    ensures var u := Url(host, ChannelPath(style, name, tab), "");
      VideoIdOf(u) == None && PlaylistOf(u) == None && ChannelTabOf(u) == Some(tab)
  {
    var prefix := match style case Handle => "/@" case Custom => "/c/";
    var suffix := if tab == "" then "" else "/" + tab;
    var path := ChannelPath(style, name, tab);
    assert path == prefix + (name + suffix);
    MainHostsWellFormed(host);
    assert ChannelRest(path) == Some(name + suffix) by {
      assert path[|prefix|..] == name + suffix;
      if style == Custom { assert path[1] == 'c'; }
    }
    TabAfterNameRoundTrip(name, tab);
    assert path != "/watch" by { assert path[1] != "/watch"[1]; }
    assert !HasPrefix(path, "/embed/") by { assert path[1] != "/embed/"[1]; }
    assert PageVideoId(path, "") == None;
  }
}
