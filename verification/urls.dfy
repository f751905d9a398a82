/** Splitting a URL into host, path and query string, and reading one
    parameter out of a query string. */
module Urls {
  import opened Wrappers
  import opened Strings

  /** The parts of a URL the classifier looks at. The scheme is dropped,
      `query` excludes the leading '?' and any '#' fragment. */
  datatype Url = Url(host: string, path: string, query: string)

  const HostEnd: set<char> := {'/', '?', '#'}
  const PathEnd: set<char> := {'?', '#'}
  const QueryEnd: set<char> := {'#'}

  /** The text after an `https://` or `http://` scheme, or the whole text. */
  function StripScheme(url: string): (rest: string)
    ensures |rest| <= |url| && rest == url[|url| - |rest|..]
  {
    if HasPrefix(url, "https://") then url[8..]
    else if HasPrefix(url, "http://") then url[7..]
    else url
  }

  /** A URL value that `Render` writes out and `ParseUrl` reads back unchanged. */
  predicate WellFormed(u: Url) {
    && Avoids(u.host, HostEnd)
    && Avoids(u.path, PathEnd)
    && (u.path == "" || u.path[0] == '/')
    && Avoids(u.query, QueryEnd)
  }

  function ParseUrl(url: string): (u: Url)
    ensures WellFormed(u)
  {
    ParseAfterScheme(StripScheme(url))
  }

  /** Host, path and query of the text that follows the scheme. */
  function ParseAfterScheme(rest: string): (u: Url)
    ensures WellFormed(u)
  {
    var h := IndexOfAny(rest, HostEnd);
    var pq := ParsePathQuery(rest[h..]);
    Url(rest[..h], pq.0, pq.1)
  }

  /** Path and query of the text that follows the host; the text starts
      with '/', '?', '#' or is empty. */
  function ParsePathQuery(tail: string): (pq: (string, string))
    requires tail == "" || tail[0] in HostEnd
    ensures Avoids(pq.0, PathEnd) && (pq.0 == "" || pq.0[0] == '/')
    ensures Avoids(pq.1, QueryEnd)
  {
    var q := IndexOfAny(tail, PathEnd);
    var query :=
      if q < |tail| && tail[q] == '?' then
        var s := tail[q + 1..];
        s[..IndexOfAny(s, QueryEnd)]
      else "";
    (tail[..q], query)
  }

  /** The `https://` form of a URL value; an empty query is written without '?'. */
  function Render(u: Url): string {
    "https://" + u.host + u.path + QuerySuffix(u.query)
  }

  function QuerySuffix(query: string): string {
    if query == "" then "" else "?" + query
  }

  /** The path-and-query part of a rendered URL parses back to its parts. */
  lemma ParsePathQueryRender(path: string, query: string)
    requires Avoids(path, PathEnd) && (path == "" || path[0] == '/')
    requires Avoids(query, QueryEnd)
    ensures var tail := path + QuerySuffix(query);
      (tail == "" || tail[0] in HostEnd) && ParsePathQuery(tail) == (path, query)
  {
    var qs := QuerySuffix(query);
    var tail := path + qs;
    IndexOfAnyAfter(path, qs, PathEnd);
    if query == "" {
      assert tail == path;
    } else {
      assert IndexOfAny(qs, PathEnd) == 0;
      assert tail[..|path|] == path;
      assert tail[|path|] == '?';
      assert tail[|path| + 1..] == query;
      assert tail[0] in HostEnd by {
        if path == "" { assert tail[0] == '?'; }
      }
      IndexOfAnyWhole(query, QueryEnd);
      assert query[..|query|] == query;
      assert ParsePathQuery(tail).1 == query;
    }
  }

  lemma StripHttps(rest: string)
    ensures StripScheme("https://" + rest) == rest
  {
    var url := "https://" + rest;
    assert url[..8] == "https://";
    assert url[8..] == rest;
  }

  /** Parsing a rendered URL gives back its parts. */
  lemma ParseRender(u: Url)
    requires WellFormed(u)
    ensures ParseUrl(Render(u)) == u
  {
    var tail := u.path + QuerySuffix(u.query);
    var rest := u.host + tail;
    assert Render(u) == "https://" + rest;
    StripHttps(rest);
    ParsePathQueryRender(u.path, u.query);
    IndexOfAnyStopsOrEnds(u.host, tail, HostEnd);
    assert rest[..|u.host|] == u.host;
    assert rest[|u.host|..] == tail;
  }

  /** One `key=value` field of a query string. */
  datatype Param = Param(key: string, value: string)

  predicate WellFormedParam(p: Param) {
    Avoids(p.key, {'&', '=', '#'}) && Avoids(p.value, {'&', '#'})
  }

  predicate WellFormedParams(ps: seq<Param>) {
    forall i :: 0 <= i < |ps| ==> WellFormedParam(ps[i])
  }

  function Field(p: Param): string {
    p.key + "=" + p.value
  }

  /** The query string `k1=v1&k2=v2&...`. */
  function RenderQuery(ps: seq<Param>): string {
    if |ps| == 0 then ""
    else if |ps| == 1 then Field(ps[0])
    else Field(ps[0]) + "&" + RenderQuery(ps[1..])
  }

  /** The value of the first parameter named `key`: the reference reading
      of a parameter list. */
  function Lookup(ps: seq<Param>, key: string): Option<string> {
    if |ps| == 0 then None
    else if ps[0].key == key then Some(ps[0].value)
    else Lookup(ps[1..], key)
  }

  /** The value of the first `&`-separated field of `query` whose name is
      `key`; a field without '=' has no value and is passed over. */
  function QueryParam(query: string, key: string): (r: Option<string>)
    ensures r.Some? ==> Avoids(r.value, {'&'})
    decreases |query|
  {
    var amp := IndexOfAny(query, {'&'});
    var field := query[..amp];
    var eq := IndexOfAny(field, {'='});
    if eq < |field| && field[..eq] == key then Some(field[eq + 1..])
    else if amp < |query| then QueryParam(query[amp + 1..], key)
    else None
  }

  /** Reading a rendered parameter list finds the first parameter of that name. */
  lemma {:induction false} QueryParamRenderQuery(ps: seq<Param>, key: string)
    requires WellFormedParams(ps)
    ensures QueryParam(RenderQuery(ps), key) == Lookup(ps, key)
  {
    if |ps| > 0 {
      var p := ps[0];
      var f := Field(p);
      assert WellFormedParam(p);
      assert Avoids(p.key + "=", {'&'});
      AvoidsConcat(p.key + "=", p.value, {'&'});
      IndexOfAnyStopsAt(p.key, "=" + p.value, {'='});
      assert f == p.key + ("=" + p.value);
      assert f[..|p.key|] == p.key;
      assert f[|p.key| + 1..] == p.value;
      if |ps| == 1 {
        IndexOfAnyWhole(f, {'&'});
        assert RenderQuery(ps) == f;
        assert f[..|f|] == f;
        if p.key == key {
          assert QueryParam(f, key) == Some(p.value);
        } else {
          assert QueryParam(f, key) == None;
        }
      } else {
        var rest := RenderQuery(ps[1..]);
        assert RenderQuery(ps) == f + ("&" + rest);
        IndexOfAnyStopsAt(f, "&" + rest, {'&'});
        assert (f + ("&" + rest))[..|f|] == f;
        assert (f + ("&" + rest))[|f| + 1..] == rest;
        assert WellFormedParams(ps[1..]) by {
          forall i | 0 <= i < |ps[1..]| ensures WellFormedParam(ps[1..][i]) {
            assert ps[1..][i] == ps[i + 1];
          }
        }
        QueryParamRenderQuery(ps[1..], key);
      }
    }
  }

  /** A query string built from well-formed parameters contains no '#'. */
  lemma {:induction false} RenderQueryAvoidsFragment(ps: seq<Param>)
    requires WellFormedParams(ps)
    ensures Avoids(RenderQuery(ps), QueryEnd)
  {
    if |ps| > 0 {
      var p := ps[0];
      assert WellFormedParam(p);
      AvoidsConcat(p.key, "=", QueryEnd);
      AvoidsConcat(p.key + "=", p.value, QueryEnd);
      if |ps| > 1 {
        assert WellFormedParams(ps[1..]) by {
          forall i | 0 <= i < |ps[1..]| ensures WellFormedParam(ps[1..][i]) {
            assert ps[1..][i] == ps[i + 1];
          }
        }
        RenderQueryAvoidsFragment(ps[1..]);
        AvoidsConcat(Field(p), "&", QueryEnd);
        AvoidsConcat(Field(p) + "&", RenderQuery(ps[1..]), QueryEnd);
        assert RenderQuery(ps) == Field(p) + "&" + RenderQuery(ps[1..]);
      }
    }
  }
}
