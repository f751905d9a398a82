/** Character-level helpers shared by the URL parser and the transcript joiner. */
module Strings {

  /** `p` is a prefix of `s`. */
  predicate HasPrefix(s: string, p: string) {
    |p| <= |s| && s[..|p|] == p
  }

  /** No character of `s` is one of `stops`. */
  predicate Avoids(s: string, stops: set<char>) {
    forall j :: 0 <= j < |s| ==> s[j] !in stops
  }

  /** The position of the first character of `s` that is one of `stops`,
      or `|s|` when there is none. */
  function IndexOfAny(s: string, stops: set<char>): (i: nat)
    ensures i <= |s|
    ensures forall j :: 0 <= j < i ==> s[j] !in stops
    ensures i < |s| ==> s[i] in stops
  {
    if |s| == 0 || s[0] in stops then 0 else 1 + IndexOfAny(s[1..], stops)
  }

  /** Scanning a stop-free prefix costs exactly its length. */
  lemma {:induction false} IndexOfAnyAfter(a: string, b: string, stops: set<char>)
    requires Avoids(a, stops)
    ensures IndexOfAny(a + b, stops) == |a| + IndexOfAny(b, stops)
  {
    if |a| > 0 {
      assert (a + b)[0] == a[0];
      assert (a + b)[1..] == a[1..] + b;
      IndexOfAnyAfter(a[1..], b, stops);
    } else {
      assert a + b == b;
    }
  }

  /** A stop-free text followed by a stop character ends exactly there. */
  lemma IndexOfAnyStopsAt(a: string, b: string, stops: set<char>)
    requires Avoids(a, stops)
    requires |b| > 0 && b[0] in stops
    ensures IndexOfAny(a + b, stops) == |a|
  {
    IndexOfAnyAfter(a, b, stops);
  }

  /** A stop-free text followed by a stop character, or by nothing, ends
      exactly there. */
  lemma IndexOfAnyStopsOrEnds(a: string, b: string, stops: set<char>)
    requires Avoids(a, stops)
    requires b == "" || b[0] in stops
    ensures IndexOfAny(a + b, stops) == |a|
  {
    IndexOfAnyAfter(a, b, stops);
  }

  /** A stop-free text is scanned to its end. */
  lemma IndexOfAnyWhole(a: string, stops: set<char>)
    requires Avoids(a, stops)
    ensures IndexOfAny(a, stops) == |a|
  {
    IndexOfAnyAfter(a, "", stops);
    assert a + "" == a;
  }

  /** Avoiding a character set is preserved by concatenation. */
  lemma AvoidsConcat(a: string, b: string, stops: set<char>)
    requires Avoids(a, stops) && Avoids(b, stops)
    ensures Avoids(a + b, stops)
  {
    forall j | 0 <= j < |a + b|
      ensures (a + b)[j] !in stops
    {
      if j >= |a| {
        assert (a + b)[j] == b[j - |a|];
      }
    }
  }
}
