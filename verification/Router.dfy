/** Longest-prefix routing (src/router.rs) and the path rewriting that follows it (src/proxy.rs). */
module Router {
  import opened Prelude

  /** The position of the route that `max_by_key` returns among those whose prefix starts the path: the
      longest prefix, and of equally long ones the last. */
  function MatchRoute(prefixes: seq<string>, path: string): Option<nat> {
    if prefixes == [] then None
    else
      var last := |prefixes| - 1;
      var best := MatchRoute(prefixes[..last], path);
      if prefixes[last] <= path && (best.None? || best.value >= last || |prefixes[best.value]| <= |prefixes[last]|)
      then Some(last) else best
  }

  /** The path sent upstream: the prefix is cut off, and nothing becomes "/". */
  function FinalPath(prefix: string, original: string): string {
    var stripped := if prefix <= original then original[|prefix|..] else original;
    if stripped == "" then "/" else stripped
  }

  /** A route is found exactly when some prefix starts the path; it is then the longest such prefix, and
      later routes with the same prefix shadow earlier ones. */
  lemma {:induction false} LongestPrefixWins(prefixes: seq<string>, path: string)
    ensures MatchRoute(prefixes, path).None? <==> forall i | 0 <= i < |prefixes| :: !(prefixes[i] <= path)
    ensures MatchRoute(prefixes, path).Some? ==>
              var k := MatchRoute(prefixes, path).value;
              && k < |prefixes| && prefixes[k] <= path
              && forall i | 0 <= i < |prefixes| && prefixes[i] <= path ::
                   |prefixes[i]| < |prefixes[k]| || (prefixes[i] == prefixes[k] && i <= k)
  {
    if prefixes != [] {
      var last := |prefixes| - 1;
      var rest := prefixes[..last];
      LongestPrefixWins(rest, path);
      assert forall i | 0 <= i < last :: rest[i] == prefixes[i];
      assert forall i | 0 <= i < |prefixes| && prefixes[i] <= path :: prefixes[i] == path[..|prefixes[i]|];
    }
  }

  /** Whether stripping succeeds, and what it leaves. It succeeds exactly when the prefix starts the path and query;
      prefix and forwarded path then compose to them, unless nothing is left and "/" stands in. Otherwise the path
      and query are forwarded whole. */
  lemma PathRecomposes(prefixes: seq<string>, path: string, original: string)
    requires MatchRoute(prefixes, path).Some?
    ensures MatchRoute(prefixes, path).value < |prefixes|
    ensures var prefix := prefixes[MatchRoute(prefixes, path).value];
            if prefix == original then FinalPath(prefix, original) == "/"
            else if prefix <= original then prefix + FinalPath(prefix, original) == original
            else FinalPath(prefix, original) == if original == "" then "/" else original
    ensures path <= original ==> prefixes[MatchRoute(prefixes, path).value] <= original
  {
    LongestPrefixWins(prefixes, path);
    var prefix := prefixes[MatchRoute(prefixes, path).value];
    if prefix <= original {
      assert prefix + original[|prefix|..] == original;
    }
    if path <= original {
      assert prefix == path[..|prefix|] == original[..|prefix|];
    }
  }

  /** The path of a request: what comes before the query, or "/" when nothing does. */
  function PathOf(original: string): string {
    var i := QueryAt(original);
    if i == 0 then "/" else original[..i]
  }

  /** Where the query begins. */
  function QueryAt(original: string): (i: nat)
    ensures i <= |original| && (i < |original| ==> original[i] == '?') && '?' !in original[..i]
  {
    if original == "" then 0
    else if original[0] == '?' then 0
    else
      var i := QueryAt(original[1..]) + 1;
      assert original[..i] == [original[0]] + original[1..][..i - 1];
      i
  }

  /** Of a path and query, stripping fails exactly for one without a path that a route with prefix "/" takes, as that of
      "http://host?q": the query is then forwarded by itself. */
  lemma StrippingFailsIff(prefixes: seq<string>, original: string)
    requires MatchRoute(prefixes, PathOf(original)).Some?
    ensures MatchRoute(prefixes, PathOf(original)).value < |prefixes|
    ensures var prefix := prefixes[MatchRoute(prefixes, PathOf(original)).value];
            !(prefix <= original) <==> QueryAt(original) == 0 && prefix == "/"
  {
    LongestPrefixWins(prefixes, PathOf(original));
    var prefix := prefixes[MatchRoute(prefixes, PathOf(original)).value];
    if QueryAt(original) > 0 {
      assert prefix == PathOf(original)[..|prefix|] == original[..|prefix|];
    } else {
      assert |prefix| <= 1;
      assert |prefix| == 1 ==> prefix == "/" by { assert |prefix| == 1 ==> prefix[0] == PathOf(original)[0]; }
      assert original != "" ==> original[0] == '?';
    }
  }

  /** It does happen: whatever the query, a route with prefix "/" takes it and forwards it whole. */
  lemma QueryAlone(query: string)
    ensures MatchRoute(["/"], PathOf("?" + query)) == Some(0)
    ensures FinalPath("/", "?" + query) == "?" + query
  {
    assert ["/"][..0] == [];
    assert ("?" + query)[0] == '?';
  }
}
