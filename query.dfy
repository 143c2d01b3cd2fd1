/**
 * The part of the browser's URL handling the payment redirect relies on:
 * `window.location.search` and `URLSearchParams.get`, following the
 * application/x-www-form-urlencoded parsing rules of the WHATWG URL
 * standard (split on '&', skip empty pieces, split each piece at its first
 * '=', read '+' as a space).
 */
module Query {
  import opened Wrappers

  /** The longest prefix of `s` that does not contain `c`. */
  function TakeUntil(s: string, c: char): (r: string)
    ensures |r| <= |s| && r == s[..|r|] && c !in r
    ensures |r| < |s| ==> s[|r|] == c
  {
    if s == [] || s[0] == c then [] else [s[0]] + TakeUntil(s[1..], c)
  }

  /** What follows the first `c` in `s` (empty when there is none). */
  function DropThrough(s: string, c: char): (r: string)
    ensures c in s ==> |r| < |s|
  {
    if s == [] then [] else if s[0] == c then s[1..] else DropThrough(s[1..], c)
  }

  lemma {:induction false} TakeUntilPast(a: string, c: char, b: string)
    requires c !in a
    ensures TakeUntil(a + [c] + b, c) == a
    ensures DropThrough(a + [c] + b, c) == b
  {
    if a != [] {
      assert (a + [c] + b)[1..] == a[1..] + [c] + b;
      TakeUntilPast(a[1..], c, b);
    }
  }

  lemma {:induction false} TakeUntilAbsent(a: string, c: char)
    requires c !in a
    ensures TakeUntil(a, c) == a
  {
    if a != [] {
      TakeUntilAbsent(a[1..], c);
    }
  }

  /** `s.split(c)`: the pieces between occurrences of `c`, always at least one. */
  function Split(s: string, c: char): (r: seq<string>)
    ensures |r| >= 1
    decreases |s|
  {
    if c !in s then [s] else [TakeUntil(s, c)] + Split(DropThrough(s, c), c)
  }

  lemma SplitPast(a: string, c: char, b: string)
    requires c !in a
    ensures Split(a + [c] + b, c) == [a] + Split(b, c)
  {
    assert c in a + [c] + b by { assert (a + [c] + b)[|a|] == c; }
    TakeUntilPast(a, c, b);
  }

  /** The form-urlencoded reading of '+' as a space. */
  function PlusToSpace(s: string): (r: string)
    ensures |r| == |s|
    ensures '+' !in s ==> r == s
  {
    if s == [] then [] else [if s[0] == '+' then ' ' else s[0]] + PlusToSpace(s[1..])
  }

  /** One non-empty piece `name=value`; a piece without '=' has the empty value. */
  function ParsePair(piece: string): (string, string)
  {
    (PlusToSpace(TakeUntil(piece, '=')), PlusToSpace(DropThrough(piece, '=')))
  }

  function ParsePieces(pieces: seq<string>): (r: seq<(string, string)>)
    ensures |r| <= |pieces|
  {
    if pieces == [] then []
    else if pieces[0] == [] then ParsePieces(pieces[1..])
    else [ParsePair(pieces[0])] + ParsePieces(pieces[1..])
  }

  /** `new URLSearchParams(search)`: the name/value pairs in order of appearance. */
  function ParseSearch(search: string): seq<(string, string)>
  {
    var body := if search != [] && search[0] == '?' then search[1..] else search;
    ParsePieces(Split(body, '&'))
  }

  /** `params.get(name)`: the value of the first pair with that name, or null. */
  function Get(params: seq<(string, string)>, name: string): (r: Option<string>)
    ensures r.None? <==> forall i :: 0 <= i < |params| ==> params[i].0 != name
    ensures r.Some? ==>
              exists i :: 0 <= i < |params| && params[i] == (name, r.value) &&
                          forall j :: 0 <= j < i ==> params[j].0 != name
  {
    if params == [] then None
    else if params[0].0 == name then Some(params[0].1)
    else Get(params[1..], name)
  }

  /** `window.location.search` of `url`: "?" and the query, or "" when the query is empty. */
  function Search(url: string): (r: string)
    ensures r == [] || r[0] == '?'
  {
    var beforeFragment := TakeUntil(url, '#');
    var query := DropThrough(beforeFragment, '?');
    if '?' !in beforeFragment || query == [] then [] else "?" + query
  }

  /** The query string of `base?query`, for a base without '?' and no fragment anywhere. */
  lemma {:induction false} SearchOfQuery(base: string, query: string)
    requires '?' !in base && '#' !in base && '#' !in query && query != []
    ensures Search(base + "?" + query) == "?" + query
  {
    var url := base + "?" + query;
    assert url == base + ['?'] + query;
    assert '#' !in url;
    TakeUntilAbsent(url, '#');
    TakeUntilPast(base, '?', query);
    assert url[|base|] == '?';
  }

  /**
   * Characters that neither the browser's URL parser nor `URLSearchParams`
   * rewrites: ASCII letters and digits, '-', '_' and '.'.
   */
  predicate UrlSafeChar(c: char)
  {
    ('a' <= c <= 'z') || ('A' <= c <= 'Z') || ('0' <= c <= '9') || c == '-' || c == '_' || c == '.'
  }

  /** A value made of URL-safe characters only. */
  predicate PlainValue(v: string)
  {
    forall i :: 0 <= i < |v| ==> UrlSafeChar(v[i])
  }

  predicate PlainName(n: string)
  {
    PlainValue(n) && n != []
  }

  /** A plain value holds none of the characters the query syntax gives a meaning to. */
  lemma PlainExcludes(v: string)
    requires PlainValue(v)
    ensures '&' !in v && '+' !in v && '#' !in v && '=' !in v && '?' !in v && '%' !in v
  {
  }

  lemma ParsePairPlain(n: string, v: string)
    requires PlainName(n) && PlainValue(v)
    ensures ParsePair(n + "=" + v) == (n, v)
  {
    PlainExcludes(n);
    PlainExcludes(v);
    TakeUntilPast(n, '=', v);
  }

  /** A two-parameter query built by string concatenation parses back to its pairs. */
  lemma {:induction false} ParseTwoPairs(n1: string, v1: string, n2: string, v2: string)
    requires PlainName(n1) && PlainValue(v1) && PlainName(n2) && PlainValue(v2)
    ensures ParseSearch("?" + n1 + "=" + v1 + "&" + n2 + "=" + v2) == [(n1, v1), (n2, v2)]
  {
    var p1, p2 := n1 + "=" + v1, n2 + "=" + v2;
    var s := "?" + n1 + "=" + v1 + "&" + n2 + "=" + v2;
    PlainExcludes(n1); PlainExcludes(v1); PlainExcludes(n2); PlainExcludes(v2);
    assert s[1..] == p1 + ['&'] + p2;
    assert '&' !in p1;
    assert '&' !in p2;
    SplitPast(p1, '&', p2);
    assert Split(p1 + ['&'] + p2, '&') == [p1, p2];
    ParsePairPlain(n1, v1);
    ParsePairPlain(n2, v2);
    assert p1 != [] && p2 != [];
    assert ParsePieces([p1, p2]) == [ParsePair(p1)] + ParsePieces([p2]);
    assert ParsePieces([p2]) == [ParsePair(p2)] + ParsePieces([]);
  }
}
