/** Shared vocabulary of the crawler and the indexer: documents, HTTP
    responses, and the outside world, given as pure functions so that every
    property below holds whatever the network, the parsers and the hash do. */
module Web {

  datatype Option<+T> = None | Some(value: T) {
    /** The value, or `default` for None. */
    function GetOr(default: T): T {
      match this
      case Some(v) => v
      case None => default
    }
  }

  /** What an HTTP client hands back once a request completed: the status
      code and the decoded body text. */
  datatype Response = Response(status: int, body: string)

  /** The outside world.
      - `fetch`: one GET of a URL; None when the request raises (timeout,
        DNS failure, refused connection, malformed URL).
      - `locs`: the text of every `<loc>` element of an XML document, in
        document order, whether its parent is `<url>` or `<sitemap>`.
      - `extract`: the visible text of an HTML page once script, style,
        nav, header, footer, form and noscript elements are removed, lines
        separated by a newline and stripped.
      - `sha`: the hex SHA-256 digest of the UTF-8 encoding of a text. */
  datatype Env = Env(
    fetch: string -> Option<Response>,
    locs: string -> seq<string>,
    extract: string -> string,
    sha: string -> string)

  /** A document: its text and its string metadata. */
  datatype Doc = Doc(pageContent: string, metadata: map<string, string>)

  /** The document the crawler and the worker build for a page. */
  function PageDoc(text: string, url: string): Doc {
    Doc(text, map["source" := url])
  }

  /** The `source` metadata of a document, "" when it has none. */
  function SourceOf(d: Doc): string {
    if "source" in d.metadata then d.metadata["source"] else ""
  }

  function Sources(docs: seq<Doc>): (r: seq<string>)
    ensures |r| == |docs|
    ensures forall i :: 0 <= i < |docs| ==> r[i] == SourceOf(docs[i])
  {
    if docs == [] then [] else [SourceOf(docs[0])] + Sources(docs[1..])
  }

  function Min(a: int, b: int): int { if a <= b then a else b }
  function Max(a: int, b: int): int { if a >= b then a else b }

  /** Python's `str.startswith` and `str.endswith`. */
  predicate StartsWith(s: string, prefix: string) {
    |prefix| <= |s| && s[..|prefix|] == prefix
  }

  predicate EndsWith(s: string, suffix: string) {
    |suffix| <= |s| && s[|s| - |suffix|..] == suffix
  }

  /** Python's slice `s[:n]`: the first n elements, and for a negative n
      everything but the last -n. */
  function Prefix<T>(s: seq<T>, n: int): (r: seq<T>)
    ensures |r| <= |s| && r == s[..|r|]
    ensures n >= 0 ==> |r| == Min(n, |s|)
    ensures n < 0 ==> |r| == Max(|s| + n, 0)
  {
    if n >= 0 then s[..Min(n, |s|)] else s[..Max(|s| + n, 0)]
  }

  /** `a` is `b` with some elements left out, the rest in their order. */
  predicate IsSubseq<T(==)>(a: seq<T>, b: seq<T>)
    decreases |b|
  {
    a == [] || (b != [] && ((a[0] == b[0] && IsSubseq(a[1..], b[1..])) || IsSubseq(a, b[1..])))
  }

  lemma {:induction false} SubseqMembers<T>(a: seq<T>, b: seq<T>, x: T)
    requires IsSubseq(a, b)
    requires x in a
    ensures x in b
    decreases |b|
  {
    if b != [] {
      if a[0] == b[0] && IsSubseq(a[1..], b[1..]) {
        if x != a[0] {
          SubseqMembers(a[1..], b[1..], x);
        }
      } else {
        SubseqMembers(a, b[1..], x);
      }
    }
  }

  /** A list comprehension with a condition: the elements of `s` that
      satisfy `p`, in the order of `s`. */
  function Filter<T>(s: seq<T>, p: T -> bool): seq<T>
    decreases |s|
  {
    if s == [] then [] else if p(s[0]) then [s[0]] + Filter(s[1..], p) else Filter(s[1..], p)
  }

  /** The filter keeps exactly the elements that satisfy `p`, each as often
      as it occurs, and in their order. */
  lemma {:induction false} FilterSpec<T(!new)>(s: seq<T>, p: T -> bool)
    ensures forall i :: 0 <= i < |Filter(s, p)| ==> p(Filter(s, p)[i])
    ensures IsSubseq(Filter(s, p), s)
    ensures forall x :: p(x) ==> multiset(Filter(s, p))[x] == multiset(s)[x]
    decreases |s|
  {
    if s != [] {
      FilterSpec(s[1..], p);
      var rest := Filter(s[1..], p);
      assert s == [s[0]] + s[1..];
      if p(s[0]) {
        assert ([s[0]] + rest)[1..] == rest;
      }
    }
  }

  lemma {:induction false} FilterAll<T(!new)>(s: seq<T>, p: T -> bool)
    requires forall i :: 0 <= i < |s| ==> p(s[i])
    ensures Filter(s, p) == s
    decreases |s|
  {
    if s != [] {
      FilterAll(s[1..], p);
    }
  }

  /** Filtering a list one element longer adds that element when it passes. */
  lemma {:induction false} FilterSnoc<T>(s: seq<T>, x: T, p: T -> bool)
    ensures Filter(s + [x], p) == Filter(s, p) + (if p(x) then [x] else [])
    decreases |s|
  {
    if s == [] {
      assert [] + [x] == [x];
    } else {
      assert (s + [x])[0] == s[0];
      assert (s + [x])[1..] == s[1..] + [x];
      FilterSnoc(s[1..], x, p);
    }
  }

  /** `requests.get(url)` followed by `raise_for_status()`: the body when the
      request completed with a status outside 400..599, None when it raised or
      the status is an HTTP error. */
  function GetChecked(fetch: string -> Option<Response>, url: string): (r: Option<string>)
    ensures r.Some? <==> fetch(url).Some? && !(400 <= fetch(url).value.status < 600)
    ensures r.Some? ==> r.value == fetch(url).value.body
  {
    match fetch(url)
    case None => None
    case Some(resp) => if 400 <= resp.status < 600 then None else Some(resp.body)
  }
}
