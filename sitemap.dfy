/** Reading a sitemap the way both the crawler channel and the worker do:
    the `<loc>` texts that look like absolute URLs, and the one-level
    expansion of a list of such locs into page URLs. */
module Sitemap {
  import opened Web

  predicate IsHttp(u: string) { StartsWith(u, "http") }

  /** The heuristic both callers use to tell a nested sitemap from a page. */
  predicate IsXml(u: string) { EndsWith(u, ".xml") }

  /** `_parse_xml` and `parse_xml_for_locs`. */
  function ParseLocs(env: Env, xml: string): seq<string> {
    Filter(env.locs(xml), IsHttp)
  }

  /** The parsed locs are exactly the `<loc>` texts of the document that
      start with "http", as often as they occur there, in document order. */
  lemma ParseLocsSpec(env: Env, xml: string)
    ensures forall i :: 0 <= i < |ParseLocs(env, xml)| ==> IsHttp(ParseLocs(env, xml)[i])
    ensures IsSubseq(ParseLocs(env, xml), env.locs(xml))
    ensures forall u :: IsHttp(u) ==> multiset(ParseLocs(env, xml))[u] == multiset(env.locs(xml))[u]
  {
    FilterSpec(env.locs(xml), IsHttp);
  }

  /** The top-level locs of the sitemap at `url`, None when fetching it
      raises or returns an HTTP error status. */
  function RootLocs(env: Env, url: string): (r: Option<seq<string>>)
    ensures r.Some? <==> GetChecked(env.fetch, url).Some?
  {
    match GetChecked(env.fetch, url)
    case None => None
    case Some(xml) => Some(ParseLocs(env, xml))
  }

  /** What one top-level loc contributes to the page list: a `.xml` loc is
      fetched and replaced by the http locs of that document, taken as they
      are (None when that fetch fails); any other loc is itself a page. */
  function Expand(env: Env, u: string): Option<seq<string>> {
    if IsXml(u) then
      match GetChecked(env.fetch, u)
      case None => None
      case Some(xml) => Some(ParseLocs(env, xml))
    else
      Some([u])
  }

  /** The page list built from the top-level locs without any budget:
      every expansion, in order, a failed nested fetch contributing nothing. */
  function FlattenAll(env: Env, tops: seq<string>): seq<string>
    decreases |tops|
  {
    if tops == [] then [] else Expand(env, tops[0]).GetOr([]) + FlattenAll(env, tops[1..])
  }

  lemma {:induction false} FlattenAllAppend(env: Env, a: seq<string>, b: seq<string>)
    ensures FlattenAll(env, a + b) == FlattenAll(env, a) + FlattenAll(env, b)
    decreases |a|
  {
    if a == [] {
      assert a + b == b;
    } else {
      assert (a + b)[0] == a[0];
      assert (a + b)[1..] == a[1..] + b;
      FlattenAllAppend(env, a[1..], b);
    }
  }

  /** Expansion is one level deep: a URL is in the flattened list exactly when
      it is a successful expansion of some top-level loc. Nested locs are kept
      as they are, including those that end in `.xml` themselves. */
  lemma {:induction false} FlattenAllMembers(env: Env, tops: seq<string>, v: string)
    ensures v in FlattenAll(env, tops) <==>
      exists j :: 0 <= j < |tops| && Expand(env, tops[j]).Some? && v in Expand(env, tops[j]).value
    decreases |tops|
  {
    if tops != [] {
      FlattenAllMembers(env, tops[1..], v);
      if v in FlattenAll(env, tops[1..]) {
        var j :| 0 <= j < |tops[1..]| && Expand(env, tops[1..][j]).Some? && v in Expand(env, tops[1..][j]).value;
        assert tops[1..][j] == tops[j + 1];
      }
      if exists j :: 0 <= j < |tops| && Expand(env, tops[j]).Some? && v in Expand(env, tops[j]).value {
        var j :| 0 <= j < |tops| && Expand(env, tops[j]).Some? && v in Expand(env, tops[j]).value;
        if j > 0 {
          assert tops[1..][j - 1] == tops[j];
        }
      }
    }
  }

  /** Every URL of the page list starts with "http", since both the top-level
      and the nested locs went through ParseLocs. */
  lemma {:induction false} FlattenAllHttp(env: Env, tops: seq<string>)
    requires forall i :: 0 <= i < |tops| ==> IsHttp(tops[i])
    ensures forall i :: 0 <= i < |FlattenAll(env, tops)| ==> IsHttp(FlattenAll(env, tops)[i])
    decreases |tops|
  {
    if tops != [] {
      FlattenAllHttp(env, tops[1..]);
      var e := Expand(env, tops[0]).GetOr([]);
      if IsXml(tops[0]) && GetChecked(env.fetch, tops[0]).Some? {
        ParseLocsSpec(env, GetChecked(env.fetch, tops[0]).value);
      }
      assert forall i :: 0 <= i < |e| ==> IsHttp(e[i]);
      var f := FlattenAll(env, tops);
      forall i | 0 <= i < |f| ensures IsHttp(f[i]) {
        if i >= |e| {
          assert f[i] == FlattenAll(env, tops[1..])[i - |e|];
        }
      }
    }
  }
}
