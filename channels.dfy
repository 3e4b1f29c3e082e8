/** The sitemap channel: read the root sitemap, flatten it one level into a
    bounded list of page URLs, fetch every page and keep the pages that have
    visible text, as documents whose `source` is the page URL. */
module Channels {
  import opened Web
  import opened Sitemap

  const DefaultMaxPages := 500

  // --- The page list of load_documents ---

  /** The page list `load_documents` builds from the top-level locs, `acc`
      being what is already collected: each loc's expansion is appended, and
      the loop stops after the first loc whose expansion brings the list to
      `max` or more. A loc whose nested fetch fails skips the budget test. */
  function Collect(env: Env, tops: seq<string>, acc: seq<string>, max: int): seq<string>
    decreases |tops|
  {
    if tops == [] then acc
    else
      match Expand(env, tops[0])
      case None => Collect(env, tops[1..], acc, max)
      case Some(us) =>
        if |acc + us| >= max then acc + us else Collect(env, tops[1..], acc + us, max)
  }

  /** How many top-level locs that loop takes before it stops. */
  function Consumed(env: Env, tops: seq<string>, acc: seq<string>, max: int): nat
    decreases |tops|
  {
    if tops == [] then 0
    else
      match Expand(env, tops[0])
      case None => 1 + Consumed(env, tops[1..], acc, max)
      case Some(us) =>
        if |acc + us| >= max then 1 else 1 + Consumed(env, tops[1..], acc + us, max)
  }

  /** The budgeted loop computes the unbudgeted flattening of the locs it
      takes, in the same order; it stops early only once the list holds `max`
      URLs or more, and before every loc it takes the budget was not yet
      reached. */
  lemma {:induction false} CollectIsFlattenPrefix(env: Env, tops: seq<string>, acc: seq<string>, max: int)
    ensures Consumed(env, tops, acc, max) <= |tops|
    ensures Collect(env, tops, acc, max) == acc + FlattenAll(env, tops[..Consumed(env, tops, acc, max)])
    ensures Consumed(env, tops, acc, max) < |tops| ==> |Collect(env, tops, acc, max)| >= max
    ensures |acc| < max ==> forall j :: 0 <= j < Consumed(env, tops, acc, max) ==>
      |acc + FlattenAll(env, tops[..j])| < max
    decreases |tops|
  {
    if tops == [] {
      assert tops[..0] == [];
    } else {
      var e := Expand(env, tops[0]);
      var acc' := acc + e.GetOr([]);
      if e.Some? && |acc'| >= max {
        FlattenAllPrefixStep(env, tops, 1);
        assert tops[..0] == [];
      } else {
        assert e.None? ==> acc' == acc;
        CollectIsFlattenPrefix(env, tops[1..], acc', max);
        var c := Consumed(env, tops[1..], acc', max);
        assert Collect(env, tops, acc, max) == Collect(env, tops[1..], acc', max);
        assert Consumed(env, tops, acc, max) == 1 + c;
        FlattenAllPrefixStep(env, tops, 1 + c);
        if |acc| < max {
          forall j | 0 <= j < 1 + c ensures |acc + FlattenAll(env, tops[..j])| < max {
            if j == 0 {
              assert tops[..0] == [];
            } else {
              FlattenAllPrefixStep(env, tops, j);
            }
          }
        }
      }
    }
  }

  lemma FlattenAllPrefixStep(env: Env, tops: seq<string>, j: nat)
    requires 1 <= j <= |tops|
    ensures FlattenAll(env, tops[..j]) == Expand(env, tops[0]).GetOr([]) + FlattenAll(env, tops[1..][..j - 1])
  {
    assert tops[..j][0] == tops[0];
    assert tops[..j][1..] == tops[1..][..j - 1];
  }

  /** The list handed to the page fetch, `page_urls[:max_pages]`, is a prefix
      of the unbudgeted flattening, at most `max` long; when the flattening
      fits in the budget it is the whole flattening. */
  lemma PassedIsFlattenPrefix(env: Env, tops: seq<string>, max: int)
    requires max >= 0
    ensures var p := Prefix(Collect(env, tops, [], max), max);
      |p| <= max && p == FlattenAll(env, tops)[..Min(max, |FlattenAll(env, tops)|)]
    ensures |FlattenAll(env, tops)| <= max ==>
      Prefix(Collect(env, tops, [], max), max) == FlattenAll(env, tops)
  {
    CollectIsFlattenPrefix(env, tops, [], max);
    var k := Consumed(env, tops, [], max);
    assert tops == tops[..k] + tops[k..];
    FlattenAllAppend(env, tops[..k], tops[k..]);
    assert [] + FlattenAll(env, tops[..k]) == FlattenAll(env, tops[..k]);
  }

  // --- The page documents of _gather_pages ---

  /** What `_fetch` returns for a page: the body text whatever the status,
      None when the request raises. */
  function PageHtml(env: Env, u: string): Option<string> {
    match env.fetch(u)
    case None => None
    case Some(resp) => Some(resp.body)
  }

  /** The text `_gather_pages` would keep for a page, "" when it keeps none. */
  function PageText(env: Env, u: string): string {
    match PageHtml(env, u)
    case None => ""
    case Some(html) => if html == "" then "" else env.extract(html)
  }

  function HasText(env: Env): string -> bool {
    u => PageText(env, u) != ""
  }

  /** The documents of a list of pages without any budget: one per page with
      text, in page order. */
  function Kept(env: Env, urls: seq<string>): seq<Doc>
    decreases |urls|
  {
    if urls == [] then []
    else
      var text := PageText(env, urls[0]);
      (if text != "" then [PageDoc(text, urls[0])] else []) + Kept(env, urls[1..])
  }

  /** Each of those documents is the page document of its source, with
      non-empty text. */
  lemma {:induction false} KeptDocs(env: Env, urls: seq<string>)
    ensures |Kept(env, urls)| <= |urls|
    ensures forall i :: 0 <= i < |Kept(env, urls)| ==>
      var d := Kept(env, urls)[i]; d.pageContent != "" && d == PageDoc(PageText(env, SourceOf(d)), SourceOf(d))
    decreases |urls|
  {
    if urls != [] {
      KeptDocs(env, urls[1..]);
    }
  }

  /** The sources of those documents are exactly the pages with text, in
      page order: a page is dropped iff its fetch raised, returned an empty
      body, or its body has no visible text. */
  lemma {:induction false} KeptSources(env: Env, urls: seq<string>)
    ensures Sources(Kept(env, urls)) == Filter(urls, HasText(env))
    decreases |urls|
  {
    if urls != [] {
      KeptSources(env, urls[1..]);
      var text := PageText(env, urls[0]);
      var head := if text != "" then [PageDoc(text, urls[0])] else [];
      assert Kept(env, urls) == head + Kept(env, urls[1..]);
      assert Sources(head + Kept(env, urls[1..])) == Sources(head) + Sources(Kept(env, urls[1..]));
      assert HasText(env)(urls[0]) == (text != "");
    }
  }

  /** The post-fetch loop of `_gather_pages`: pages whose fetch gave nothing
      or an empty body are skipped (before the budget test), a page with text
      yields a document, and the loop stops once `max` documents or more are
      collected. */
  function Harvest(env: Env, urls: seq<string>, acc: seq<Doc>, max: int): seq<Doc>
    decreases |urls|
  {
    if urls == [] then acc
    else
      var html := PageHtml(env, urls[0]);
      if html.None? || html.value == "" then Harvest(env, urls[1..], acc, max)
      else
        var text := env.extract(html.value);
        var acc' := if text != "" then acc + [PageDoc(text, urls[0])] else acc;
        if |acc'| >= max then acc' else Harvest(env, urls[1..], acc', max)
  }

  /** Below the budget, the loop yields the first `max` of the unbudgeted
      documents, appended to what it already holds. */
  lemma {:induction false} HarvestIsBoundedKept(env: Env, urls: seq<string>, acc: seq<Doc>, max: int)
    requires |acc| < max
    ensures Harvest(env, urls, acc, max) == (acc + Kept(env, urls))[..Min(|acc| + |Kept(env, urls)|, max)]
    decreases |urls|
  {
    var all := acc + Kept(env, urls);
    if urls == [] {
      assert all == acc;
    } else {
      var html := PageHtml(env, urls[0]);
      var text := PageText(env, urls[0]);
      var head := if text != "" then [PageDoc(text, urls[0])] else [];
      assert Kept(env, urls) == head + Kept(env, urls[1..]);
      assert all == (acc + head) + Kept(env, urls[1..]);
      assert |all| == |acc + head| + |Kept(env, urls[1..])|;
      assert acc + head == (if text != "" then acc + [PageDoc(text, urls[0])] else acc);
      if html.None? || html.value == "" {
        assert head == [] && acc + head == acc;
        assert Harvest(env, urls, acc, max) == Harvest(env, urls[1..], acc, max);
        HarvestIsBoundedKept(env, urls[1..], acc, max);
      } else if |acc + head| >= max {
        assert text == env.extract(html.value);
        assert |acc + head| == max;
        assert Harvest(env, urls, acc, max) == acc + head;
        assert all[..max] == acc + head;
      } else {
        assert text == env.extract(html.value);
        assert Harvest(env, urls, acc, max) == Harvest(env, urls[1..], acc + head, max);
        HarvestIsBoundedKept(env, urls[1..], acc + head, max);
      }
    }
  }

  /** Whatever the budget, the loop yields a prefix of the unbudgeted
      documents, at most one beyond what it held once the budget is met. */
  lemma {:induction false} HarvestIsKeptPrefix(env: Env, urls: seq<string>, acc: seq<Doc>, max: int)
    ensures var h := Harvest(env, urls, acc, max);
      |acc| <= |h| <= |acc| + |Kept(env, urls)| && h == (acc + Kept(env, urls))[..|h|]
    ensures |acc| >= max ==> |Harvest(env, urls, acc, max)| <= |acc| + 1
    decreases |urls|
  {
    var all := acc + Kept(env, urls);
    if urls == [] {
      assert all == acc;
    } else {
      var html := PageHtml(env, urls[0]);
      var text := PageText(env, urls[0]);
      var head := if text != "" then [PageDoc(text, urls[0])] else [];
      assert Kept(env, urls) == head + Kept(env, urls[1..]);
      assert all == (acc + head) + Kept(env, urls[1..]);
      assert |all| == |acc + head| + |Kept(env, urls[1..])|;
      assert acc + head == (if text != "" then acc + [PageDoc(text, urls[0])] else acc);
      if html.None? || html.value == "" {
        assert head == [] && acc + head == acc;
        assert Harvest(env, urls, acc, max) == Harvest(env, urls[1..], acc, max);
        HarvestIsKeptPrefix(env, urls[1..], acc, max);
      } else if |acc + head| >= max {
        assert text == env.extract(html.value);
        assert Harvest(env, urls, acc, max) == acc + head;
        assert all[..|acc + head|] == acc + head;
      } else {
        assert text == env.extract(html.value);
        assert Harvest(env, urls, acc, max) == Harvest(env, urls[1..], acc + head, max);
        HarvestIsKeptPrefix(env, urls[1..], acc + head, max);
      }
    }
  }

  /** What `load_documents` returns: nothing when the root sitemap cannot be
      read, otherwise the documents of the first `max` URLs of the budgeted
      page list. */
  function ChannelDocs(env: Env, root: string, max: int): seq<Doc> {
    match RootLocs(env, root)
    case None => []
    case Some(tops) => Harvest(env, Prefix(Collect(env, tops, [], max), max), [], max)
  }

  /** When the whole flattened site fits in the budget, the channel returns a
      document for every page with text, in page order, and nothing else. */
  lemma ChannelWithinBudget(env: Env, root: string, max: int)
    requires RootLocs(env, root).Some?
    requires |FlattenAll(env, RootLocs(env, root).value)| <= max
    ensures ChannelDocs(env, root, max) == Kept(env, FlattenAll(env, RootLocs(env, root).value))
  {
    var tops := RootLocs(env, root).value;
    var all := FlattenAll(env, tops);
    PassedIsFlattenPrefix(env, tops, max);
    if max >= 1 {
      KeptDocs(env, all);
      HarvestIsBoundedKept(env, all, [], max);
      assert [] + Kept(env, all) == Kept(env, all);
    } else {
      assert all == [];
    }
  }

  /** A sitemap index listing two nested sitemaps of three pages each, every
      page having text, with a budget of 10: six documents, one per leaf page,
      in sitemap order. */
  lemma TwoNestedSitemaps(env: Env, root: string, s1: string, s2: string, pages: seq<string>)
    requires |pages| == 6
    requires RootLocs(env, root) == Some([s1, s2])
    requires IsXml(s1) && Expand(env, s1) == Some(pages[..3])
    requires IsXml(s2) && Expand(env, s2) == Some(pages[3..])
    requires forall i :: 0 <= i < 6 ==> PageText(env, pages[i]) != ""
    ensures var docs := ChannelDocs(env, root, 10);
      |docs| == 6 && forall i :: 0 <= i < 6 ==> docs[i] == PageDoc(PageText(env, pages[i]), pages[i])
  {
    var tops := [s1, s2];
    assert tops[1..] == [s2] && [s2][1..] == [];
    assert FlattenAll(env, [s2]) == pages[3..] + FlattenAll(env, []);
    assert FlattenAll(env, tops) == pages[..3] + FlattenAll(env, [s2]);
    assert FlattenAll(env, tops) == pages;
    ChannelWithinBudget(env, root, 10);
    KeptSources(env, pages);
    FilterAll(pages, HasText(env));
    var k := Kept(env, pages);
    KeptDocs(env, pages);
    assert Sources(k) == pages;
    assert |k| == 6;
    forall i | 0 <= i < 6 ensures k[i] == PageDoc(PageText(env, pages[i]), pages[i]) {
      assert SourceOf(k[i]) == Sources(k)[i];
    }
  }

  // --- The channel ---

  class SitemapChannel {
    const sitemapIndexUrl: string
    const maxPages: int

    constructor(sitemapIndexUrl: string, maxPages: int := DefaultMaxPages)
      ensures this.sitemapIndexUrl == sitemapIndexUrl && this.maxPages == maxPages
    {
      this.sitemapIndexUrl := sitemapIndexUrl;
      this.maxPages := maxPages;
    }

    /** `_gather_pages`: every URL is fetched (the fetches run concurrently and
        their results come back in URL order); then the documents are built
        in URL order until `maxPages` of them are collected. */
    method GatherPages(env: Env, urls: seq<string>) returns (docs: seq<Doc>)
      ensures docs == Harvest(env, urls, [], maxPages)
      ensures maxPages >= 1 ==> docs == Kept(env, urls)[..Min(|Kept(env, urls)|, maxPages)]
      ensures |docs| <= |urls| && (maxPages >= 1 ==> |docs| <= maxPages) && (maxPages < 1 ==> |docs| <= 1)
      ensures forall i :: 0 <= i < |docs| ==> docs[i].pageContent != "" && SourceOf(docs[i]) in urls
      ensures IsSubseq(Sources(docs), urls)
    {
      var results := seq(|urls|, i requires 0 <= i < |urls| => PageHtml(env, urls[i]));
      docs := [];
      var i := 0;
      while i < |urls|
        invariant 0 <= i <= |urls|
        invariant Harvest(env, urls[i..], docs, maxPages) == Harvest(env, urls, [], maxPages)
      {
        assert urls[i..][0] == urls[i] && urls[i..][1..] == urls[i + 1..];
        var html := results[i];
        if html.None? || html.value == "" {
          i := i + 1;
          continue;
        }
        var text := env.extract(html.value);
        if text != "" {
          docs := docs + [PageDoc(text, urls[i])];
        }
        if |docs| >= maxPages {
          break;
        }
        i := i + 1;
      }
      HarvestProperties(env, urls, maxPages);
    }

    /** The loop of `load_documents` that builds the page list from the
        top-level locs, stopping once the budget is reached. Besides the list
        it returns, for the record, the nested sitemaps it requested. */
    method CollectPageUrls(env: Env, urls: seq<string>) returns (pageUrls: seq<string>, ghost nested: seq<string>)
      ensures pageUrls == Collect(env, urls, [], maxPages)
      ensures Consumed(env, urls, [], maxPages) <= |urls|
      ensures nested == Filter(urls[..Consumed(env, urls, [], maxPages)], IsXml)
      ensures forall k :: 0 <= k < |nested| ==> IsXml(nested[k]) && nested[k] in urls
    {
      pageUrls := [];
      nested := [];
      var i := 0;
      CollectIsFlattenPrefix(env, urls, [], maxPages);
      while i < |urls|
        invariant 0 <= i <= |urls|
        invariant Collect(env, urls[i..], pageUrls, maxPages) == Collect(env, urls, [], maxPages)
        invariant Consumed(env, urls, [], maxPages) == i + Consumed(env, urls[i..], pageUrls, maxPages)
        invariant nested == Filter(urls[..i], IsXml)
      {
        assert urls[i..][0] == urls[i] && urls[i..][1..] == urls[i + 1..];
        assert urls[..i + 1] == urls[..i] + [urls[i]];
        FilterSnoc(urls[..i], urls[i], IsXml);
        ghost var acc := pageUrls;
        var u := urls[i];
        if IsXml(u) {
          nested := nested + [u];
          var r := GetChecked(env.fetch, u);
          if r.None? {
            assert Expand(env, u).None?;
            assert Consumed(env, urls[i..], acc, maxPages) == 1 + Consumed(env, urls[i + 1..], acc, maxPages);
            i := i + 1;
            continue;
          }
          assert Expand(env, u) == Some(ParseLocs(env, r.value));
          pageUrls := pageUrls + ParseLocs(env, r.value);
        } else {
          assert Expand(env, u) == Some([u]);
          pageUrls := pageUrls + [u];
        }
        if |pageUrls| >= maxPages {
          // `break`: nothing follows the loop.
          assert Consumed(env, urls[i..], acc, maxPages) == 1;
          FilteredLocsIn(urls, i + 1, IsXml);
          return;
        }
        assert Consumed(env, urls[i..], acc, maxPages) == 1 + Consumed(env, urls[i + 1..], pageUrls, maxPages);
        i := i + 1;
      }
      assert urls[i..] == [];
      FilteredLocsIn(urls, i, IsXml);
    }

    /** `load_documents`. Besides the documents it returns, for the record,
        the sitemaps it requested (the root first, then the nested ones) and
        the page URLs it handed to the page fetch. */
    method LoadDocuments(env: Env) returns (docs: seq<Doc>, ghost sitemapRequests: seq<string>, ghost pageRequests: seq<string>)
      ensures docs == ChannelDocs(env, sitemapIndexUrl, maxPages)
      ensures GetChecked(env.fetch, sitemapIndexUrl).None? ==>
        docs == [] && sitemapRequests == [sitemapIndexUrl] && pageRequests == []
      ensures |sitemapRequests| >= 1 && sitemapRequests[0] == sitemapIndexUrl
      ensures forall k :: 1 <= k < |sitemapRequests| ==>
        RootLocs(env, sitemapIndexUrl).Some? && IsXml(sitemapRequests[k]) && sitemapRequests[k] in RootLocs(env, sitemapIndexUrl).value
      ensures RootLocs(env, sitemapIndexUrl).Some? ==>
        var tops := RootLocs(env, sitemapIndexUrl).value;
        Consumed(env, tops, [], maxPages) <= |tops| &&
        sitemapRequests == [sitemapIndexUrl] + Filter(tops[..Consumed(env, tops, [], maxPages)], IsXml)
      ensures RootLocs(env, sitemapIndexUrl).Some? ==>
        pageRequests == Prefix(Collect(env, RootLocs(env, sitemapIndexUrl).value, [], maxPages), maxPages)
      ensures maxPages >= 0 ==> |pageRequests| <= maxPages && |docs| <= maxPages
      ensures forall i :: 0 <= i < |docs| ==> docs[i].pageContent != "" && SourceOf(docs[i]) in pageRequests
      ensures IsSubseq(Sources(docs), pageRequests)
    {
      sitemapRequests := [sitemapIndexUrl];
      pageRequests := [];
      var root := GetChecked(env.fetch, sitemapIndexUrl);
      if root.None? {
        return [], sitemapRequests, pageRequests;
      }
      var urls := ParseLocs(env, root.value);
      ghost var nested;
      var pageUrls;
      pageUrls, nested := CollectPageUrls(env, urls);
      sitemapRequests := sitemapRequests + nested;
      var passed := Prefix(pageUrls, maxPages);
      pageRequests := passed;
      docs := GatherPages(env, passed);
    }
  }

  /** From an empty start the loop yields at most one document per page and,
      for a budget of at least one, at most `max`, the first ones of the
      unbudgeted documents; every document has text, comes from a page of the
      list, and the documents keep the order of the list. */
  lemma HarvestProperties(env: Env, urls: seq<string>, max: int)
    ensures var h := Harvest(env, urls, [], max);
      (max >= 1 ==> h == Kept(env, urls)[..Min(|Kept(env, urls)|, max)])
      && |h| <= |urls| && (max >= 1 ==> |h| <= max) && (max < 1 ==> |h| <= 1)
      && (forall i :: 0 <= i < |h| ==> h[i].pageContent != "" && SourceOf(h[i]) in urls)
      && IsSubseq(Sources(h), urls)
  {
    var k := Kept(env, urls);
    HarvestIsKeptPrefix(env, urls, [], max);
    assert [] + k == k;
    KeptDocs(env, urls);
    if max >= 1 {
      HarvestIsBoundedKept(env, urls, [], max);
    }
    KeptPrefixSources(env, urls, |Harvest(env, urls, [], max)|);
  }

  /** Any prefix of the unbudgeted documents has non-empty texts whose
      sources are pages of the list, in its order. */
  lemma KeptPrefixSources(env: Env, urls: seq<string>, n: nat)
    requires n <= |Kept(env, urls)|
    ensures var h := Kept(env, urls)[..n];
      (forall i :: 0 <= i < |h| ==> h[i].pageContent != "" && SourceOf(h[i]) in urls)
      && IsSubseq(Sources(h), urls)
  {
    var k := Kept(env, urls);
    var h := k[..n];
    KeptDocs(env, urls);
    KeptSources(env, urls);
    FilterSpec(urls, HasText(env));
    PrefixSources(k, n);
    forall i | 0 <= i < n ensures SourceOf(h[i]) in urls {
      assert SourceOf(k[i]) == Sources(k)[i];
      SubseqMembers(Sources(k), urls, SourceOf(k[i]));
    }
    SubseqPrefix(Sources(k), urls, n);
  }

  lemma PrefixSources(docs: seq<Doc>, n: nat)
    requires n <= |docs|
    ensures Sources(docs[..n]) == Sources(docs)[..n]
  {
  }

  /** A prefix of a subsequence is a subsequence. */
  lemma {:induction false} SubseqPrefix<T>(a: seq<T>, b: seq<T>, n: nat)
    requires IsSubseq(a, b) && n <= |a|
    ensures IsSubseq(a[..n], b)
    decreases |b|
  {
    if n > 0 && b != [] {
      if a[0] == b[0] && IsSubseq(a[1..], b[1..]) {
        SubseqPrefix(a[1..], b[1..], n - 1);
        assert a[..n][1..] == a[1..][..n - 1];
      } else {
        SubseqPrefix(a, b[1..], n);
      }
    }
  }

  /** The filtered elements of a prefix satisfy the test and belong to the list. */
  lemma FilteredLocsIn<T(!new)>(s: seq<T>, n: nat, p: T -> bool)
    requires n <= |s|
    ensures forall k :: 0 <= k < |Filter(s[..n], p)| ==> p(Filter(s[..n], p)[k]) && Filter(s[..n], p)[k] in s
  {
    var f := Filter(s[..n], p);
    FilterSpec(s[..n], p);
    forall k | 0 <= k < |f| ensures f[k] in s {
      SubseqMembers(f, s[..n], f[k]);
    }
  }
}
