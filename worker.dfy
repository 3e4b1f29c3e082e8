/** The background worker: a scheduled change check that re-indexes the
    pages of the Onsurity sitemap whose text changed, and lazy jobs taken
    from a queue that index one page or one piece of insurance text. */
module Worker {
  import opened Web
  import opened Sitemap
  import opened Vector

  /** `timedelta(hours=24)`, in seconds. */
  const Day := 86400

  /** The change check looks at no more than this many pages. */
  const PageCap := 1000

  // --- Change detection ---

  /** The check of one page URL against the manifest: the page is to be
      re-indexed when its fetch returned status 200 and the manifest has no
      entry for the URL or a hash other than that of the page's text. */
  function PageChange(env: Env, url: string, manifest: Manifest): Option<Doc> {
    match env.fetch(url)
    case None => None
    case Some(resp) =>
      if resp.status != 200 then None
      else
        var body := env.extract(resp.body);
        if url !in manifest || manifest[url].hash != env.sha(body) then Some(PageDoc(body, url)) else None
  }

  function IsChanged(env: Env, manifest: Manifest): string -> bool {
    url => PageChange(env, url, manifest).Some?
  }

  /** The documents to upsert for a list of page URLs, in URL order. */
  function Changed(env: Env, urls: seq<string>, manifest: Manifest): seq<Doc>
    decreases |urls|
  {
    if urls == [] then []
    else
      match PageChange(env, urls[0], manifest)
      case None => Changed(env, urls[1..], manifest)
      case Some(d) => [d] + Changed(env, urls[1..], manifest)
  }

  /** A URL yields a document iff it is changed; the documents come in URL
      order, and each is the page's text filed under its URL. */
  lemma {:induction false} ChangedSpec(env: Env, urls: seq<string>, manifest: Manifest)
    ensures Sources(Changed(env, urls, manifest)) == Filter(urls, IsChanged(env, manifest))
    ensures forall i :: 0 <= i < |Changed(env, urls, manifest)| ==>
      Some(Changed(env, urls, manifest)[i]) == PageChange(env, SourceOf(Changed(env, urls, manifest)[i]), manifest)
    decreases |urls|
  {
    if urls != [] {
      ChangedSpec(env, urls[1..], manifest);
      assert IsChanged(env, manifest)(urls[0]) == PageChange(env, urls[0], manifest).Some?;
      match PageChange(env, urls[0], manifest)
      case None =>
      case Some(d) =>
        var rest := Changed(env, urls[1..], manifest);
        assert Sources([d] + rest) == [SourceOf(d)] + Sources(rest);
        forall i | 0 <= i < |[d] + rest| ensures Some(([d] + rest)[i]) == PageChange(env, SourceOf(([d] + rest)[i]), manifest) {
          if i > 0 {
            assert ([d] + rest)[i] == rest[i - 1];
          }
        }
    }
  }

  /** Nothing is upserted exactly when no page is changed. */
  lemma {:induction false} ChangedEmpty(env: Env, urls: seq<string>, manifest: Manifest)
    ensures Changed(env, urls, manifest) == [] <==> forall i :: 0 <= i < |urls| ==> !IsChanged(env, manifest)(urls[i])
    decreases |urls|
  {
    if urls != [] {
      ChangedEmpty(env, urls[1..], manifest);
      if forall i :: 0 <= i < |urls[1..]| ==> !IsChanged(env, manifest)(urls[1..][i]) {
        forall i | 0 <= i < |urls| && i > 0 ensures !IsChanged(env, manifest)(urls[i]) {
          assert urls[i] == urls[1..][i - 1];
        }
      }
    }
  }

  /** What one scheduled check upserts: nothing when the root sitemap cannot
      be read, otherwise the changed pages among the first PageCap URLs of the
      one-level flattening of its locs. */
  function RunDocs(env: Env, sitemap: string, manifest: Manifest): seq<Doc> {
    match RootLocs(env, sitemap)
    case None => []
    case Some(tops) => Changed(env, CheckedUrls(env, tops), manifest)
  }

  /** The page URLs a check looks at: the first PageCap of the flattening. */
  function CheckedUrls(env: Env, tops: seq<string>): seq<string> {
    Prefix(FlattenAll(env, tops), PageCap)
  }

  /** Once a page has been upserted, its manifest entry holds the hash of the
      text the check computed, so the same URL with the same text no longer
      counts as changed: both sides hash the page text with SHA-256. */
  lemma UpsertedPageUnchanged(env: Env, manifest: Manifest, docs: seq<Doc>, mtime: int, url: string)
    requires env.fetch(url).Some? && env.fetch(url).value.status == 200
    requires url != "" && PageDoc(env.extract(env.fetch(url).value.body), url) in docs
    requires forall i :: 0 <= i < |docs| && ManifestKey(docs[i]) == url ==>
      docs[i].pageContent == env.extract(env.fetch(url).value.body)
    ensures !IsChanged(env, ManifestAfter(manifest, docs, env.sha, mtime))(url)
  {
    var body := env.extract(env.fetch(url).value.body);
    var i :| 0 <= i < |docs| && docs[i] == PageDoc(body, url);
    assert ManifestKey(docs[i]) == url;
    ManifestAfterUniform(manifest, docs, env.sha, mtime, url, body);
  }

  /** Each document of a batch is the page document of one of the URLs, filed
      under that URL, and that URL's check yields it. */
  lemma {:induction false} ChangedDocs(env: Env, urls: seq<string>, m: Manifest)
    requires forall i :: 0 <= i < |urls| ==> urls[i] != ""
    ensures forall d :: d in Changed(env, urls, m) ==>
      SourceOf(d) in urls && ManifestKey(d) == SourceOf(d) && PageChange(env, SourceOf(d), m) == Some(d)
    decreases |urls|
  {
    if urls != [] {
      ChangedDocs(env, urls[1..], m);
      assert forall v :: v in urls[1..] ==> v in urls;
      assert urls[0] != "";
    }
  }

  /** Every changed URL of the list has its document in the batch. */
  lemma {:induction false} ChangedCovers(env: Env, urls: seq<string>, m: Manifest, u: string)
    requires u in urls && IsChanged(env, m)(u)
    ensures PageChange(env, u, m).value in Changed(env, urls, m)
    decreases |urls|
  {
    if urls[0] != u {
      ChangedCovers(env, urls[1..], m, u);
    }
  }

  /** A URL of the list, checked again against the manifest the batch of
      changed pages was filed into, is not changed. */
  lemma NoLongerChanged(env: Env, urls: seq<string>, m: Manifest, mtime: int, u: string)
    requires forall i :: 0 <= i < |urls| ==> urls[i] != ""
    requires u in urls
    ensures !IsChanged(env, ManifestAfter(m, Changed(env, urls, m), env.sha, mtime))(u)
  {
    var first := Changed(env, urls, m);
    var m' := ManifestAfter(m, first, env.sha, mtime);
    ChangedDocs(env, urls, m);
    if IsChanged(env, m)(u) {
      ChangedCovers(env, urls, m, u);
      var body := env.extract(env.fetch(u).value.body);
      forall j | 0 <= j < |first| && ManifestKey(first[j]) == u ensures first[j].pageContent == body {
        assert first[j] in first;
      }
      UpsertedPageUnchanged(env, m, first, mtime, u);
    } else {
      assert u !in KeySet(first) by {
        forall j | 0 <= j < |first| ensures ManifestKey(first[j]) != u {
          assert first[j] in first;
        }
      }
      ManifestAfterSpec(m, first, env.sha, mtime);
      assert u in m' <==> u in m;
      assert u in m ==> m'[u] == m[u];
    }
  }

  /** Checking the same pages again after their batch was filed finds
      nothing changed. */
  lemma ChangedIdempotent(env: Env, urls: seq<string>, m: Manifest, mtime: int)
    requires forall i :: 0 <= i < |urls| ==> urls[i] != ""
    ensures Changed(env, urls, ManifestAfter(m, Changed(env, urls, m), env.sha, mtime)) == []
  {
    var m' := ManifestAfter(m, Changed(env, urls, m), env.sha, mtime);
    forall i | 0 <= i < |urls| ensures !IsChanged(env, m')(urls[i]) {
      NoLongerChanged(env, urls, m, mtime, urls[i]);
    }
    ChangedEmpty(env, urls, m');
  }

  /** The pages a scheduled check looks at have non-empty URLs, so each is
      filed in the manifest under its own URL. */
  lemma CheckedUrlsNonEmpty(env: Env, tops: seq<string>)
    requires forall i :: 0 <= i < |tops| ==> IsHttp(tops[i])
    ensures forall i :: 0 <= i < |CheckedUrls(env, tops)| ==> CheckedUrls(env, tops)[i] != ""
  {
    var all := FlattenAll(env, tops);
    FlattenAllHttp(env, tops);
    forall i | 0 <= i < |CheckedUrls(env, tops)| ensures CheckedUrls(env, tops)[i] != "" {
      assert CheckedUrls(env, tops)[i] == all[i];
      assert IsHttp(all[i]);
    }
  }

  /** A second check against an unchanged site, after the first one's upsert,
      finds nothing to upsert. */
  lemma RunIsIdempotent(env: Env, sitemap: string, s: Store, io: IndexIo)
    ensures var first := RunDocs(env, sitemap, ReadManifest(s.manifestFile));
      var second := RunDocs(env, sitemap, ReadManifest(Upsert(s, first, env.sha, io).manifestFile));
      (!UpsertRaises(s, first, io) ==> second == []) && (UpsertRaises(s, first, io) ==> second == first)
  {
    var m := ReadManifest(s.manifestFile);
    var first := RunDocs(env, sitemap, m);
    if first != [] && !UpsertRaises(s, first, io) {
      var tops := RootLocs(env, sitemap).value;
      assert first == Changed(env, CheckedUrls(env, tops), m);
      assert ReadManifest(Upsert(s, first, env.sha, io).manifestFile) == ManifestAfter(m, first, env.sha, io.mtime);
      ParseLocsSpec(env, GetChecked(env.fetch, sitemap).value);
      CheckedUrlsNonEmpty(env, tops);
      ChangedIdempotent(env, CheckedUrls(env, tops), m, io.mtime);
    }
  }

  /** The one-level flattening of the change check: every top-level loc is
      expanded, a failed nested fetch is skipped, and there is no early stop. */
  method FlattenTopLocs(env: Env, topLocs: seq<string>) returns (pageUrls: seq<string>)
    ensures pageUrls == FlattenAll(env, topLocs)
  {
    pageUrls := [];
    var i := 0;
    while i < |topLocs|
      invariant 0 <= i <= |topLocs|
      invariant pageUrls + FlattenAll(env, topLocs[i..]) == FlattenAll(env, topLocs)
    {
      assert topLocs[i..][0] == topLocs[i] && topLocs[i..][1..] == topLocs[i + 1..];
      assert FlattenAll(env, topLocs[i..]) == Expand(env, topLocs[i]).GetOr([]) + FlattenAll(env, topLocs[i + 1..]);
      var loc := topLocs[i];
      if IsXml(loc) {
        var inner := GetChecked(env.fetch, loc);
        if inner.None? {
          i := i + 1;
          continue;
        }
        pageUrls := pageUrls + ParseLocs(env, inner.value);
      } else {
        pageUrls := pageUrls + [loc];
      }
      i := i + 1;
    }
    assert topLocs[i..] == [];
  }

  /** The diff loop of the change check. */
  method DetectChanges(env: Env, pageUrls: seq<string>, manifest: Manifest) returns (toUpsert: seq<Doc>)
    ensures toUpsert == Changed(env, pageUrls, manifest)
    ensures Sources(toUpsert) == Filter(pageUrls, IsChanged(env, manifest))
  {
    toUpsert := [];
    var i := 0;
    while i < |pageUrls|
      invariant 0 <= i <= |pageUrls|
      invariant toUpsert + Changed(env, pageUrls[i..], manifest) == Changed(env, pageUrls, manifest)
    {
      assert pageUrls[i..][0] == pageUrls[i] && pageUrls[i..][1..] == pageUrls[i + 1..];
      var url := pageUrls[i];
      var rresp := env.fetch(url);
      if rresp.None? || rresp.value.status != 200 {
        assert PageChange(env, url, manifest).None?;
        i := i + 1;
        continue;
      }
      var body := env.extract(rresp.value.body);
      var h := env.sha(body);
      if url !in manifest || manifest[url].hash != h {
        assert PageChange(env, url, manifest) == Some(PageDoc(body, url));
        toUpsert := toUpsert + [PageDoc(body, url)];
      } else {
        assert PageChange(env, url, manifest).None?;
      }
      i := i + 1;
    }
    assert pageUrls[i..] == [];
    ChangedSpec(env, pageUrls, manifest);
  }

  // --- Lazy jobs ---

  /** What a lazy job does: index a fetched page into the Onsurity index,
      index a text into the insurance index, nothing, or raise. */
  datatype LazyAction = ToOnsurity(doc: Doc) | ToInsurance(doc: Doc) | Idle | Raises

  /** A queue pop: nothing queued, a payload that is not a JSON object, or a
      job payload whose values are strings. */
  datatype QueueItem = NoJob | Malformed | Job(payload: map<string, string>)

  /** `process_lazy_job`, as the action it takes. An `onsurity_url` job
      fetches its URL (a missing URL or a failed fetch is caught and logged);
      an `insurance_text` job without text fails to build its document. */
  function LazyJob(env: Env, payload: map<string, string>): (a: LazyAction)
    ensures a.ToOnsurity? <==>
      "type" in payload && payload["type"] == "onsurity_url" && "url" in payload && GetChecked(env.fetch, payload["url"]).Some?
    ensures a.ToOnsurity? ==>
      a.doc == PageDoc(env.extract(GetChecked(env.fetch, payload["url"]).value), payload["url"])
    ensures a.ToInsurance? <==> "type" in payload && payload["type"] == "insurance_text" && "text" in payload
    ensures a.ToInsurance? ==>
      a.doc == PageDoc(payload["text"], if "source" in payload then payload["source"] else "lazy")
    ensures a.Raises? <==> "type" in payload && payload["type"] == "insurance_text" && "text" !in payload
  {
    var t := if "type" in payload then Some(payload["type"]) else None;
    if t == Some("onsurity_url") then
      if "url" !in payload then Idle
      else
        match GetChecked(env.fetch, payload["url"])
        case None => Idle
        case Some(html) => ToOnsurity(PageDoc(env.extract(html), payload["url"]))
    else if t == Some("insurance_text") then
      if "text" !in payload then Raises
      else ToInsurance(PageDoc(payload["text"], if "source" in payload then payload["source"] else "lazy"))
    else
      Idle
  }

  function OnsurityDocs(a: LazyAction): seq<Doc> {
    if a.ToOnsurity? then [a.doc] else []
  }

  function InsuranceDocs(a: LazyAction): seq<Doc> {
    if a.ToInsurance? then [a.doc] else []
  }

  /** Whether processing a job raises out of `process_lazy_job`: an
      `insurance_text` job without a text, or one whose upsert raises. A
      failure on the page path is caught and logged there. */
  predicate JobRaises(a: LazyAction, insurance: Store, io: IndexIo) {
    a.Raises? || (a.ToInsurance? && UpsertRaises(insurance, [a.doc], io))
  }

  /** A job of any other type touches neither index. */
  lemma UnknownJobUpsertsNothing(env: Env, payload: map<string, string>, s: Store, sha: string -> string, io: IndexIo)
    requires !("type" in payload && payload["type"] in {"onsurity_url", "insurance_text"})
    ensures LazyJob(env, payload) == Idle
    ensures Upsert(s, OnsurityDocs(LazyJob(env, payload)), sha, io) == s
    ensures Upsert(s, InsuranceDocs(LazyJob(env, payload)), sha, io) == s
  {
  }

  /** The lazy page path compares no hashes: whatever the manifest says, a
      fetched page ends up last in the index, and its hash in the manifest
      under its URL ("unknown" for an empty URL). */
  lemma LazyPageAlwaysIndexed(env: Env, payload: map<string, string>, s: Store, io: IndexIo)
    requires LazyJob(env, payload).ToOnsurity?
    requires !UpsertRaises(s, [LazyJob(env, payload).doc], io)
    ensures var d := LazyJob(env, payload).doc; var r := Upsert(s, [d], env.sha, io);
      var key := if payload["url"] != "" then payload["url"] else "unknown";
      r.index[|r.index| - 1] == d &&
      key in r.manifestFile.manifest && r.manifestFile.manifest[key] == Entry(env.sha(d.pageContent), io.mtime)
  {
    var d := LazyJob(env, payload).doc;
    var m := ReadManifest(s.manifestFile);
    var key := if payload["url"] != "" then payload["url"] else "unknown";
    PageDocKey(d.pageContent, payload["url"]);
    assert [d][1..] == [];
    assert ManifestAfter(m, [d], env.sha, io.mtime) == m[key := DocEntry(d, env.sha, io.mtime)];
    var r := Upsert(s, [d], env.sha, io);
    assert r == Store(true, NewIndex(s, [d], io), Written(ManifestAfter(m, [d], env.sha, io.mtime)));
    assert r.manifestFile.manifest == m[key := DocEntry(d, env.sha, io.mtime)];
  }

  // --- The schedule ---

  /** The `do_run` test: run when no run is recorded or the last one is more
      than 24 hours old. */
  function ShouldRun(lastRun: Option<int>, now: int): (r: bool)
    ensures r <==> lastRun.None? || now - lastRun.value > Day
  {
    match lastRun
    case None => true
    case Some(last) => now - last > Day
  }

  /** One pass of the main loop as the schedule sees it: its time, and
      whether the check, when due, completes; false when the pass skips the
      schedule test (a malformed or raising job) or the check raises. */
  datatype Pass = Pass(now: int, completes: bool)

  /** Whether a pass records its time: the check is due and completes. */
  predicate Records(lastRun: Option<int>, p: Pass) {
    ShouldRun(lastRun, p.now) && p.completes
  }

  /** The `sitemap_last_run` value after one pass (`Tick` ends in it). */
  function NextLastRun(lastRun: Option<int>, p: Pass): Option<int> {
    if Records(lastRun, p) then Some(p.now) else lastRun
  }

  /** The run times recorded over a series of passes, each pass stepping
      the last run by `NextLastRun`. */
  function RecordedRuns(lastRun: Option<int>, passes: seq<Pass>): seq<int>
    decreases |passes|
  {
    if passes == [] then []
    else
      var next := NextLastRun(lastRun, passes[0]);
      (if Records(lastRun, passes[0]) then [passes[0].now] else [])
        + RecordedRuns(next, passes[1..])
  }

  /** Recorded runs are more than 24 hours apart, and the first one is more
      than 24 hours after the run recorded before the series. */
  lemma {:induction false} RecordedRunsSpaced(lastRun: Option<int>, passes: seq<Pass>)
    ensures var f := RecordedRuns(lastRun, passes);
      (forall i :: 0 <= i < |f| - 1 ==> f[i + 1] - f[i] > Day) &&
      (lastRun.Some? && |f| > 0 ==> f[0] - lastRun.value > Day)
    decreases |passes|
  {
    if passes != [] {
      if Records(lastRun, passes[0]) {
        RecordedRunsSpaced(Some(passes[0].now), passes[1..]);
        var rest := RecordedRuns(Some(passes[0].now), passes[1..]);
        var f := [passes[0].now] + rest;
        assert NextLastRun(lastRun, passes[0]) == Some(passes[0].now);
        assert RecordedRuns(lastRun, passes) == f;
        forall i | 0 <= i < |f| - 1 ensures f[i + 1] - f[i] > Day {
          if i > 0 {
            assert f[i] == rest[i - 1] && f[i + 1] == rest[i];
          }
        }
      } else {
        assert NextLastRun(lastRun, passes[0]) == lastRun;
        assert RecordedRuns(lastRun, passes) == [] + RecordedRuns(lastRun, passes[1..]);
        RecordedRunsSpaced(lastRun, passes[1..]);
      }
    }
  }

  /** A due check that does not complete records nothing, so with a clock
      that does not go back it stays due: the first pass after it that
      completes the check records its time. */
  lemma {:induction false} RecordedRunsRetry(lastRun: Option<int>, passes: seq<Pass>, k: nat)
    requires k < |passes| && passes[k].completes
    requires forall i :: 0 <= i < k ==> !passes[i].completes
    requires forall i, j :: 0 <= i <= j < |passes| ==> passes[i].now <= passes[j].now
    requires ShouldRun(lastRun, passes[0].now)
    ensures RecordedRuns(lastRun, passes) != [] && RecordedRuns(lastRun, passes)[0] == passes[k].now
    decreases k
  {
    if k > 0 {
      var rest := passes[1..];
      assert passes[0].now <= passes[1].now;
      forall i | 0 <= i < k - 1 ensures !rest[i].completes {
        assert rest[i] == passes[i + 1];
      }
      forall i, j | 0 <= i <= j < |rest| ensures rest[i].now <= rest[j].now {
        assert rest[i] == passes[i + 1] && rest[j] == passes[j + 1];
      }
      RecordedRunsRetry(lastRun, rest, k - 1);
    }
  }

  // --- The worker process ---

  class WorkerState {
    const onsuritySitemap: string
    const insurance: FaissManager
    const onsurity: FaissManager
    /** The `sitemap_last_run` key in Redis, as seconds. */
    var lastRun: Option<int>

    ghost predicate Valid() {
      insurance != onsurity
    }

    constructor(onsuritySitemap: string, insurance: FaissManager, onsurity: FaissManager, lastRun: Option<int>)
      requires insurance != onsurity
      ensures Valid()
      ensures this.onsuritySitemap == onsuritySitemap && this.insurance == insurance && this.onsurity == onsurity
      ensures this.lastRun == lastRun
    {
      this.onsuritySitemap := onsuritySitemap;
      this.insurance := insurance;
      this.onsurity := onsurity;
      this.lastRun := lastRun;
    }

    /** `sitemap_change_detection_and_index`; `raised` says whether its
        upsert raised. It returns, for the record, the documents it upserted. */
    method SitemapChangeDetectionAndIndex(env: Env, io: IndexIo) returns (raised: bool, ghost upserted: seq<Doc>)
      requires Valid()
      modifies onsurity
      ensures upserted == RunDocs(env, onsuritySitemap, old(onsurity.GetManifest()))
      ensures GetChecked(env.fetch, onsuritySitemap).None? ==>
        upserted == [] && !raised && onsurity.State() == old(onsurity.State())
      ensures raised == UpsertRaises(old(onsurity.State()), upserted, io)
      ensures onsurity.State() == Upsert(old(onsurity.State()), upserted, env.sha, io)
    {
      raised := false;
      var root := GetChecked(env.fetch, onsuritySitemap);
      if root.None? {
        upserted := [];
        return;
      }
      var topLocs := ParseLocs(env, root.value);
      var pageUrls := FlattenTopLocs(env, topLocs);
      pageUrls := Prefix(pageUrls, PageCap);
      var manifest := onsurity.GetManifest();
      var toUpsert := DetectChanges(env, pageUrls, manifest);
      upserted := toUpsert;
      if toUpsert != [] {
        raised := onsurity.UpsertDocuments(toUpsert, env.sha, io);
      }
    }

    /** `process_lazy_job`; `raised` says whether it raised. */
    method ProcessLazyJob(env: Env, payload: map<string, string>, io: IndexIo) returns (raised: bool)
      requires Valid()
      modifies insurance, onsurity
      ensures raised == JobRaises(LazyJob(env, payload), old(insurance.State()), io)
      ensures onsurity.State() == Upsert(old(onsurity.State()), OnsurityDocs(LazyJob(env, payload)), env.sha, io)
      ensures insurance.State() == Upsert(old(insurance.State()), InsuranceDocs(LazyJob(env, payload)), env.sha, io)
    {
      raised := false;
      var t := if "type" in payload then Some(payload["type"]) else None;
      if t == Some("onsurity_url") {
        if "url" !in payload {
          return;
        }
        var url := payload["url"];
        var rresp := GetChecked(env.fetch, url);
        if rresp.None? {
          return;
        }
        var body := env.extract(rresp.value);
        var doc := PageDoc(body, url);
        assert LazyJob(env, payload) == ToOnsurity(doc);
        // An upsert that raises here is caught and logged.
        var _ := onsurity.UpsertDocuments([doc], env.sha, io);
      } else if t == Some("insurance_text") {
        if "text" !in payload {
          raised := true;
          return;
        }
        var source := if "source" in payload then payload["source"] else "lazy";
        var doc := PageDoc(payload["text"], source);
        assert LazyJob(env, payload) == ToInsurance(doc);
        raised := insurance.UpsertDocuments([doc], env.sha, io);
      }
    }

    /** The first scheduled check, run at startup outside any handler and
        without recording its time; when it raises, the worker stops. */
    method Start(env: Env, io: IndexIo) returns (raised: bool, ghost upserted: seq<Doc>)
      requires Valid()
      modifies onsurity
      ensures upserted == RunDocs(env, onsuritySitemap, old(onsurity.GetManifest()))
      ensures raised == UpsertRaises(old(onsurity.State()), upserted, io)
      ensures onsurity.State() == Upsert(old(onsurity.State()), upserted, env.sha, io)
      ensures lastRun == old(lastRun)
    {
      raised, upserted := SitemapChangeDetectionAndIndex(env, io);
    }

    /** One pass of `main_loop` at time `now`: process the popped job, if any;
        unless the payload was malformed or processing raised, run the
        scheduled check when it is due (`ran`) and, unless it raised, record
        `now` as the last run. */
    method Tick(env: Env, item: QueueItem, now: int, jobIo: IndexIo, runIo: IndexIo) returns (ran: bool)
      requires Valid()
      modifies this, insurance, onsurity
      ensures var a := if item.Job? then LazyJob(env, item.payload) else Idle;
        var aborted := item.Malformed? || JobRaises(a, old(insurance.State()), jobIo);
        var s1 := Upsert(old(onsurity.State()), OnsurityDocs(a), env.sha, jobIo);
        var batch := RunDocs(env, onsuritySitemap, ReadManifest(s1.manifestFile));
        && ran == (!aborted && ShouldRun(old(lastRun), now))
        && lastRun == (if ran && !UpsertRaises(s1, batch, runIo) then Some(now) else old(lastRun))
        && lastRun == NextLastRun(old(lastRun), Pass(now, !aborted && !UpsertRaises(s1, batch, runIo)))
        && insurance.State() == Upsert(old(insurance.State()), InsuranceDocs(a), env.sha, jobIo)
        && onsurity.State() == (if ran then Upsert(s1, batch, env.sha, runIo) else s1)
    {
      ran := false;
      match item {
        case NoJob =>
        case Malformed =>
          return;
        case Job(payload) =>
          var raised := ProcessLazyJob(env, payload, jobIo);
          if raised {
            return;
          }
      }
      var doRun := false;
      if lastRun.None? {
        doRun := true;
      } else if now - lastRun.value > Day {
        doRun := true;
      }
      if doRun {
        ran := true;
        // A check that raises reaches the loop's outer handler, which skips
        // recording the run.
        var raised, _ := SitemapChangeDetectionAndIndex(env, runIo);
        if raised {
          return;
        }
        lastRun := Some(now);
      }
    }
  }
}
