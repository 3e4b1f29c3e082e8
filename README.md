# Sitemap crawling, change detection and index bookkeeping

This project models three parts of a retrieval-augmented chat service that indexes the pages of a web site:

- **The sitemap channel** (`SitemapChannel`). It reads a root sitemap and keeps the `<loc>` texts that start with `http`. It expands every `.xml` loc exactly one level into the locs of that nested sitemap, stops once the page budget `max_pages` is reached, and slices the list to the budget. It then fetches every page and keeps, in URL order, one document per page with visible text, until `max_pages` documents are collected.
- **The background worker.** A scheduled change check flattens the Onsurity sitemap the same way, with no early stop, and caps the list at 1000 URLs. It re-indexes every page that answered status 200 and whose URL is missing from the manifest or whose text hashes differently. Lazy jobs popped from a queue either index one fetched page into the Onsurity index or one piece of text into the insurance index. The main loop runs the check when no run is recorded or the last one is more than 24 hours old.
- **The FAISS index manager** (`FAISSManager`). `upsert_documents` builds, appends to or rebuilds the index. It then files every document into a JSON manifest under its key (`source`, else `url`, else `"unknown"`), with the SHA-256 hash of its text and the directory's modification time. A missing or unreadable manifest reads as empty.

The outside world is the datatype `Web.Env`. It holds the network fetch, the `<loc>` extraction of an XML parser, the visible-text extraction of an HTML parser and the SHA-256 digest as uninterpreted functions, so every property holds whatever they return. The index is a sequence of documents. The foreign outcomes of an upsert are a parameter `Vector.IndexIo`: whether the saved index loads, whether appending succeeds, whether building an index from the batch succeeds, and the directory's modification time. The clock of the worker loop is a parameter `now`, in seconds.

The loops of the source are imperative Dafny, each proved against a reference function:

| loop | method | reference function |
|---|---|---|
| budgeted flatten of `load_documents` | `SitemapChannel.CollectPageUrls` | `Channels.Collect` |
| post-fetch loop of `_gather_pages` | `SitemapChannel.GatherPages` | `Channels.Harvest` |
| flatten of the change check | `Worker.FlattenTopLocs` | `Sitemap.FlattenAll` |
| diff of the change check | `Worker.DetectChanges` | `Worker.Changed` |
| manifest update | `FaissManager.UpdateManifestWithDocs` | `Vector.ManifestAfter` |
| `upsert_documents` | `FaissManager.UpsertDocuments` | `Vector.Upsert` |

The reference functions in turn get lemmas about them:

- `Collect` is a prefix of the unbudgeted flattening.
- `Harvest` is the first `max_pages` of the unbudgeted page documents.
- `ManifestAfter` adds exactly the documents' keys, the last document of a key wins, and other keys keep their entries.
- `Changed` keeps exactly the changed URLs, in order.

The worker's state is the class `Worker.WorkerState`: the two index managers, and the last run time kept in Redis.

The main cross-module result is `Worker.RunIsIdempotent`. After a scheduled check has upserted its batch, a second check against the same site finds nothing to upsert. It holds because the worker hashes the page text exactly as the manifest update does, and every checked URL is non-empty, so the manifest files each page under its own URL.

Three consequences of the worker's contracts are worth noting:

- `Worker.WorkerState.Start` runs the first check at startup without recording its time. With no run recorded, the first pass that reaches the schedule test therefore runs a second check straight away (`Tick` fires when `lastRun` is None).
- A lazy `insurance_text` job without a `text` raises, and so does one whose index build fails. The loop then skips the schedule test for that pass.
- An upsert raises when it has to build an index from the batch and the build fails; it then saves nothing. A scheduled check whose upsert raises records no run time, so the next pass runs it again (`Worker.RecordedRunsRetry`). The startup check runs outside any handler, so there the raise stops the worker.

Several definitions are the source's decisions written as functions and are used by the contracts above rather than stated on their own:

- `Web.GetChecked` is `requests.get` followed by `raise_for_status`: the body, or None when the request raised or returned a status in 400..599.
- `Web.Prefix` is Python's slice `s[:n]`, including a negative `n`.
- `Sitemap.RootLocs` is the root sitemap's top-level locs, or None.
- `Vector.ReadManifest`, `FaissManager.LoadManifest` and `FaissManager.GetManifest` read a missing or unreadable manifest as empty.
- `Vector.ManifestKey` picks `source`, else `url`, else "unknown".
- `Worker.LazyJob` is the dispatch of `process_lazy_job`: the page path, the text path (with `source` defaulting to "lazy"), a raise for a text job without a text, and nothing for any other type.
- `Worker.ShouldRun` is the `do_run` test: no run recorded, or the last one more than 86400 seconds old. `Worker.NextLastRun` is the last run after one pass, and `Worker.RecordedRuns` steps it over a series of passes; `Tick` ends in `NextLastRun`.
- `Channels.PageHtml` is `_fetch`: the page body whatever the HTTP status, or None when the request raised. The channel therefore turns a 404 or 500 page with visible text into a document, whereas the worker's check only looks at pages that answered 200.
- `Vector.FaissManager.IndexExists` is `index_exists`: whether `indexed.flag` is present; the directory itself always exists, since the constructor creates it.

Expansion is one level deep, with no deduplication, and every page is fetched once without retry.

## Model

| member | source | states |
|---|---|---|
| Web.FilterSpec | channels/sitemap_channel.py:49 | a filtering comprehension keeps every element satisfying the test, as often as it occurs, in order, and nothing else |
| Sitemap.ParseLocsSpec | channels/sitemap_channel.py:47-50 | `_parse_xml`, and identically `parse_xml_for_locs` at worker/worker.py:49-52, yield exactly the `<loc>` texts starting with "http", with their multiplicities, in document order |
| Sitemap.FlattenAllMembers | worker/worker.py:67-77 | a URL is in the flattened list iff it is in the successful one-level expansion of some top-level loc: a `.xml` loc's nested locs (nested `.xml` locs kept as pages, never fetched), any other loc itself; a failed nested fetch contributes nothing |
| Sitemap.FlattenAllHttp | worker/worker.py:67-77 | every flattened URL starts with "http" |
| Channels.CollectIsFlattenPrefix | channels/sitemap_channel.py:62-74 | the budgeted loop's list is the unbudgeted flattening of the top-level locs it consumed, in order; it stops early only once the list holds at least `max_pages` URLs, and never before the first loc that brings it there |
| Channels.PassedIsFlattenPrefix | channels/sitemap_channel.py:73-78 | for a budget of at least zero, the list handed to the page fetch is exactly the first `max_pages` URLs of the unbudgeted flattening, or all of it when it is shorter |
| Channels.KeptDocs | channels/sitemap_channel.py:34-42 | without a budget, every document has non-empty text and is the page document of its URL's extracted text |
| Channels.KeptSources | channels/sitemap_channel.py:34-42 | without a budget, the documents' sources are exactly the URLs whose fetch gave a non-empty body with non-empty text, in input order |
| Channels.HarvestIsBoundedKept | channels/sitemap_channel.py:34-44 | with a budget above the documents already held, the post-fetch loop yields exactly the first `max_pages` of the unbudgeted documents |
| Channels.HarvestIsKeptPrefix | channels/sitemap_channel.py:34-44 | for any budget the loop yields a prefix of the unbudgeted documents; once the budget is already met, it adds at most one |
| Channels.HarvestProperties | channels/sitemap_channel.py:29-45 | from an empty start, at most one document per URL and at most `max_pages` of them; texts non-empty; sources are input URLs in input order |
| Channels.ChannelWithinBudget | channels/sitemap_channel.py:52-79 | when the whole flattened site fits in the budget, the channel returns one document per flattened page with text, in order |
| Channels.TwoNestedSitemaps | channels/sitemap_channel.py:61-78 | a root listing two nested sitemaps of three pages each, all with text and a budget of 10, yields the six page documents in order |
| Channels.SitemapChannel.constructor | channels/sitemap_channel.py:13-15 | the channel keeps its root URL and page budget |
| Channels.SitemapChannel.GatherPages | channels/sitemap_channel.py:28-45 | `_gather_pages` computes the reference loop, hence the first `max_pages` documents of the pages with text, from input URLs in input order |
| Channels.SitemapChannel.CollectPageUrls | channels/sitemap_channel.py:62-74 | the loop builds the budgeted list `Collect`; the nested sitemaps it requests are exactly the `.xml` locs among the top-level locs it takes, once each, in order |
| Channels.SitemapChannel.LoadDocuments | channels/sitemap_channel.py:52-79 | a failed root fetch returns `[]` having requested nothing else; otherwise the sitemaps requested are the root and then exactly the `.xml` locs among the top-level locs the loop takes, in order; the page requests are the budgeted list sliced to `max_pages`, and the documents are those of the requested pages |
| Vector.ManifestAfterSpec | vector/faiss_manager.py:59-68 | filing documents adds exactly their keys; each key maps to the hash of the last document filed under it; every other key keeps its entry |
| Vector.ManifestAfterUniform | vector/faiss_manager.py:59-68 | when every document filed under a key has the same text, the key maps to that text's hash |
| Vector.PageDocKey | vector/faiss_manager.py:62 | a page document is filed under its URL, or under "unknown" when the URL is empty |
| Vector.Upsert | vector/faiss_manager.py:33-57 | an empty batch changes nothing, and nor does an upsert whose needed build fails; otherwise it sets the flag, writes the manifest, and ends the index with the batch, which is the whole index when there was no index or it failed to load |
| Vector.UpsertManifest | vector/faiss_manager.py:44-57 | after a non-empty upsert that does not raise, the manifest holds an entry for every document's key, with the hash of the last one's text, and keeps every other entry it read |
| Vector.UpsertIndex | vector/faiss_manager.py:36-56 | the old index is kept and the batch appended iff the flag existed, the index loaded and appending succeeded; otherwise the index is the batch alone, or the directory is untouched when building it fails |
| Vector.UpsertOverLostManifest | vector/faiss_manager.py:70-77 | since a missing or unreadable manifest reads as empty, an upsert over one writes a manifest holding the batch's keys only: every earlier entry is lost |
| Vector.FaissManager.constructor | vector/faiss_manager.py:12-16 | a manager starts from the directory as found |
| Vector.FaissManager.SaveIndex | vector/faiss_manager.py:22-25 | saving stores the index and sets the flag, leaving the manifest alone |
| Vector.FaissManager.UpdateManifestWithDocs | vector/faiss_manager.py:59-68 | the manifest file becomes the read manifest with every document filed in order; the index and flag are unchanged |
| Vector.FaissManager.UpsertDocuments | vector/faiss_manager.py:33-57 | the method raises exactly when a needed build fails, and the directory's new state is `Upsert` of the old one |
| Worker.ChangedSpec | worker/worker.py:84-97 | the batch's sources are exactly the URLs that answered 200 and are missing from the manifest or hashed differently, in URL order; each document is that URL's page document |
| Worker.ChangedEmpty | worker/worker.py:84-106 | nothing is upserted iff no URL is changed |
| Worker.ChangedDocs | worker/worker.py:84-97 | each document of the batch comes from a URL of the list and is filed in the manifest under that URL |
| Worker.ChangedCovers | worker/worker.py:84-97 | every changed URL has its document in the batch |
| Worker.UpsertedPageUnchanged | worker/worker.py:93-97 | once a page's text has been filed under its URL, the check sees the same URL and text as unchanged |
| Worker.NoLongerChanged | worker/worker.py:84-97 | after filing a batch, no URL of the list is changed any more |
| Worker.ChangedIdempotent | worker/worker.py:84-104 | diffing the same URLs against the manifest after their batch was filed yields nothing |
| Worker.CheckedUrlsNonEmpty | worker/worker.py:67-79 | every URL the check looks at is non-empty |
| Worker.RunIsIdempotent | worker/worker.py:59-106 | against an unchanged site, a second check after the first one's successful upsert upserts nothing; after a raising upsert it finds the same batch again |
| Worker.FlattenTopLocs | worker/worker.py:67-77 | the worker's flatten loop computes the one-level flattening, with no early stop |
| Worker.DetectChanges | worker/worker.py:81-100 | the diff loop yields exactly the changed URLs' documents, in URL order |
| Worker.UnknownJobUpsertsNothing | worker/worker.py:130-131 | a job of any other type leaves both indexes unchanged |
| Worker.LazyPageAlwaysIndexed | worker/worker.py:110-120 | the lazy page path compares no hashes: when its upsert succeeds, the page ends the index and its hash is filed under its URL whatever the manifest held |
| Worker.RecordedRunsSpaced | worker/worker.py:147-160 | the run times recorded over a series of passes are more than 24 hours apart, and more than 24 hours after the run recorded before them |
| Worker.RecordedRunsRetry | worker/worker.py:147-166 | a due check that does not complete records nothing, so with a clock that does not go back the first later pass that completes it records its time |
| Worker.WorkerState.constructor | worker/worker.py:41-42 | the worker holds two distinct index managers and the recorded last run |
| Worker.WorkerState.SitemapChangeDetectionAndIndex | worker/worker.py:59-106 | the check upserts `RunDocs` of the Onsurity manifest into the Onsurity index, raising exactly when that upsert raises; when the root sitemap fails it upserts nothing and changes nothing |
| Worker.WorkerState.ProcessLazyJob | worker/worker.py:108-131 | each index receives the documents `LazyJob` routes to it; the method raises iff the job is a text job without a text or whose upsert raises, a failure on the page path being caught |
| Worker.WorkerState.Start | worker/worker.py:133-135 | the startup check runs without recording its time, and raises when its upsert raises |
| Worker.WorkerState.Tick | worker/worker.py:137-166 | one loop pass processes the popped job; unless the payload was malformed or processing raised, the check runs when due, and its time is recorded unless its upsert raised, which is one step of `NextLastRun`; the new state of both indexes is given |

## Left out

- HTTP through `requests` and `aiohttp`, and the asyncio event loop. A fetch is the uninterpreted `Env.fetch`. The concurrent page fetches of `_gather_pages` are modelled as results in URL order, which is what `asyncio.gather` returns.
- Timeouts, the `User-Agent` header and the exact exception types of the HTTP clients are left out. Every failure is `None`.
- BeautifulSoup parsing and tag stripping, as `Env.locs` and `Env.extract`. SHA-256 of the UTF-8 encoding, as `Env.sha`.
- FAISS, the sentence-transformer embeddings and batching. The index is the sequence of documents it holds. Whether loading, appending and building succeed, and the directory's modification time, are parameters (`IndexIo`). The modification time is read once per upsert, since nothing in the directory is written while the documents are filed.
- File I/O failures when saving the index, the flag or the manifest. A manifest whose JSON is valid but is not an object of `{hash, last_indexed}` entries is left out: the model has no state for such a file. A JSON list, for one, would make the worker's lookup raise for every page, and filing into it would raise after the index was saved.
- Redis: the queue pop, the stored last-run string and its ISO-8601 parsing. The popped item is a `QueueItem`. A payload that does not decode to an object is `Malformed`.
- Payload and metadata values that are not strings are left out, as are failures of the Redis calls themselves, caught by the outer `except` of the loop.
- `time.sleep`, `datetime.utcnow` and logging. The loop's clock is the parameter `now`.
- The clock and `lastRun` are whole seconds, whereas the source stores `now.isoformat()` and compares the 24-hour difference to the microsecond; differences below one second are lost.
- The worker's two index managers are distinct objects over distinct directories (`WorkerState.Valid`). Their directories coinciding is not modelled.
- The module-level setup of worker/worker.py (environment variables, the embeddings wrapper) and `compute_text_hash`, which is `Env.sha`.
- `SitemapChannel.name` returns a constant name and is left out.
- `FAISSManager.load_index`, `build_index` and `_save_manifest` are foreign calls. They are absorbed into `IndexIo` and `Vector.Upsert`.
- Worker.WorkerState.SitemapChangeDetectionAndIndex: returns the upserted batch only as a ghost value; callers see it through the new state of the Onsurity manager.
- Channels.SitemapChannel.LoadDocuments: the requests it made are returned as ghost values. They record which sitemaps and pages were requested, and in what order, but not the timing of the requests.
