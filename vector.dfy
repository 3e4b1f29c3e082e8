/** The FAISS index manager: a vector index saved in a directory, marked by
    an `indexed.flag` file, and a JSON manifest beside it that maps each
    document's key to the hash of its text and the time it was indexed. The
    index itself is abstracted to the sequence of documents it holds. */
module Vector {
  import opened Web

  datatype Entry = Entry(hash: string, lastIndexed: int)

  type Manifest = map<string, Entry>

  /** The manifest file on disk: absent, present but unreadable or not valid
      JSON, or holding a manifest. */
  datatype ManifestFile = Missing | Unreadable | Written(manifest: Manifest)

  /** What the index directory holds: whether the flag file exists, the
      documents of the saved index, and the manifest file. */
  datatype Store = Store(flag: bool, index: seq<Doc>, manifestFile: ManifestFile)

  /** What the foreign calls of one upsert do: whether loading the saved
      index succeeds, whether appending to it succeeds, whether building an
      index from the batch (embedding it) succeeds, and the directory's
      modification time (in whole seconds) once the index is saved. */
  datatype IndexIo = IndexIo(loadOk: bool, addOk: bool, buildOk: bool, mtime: int)

  /** `_load_manifest`: a missing or unreadable file reads as the empty manifest. */
  function ReadManifest(f: ManifestFile): (m: Manifest)
    ensures f.Written? ==> m == f.manifest
    ensures !f.Written? ==> m == map[]
  {
    match f
    case Written(m) => m
    case _ => map[]
  }

  /** The key a document is filed under: its `source` if that is a
      non-empty string, else its `url` if that is, else "unknown". */
  function ManifestKey(d: Doc): (k: string)
    ensures k != ""
    ensures "source" in d.metadata && d.metadata["source"] != "" ==> k == d.metadata["source"]
    ensures !("source" in d.metadata && d.metadata["source"] != "") && "url" in d.metadata && d.metadata["url"] != "" ==>
      k == d.metadata["url"]
    ensures !("source" in d.metadata && d.metadata["source"] != "") && !("url" in d.metadata && d.metadata["url"] != "") ==>
      k == "unknown"
  {
    if "source" in d.metadata && d.metadata["source"] != "" then d.metadata["source"]
    else if "url" in d.metadata && d.metadata["url"] != "" then d.metadata["url"]
    else "unknown"
  }

  function DocEntry(d: Doc, sha: string -> string, mtime: int): Entry {
    Entry(sha(d.pageContent), mtime)
  }

  /** The manifest after `_update_manifest_with_docs` has filed every
      document in order into `m`. */
  function ManifestAfter(m: Manifest, docs: seq<Doc>, sha: string -> string, mtime: int): Manifest
    decreases |docs|
  {
    if docs == [] then m
    else ManifestAfter(m[ManifestKey(docs[0]) := DocEntry(docs[0], sha, mtime)], docs[1..], sha, mtime)
  }

  function KeySet(docs: seq<Doc>): set<string> {
    set i | 0 <= i < |docs| :: ManifestKey(docs[i])
  }

  /** Document j is the last one filed under its key. */
  ghost predicate LastOfKey(docs: seq<Doc>, j: int) {
    0 <= j < |docs| && forall j' :: j < j' < |docs| ==> ManifestKey(docs[j']) != ManifestKey(docs[j])
  }

  lemma KeySetCons(docs: seq<Doc>)
    requires docs != []
    ensures KeySet(docs) == {ManifestKey(docs[0])} + KeySet(docs[1..])
  {
    forall k | k in KeySet(docs) ensures k in {ManifestKey(docs[0])} + KeySet(docs[1..]) {
      var i :| 0 <= i < |docs| && ManifestKey(docs[i]) == k;
      if i > 0 {
        assert docs[1..][i - 1] == docs[i];
      }
    }
    forall k | k in KeySet(docs[1..]) ensures k in KeySet(docs) {
      var i :| 0 <= i < |docs[1..]| && ManifestKey(docs[1..][i]) == k;
      assert docs[i + 1] == docs[1..][i];
    }
  }

  /** Filing documents adds their keys and nothing else; each key a document
      is filed under maps to the hash of the LAST such document's text; every
      other key keeps its entry. */
  lemma {:induction false} ManifestAfterSpec(m: Manifest, docs: seq<Doc>, sha: string -> string, mtime: int)
    ensures ManifestAfter(m, docs, sha, mtime).Keys == m.Keys + KeySet(docs)
    ensures forall j :: LastOfKey(docs, j) ==>
      ManifestAfter(m, docs, sha, mtime)[ManifestKey(docs[j])] == Entry(sha(docs[j].pageContent), mtime)
    ensures forall k :: k in m && k !in KeySet(docs) ==> ManifestAfter(m, docs, sha, mtime)[k] == m[k]
    decreases |docs|
  {
    if docs != [] {
      var k0 := ManifestKey(docs[0]);
      var m' := m[k0 := DocEntry(docs[0], sha, mtime)];
      var rest := docs[1..];
      var r := ManifestAfter(m, docs, sha, mtime);
      ManifestAfterSpec(m', rest, sha, mtime);
      KeySetCons(docs);
      forall j | LastOfKey(docs, j) ensures r[ManifestKey(docs[j])] == Entry(sha(docs[j].pageContent), mtime) {
        if j == 0 {
          assert k0 !in KeySet(rest);
        } else {
          assert rest[j - 1] == docs[j];
          assert LastOfKey(rest, j - 1) by {
            forall j' | j - 1 < j' < |rest| ensures ManifestKey(rest[j']) != ManifestKey(rest[j - 1]) {
              assert rest[j'] == docs[j' + 1];
            }
          }
        }
      }
    }
  }

  /** When every document filed under key k has text c, k maps to the hash of c. */
  lemma {:induction false} ManifestAfterUniform(m: Manifest, docs: seq<Doc>, sha: string -> string, mtime: int, k: string, c: string)
    requires k in KeySet(docs)
    requires forall i :: 0 <= i < |docs| && ManifestKey(docs[i]) == k ==> docs[i].pageContent == c
    ensures k in ManifestAfter(m, docs, sha, mtime)
    ensures ManifestAfter(m, docs, sha, mtime)[k] == Entry(sha(c), mtime)
    decreases |docs|
  {
    KeySetCons(docs);
    var m' := m[ManifestKey(docs[0]) := DocEntry(docs[0], sha, mtime)];
    if k in KeySet(docs[1..]) {
      forall i | 0 <= i < |docs[1..]| && ManifestKey(docs[1..][i]) == k ensures docs[1..][i].pageContent == c {
        assert docs[1..][i] == docs[i + 1];
      }
      ManifestAfterUniform(m', docs[1..], sha, mtime, k, c);
    } else {
      ManifestAfterSpec(m', docs[1..], sha, mtime);
    }
  }

  /** An upsert builds a new index from the batch when there is no index,
      when it fails to load, or when appending to it fails. */
  predicate Rebuilds(s: Store, io: IndexIo) {
    !(s.flag && io.loadOk && io.addOk)
  }

  /** `upsert_documents` raises when a non-empty batch needs a new index and
      building it fails; it then saves nothing and files nothing. */
  predicate UpsertRaises(s: Store, docs: seq<Doc>, io: IndexIo) {
    docs != [] && Rebuilds(s, io) && !io.buildOk
  }

  /** The index `upsert_documents` saves for a non-empty batch: the loaded
      index with the batch appended, or the batch alone when it rebuilds. */
  function NewIndex(s: Store, docs: seq<Doc>, io: IndexIo): seq<Doc> {
    if Rebuilds(s, io) then docs else s.index + docs
  }

  /** `upsert_documents` as a function of the directory's state. */
  function Upsert(s: Store, docs: seq<Doc>, sha: string -> string, io: IndexIo): (r: Store)
    ensures docs == [] || UpsertRaises(s, docs, io) ==> r == s
    ensures docs != [] && !UpsertRaises(s, docs, io) ==> r.flag && r.manifestFile.Written?
    ensures docs != [] && !UpsertRaises(s, docs, io) ==> |docs| <= |r.index| && r.index[|r.index| - |docs|..] == docs
    ensures docs != [] && !UpsertRaises(s, docs, io) && !(s.flag && io.loadOk) ==> r.index == docs
  {
    if docs == [] || UpsertRaises(s, docs, io) then s
    else Store(true, NewIndex(s, docs, io), Written(ManifestAfter(ReadManifest(s.manifestFile), docs, sha, io.mtime)))
  }

  /** After a non-empty upsert the manifest holds an entry for every
      document's key, the hash of the last such document's text; every key
      no document is filed under keeps the entry it had when read. */
  lemma UpsertManifest(s: Store, docs: seq<Doc>, sha: string -> string, io: IndexIo)
    requires docs != [] && !UpsertRaises(s, docs, io)
    ensures var m := Upsert(s, docs, sha, io).manifestFile.manifest;
      && m.Keys == ReadManifest(s.manifestFile).Keys + KeySet(docs)
      && (forall j :: LastOfKey(docs, j) ==> m[ManifestKey(docs[j])] == Entry(sha(docs[j].pageContent), io.mtime))
      && (forall k :: k in ReadManifest(s.manifestFile) && k !in KeySet(docs) ==> m[k] == ReadManifest(s.manifestFile)[k])
  {
    ManifestAfterSpec(ReadManifest(s.manifestFile), docs, sha, io.mtime);
  }

  /** The saved index keeps what it held only when the upsert appended: the
      flag existed, the index loaded and appending succeeded. Otherwise it is
      the batch alone, or, when that build fails, the directory is untouched. */
  lemma UpsertIndex(s: Store, docs: seq<Doc>, sha: string -> string, io: IndexIo)
    requires docs != []
    ensures s.flag && io.loadOk && io.addOk ==> Upsert(s, docs, sha, io).index == s.index + docs
    ensures Rebuilds(s, io) && io.buildOk ==> Upsert(s, docs, sha, io).index == docs
    ensures Rebuilds(s, io) && !io.buildOk ==> Upsert(s, docs, sha, io) == s
  {
  }

  /** Since a missing or unreadable manifest reads as empty, an upsert over
      one writes a manifest holding the batch's keys only: every entry of the
      unreadable file is lost. */
  lemma UpsertOverLostManifest(s: Store, docs: seq<Doc>, sha: string -> string, io: IndexIo)
    requires docs != [] && !UpsertRaises(s, docs, io) && !s.manifestFile.Written?
    ensures Upsert(s, docs, sha, io).manifestFile.manifest.Keys == KeySet(docs)
  {
    UpsertManifest(s, docs, sha, io);
  }

  /** A page document is filed under its URL, or under "unknown" when the URL
      is empty. */
  lemma PageDocKey(text: string, url: string)
    ensures ManifestKey(PageDoc(text, url)) == (if url != "" then url else "unknown")
  {
  }

  class FaissManager {
    var flag: bool
    var index: seq<Doc>
    var manifestFile: ManifestFile

    function State(): Store
      reads this
    {
      Store(flag, index, manifestFile)
    }

    /** The directory as found when the manager is created (it may already
        hold an index and a manifest). */
    constructor(s: Store)
      ensures State() == s
    {
      flag := s.flag;
      index := s.index;
      manifestFile := s.manifestFile;
    }

    predicate IndexExists()
      reads this
    {
      flag
    }

    method SaveIndex(db: seq<Doc>)
      modifies this
      ensures State() == Store(true, db, old(manifestFile))
    {
      index := db;
      flag := true;
    }

    /** `_load_manifest`. */
    function LoadManifest(): (m: Manifest)
      reads this
      ensures manifestFile.Written? ==> m == manifestFile.manifest
      ensures !manifestFile.Written? ==> m == map[]
    {
      ReadManifest(manifestFile)
    }

    /** `get_manifest`: the same read as `_load_manifest`. */
    function GetManifest(): (m: Manifest)
      reads this
      ensures m == LoadManifest()
    {
      LoadManifest()
    }

    /** `_update_manifest_with_docs`: the manifest is read, every document is
        filed into it in order, and it is written back. */
    method UpdateManifestWithDocs(docs: seq<Doc>, sha: string -> string, mtime: int)
      modifies this
      ensures State() == Store(old(flag), old(index), Written(ManifestAfter(old(LoadManifest()), docs, sha, mtime)))
    {
      var m := LoadManifest();
      ghost var m0 := m;
      var i := 0;
      while i < |docs|
        invariant 0 <= i <= |docs|
        invariant ManifestAfter(m, docs[i..], sha, mtime) == ManifestAfter(m0, docs, sha, mtime)
      {
        assert docs[i..][0] == docs[i] && docs[i..][1..] == docs[i + 1..];
        var d := docs[i];
        var src := ManifestKey(d);
        var h := sha(d.pageContent);
        m := m[src := Entry(h, mtime)];
        i := i + 1;
      }
      manifestFile := Written(m);
    }

    /** `upsert_documents`; `raised` says whether it raised. */
    method UpsertDocuments(docs: seq<Doc>, sha: string -> string, io: IndexIo) returns (raised: bool)
      modifies this
      ensures raised == UpsertRaises(old(State()), docs, io)
      ensures State() == Upsert(old(State()), docs, sha, io)
    {
      raised := false;
      if docs == [] {
        return;
      }
      var vectordb: Option<seq<Doc>>;
      if IndexExists() {
        if io.loadOk {
          vectordb := Some(index);
        } else {
          vectordb := None;
        }
      } else {
        vectordb := None;
      }
      if vectordb.None? {
        if !io.buildOk {
          raised := true;
          return;
        }
        SaveIndex(docs);
        UpdateManifestWithDocs(docs, sha, io.mtime);
        return;
      }
      var db := vectordb.value;
      if io.addOk {
        db := db + docs;
      } else {
        if !io.buildOk {
          raised := true;
          return;
        }
        db := docs;
      }
      SaveIndex(db);
      UpdateManifestWithDocs(docs, sha, io.mtime);
    }
  }
}
