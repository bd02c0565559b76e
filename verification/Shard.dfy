/** src/document_store.cpp and src/shard.cpp: the authoritative store, its line
    format on disk, and the shard that keeps store and index in agreement. */
module Shards {
  import opened Wrappers
  import opened Sorting
  import opened Documents
  import opened Tokenizer
  import opened Index

  // ---------------------------------------------------------------------------
  // The file: one JSON object per line, at record level
  // ---------------------------------------------------------------------------

  /** What one line decodes to. `rawId` is any unsigned JSON number; reading it as a
      doc_id keeps its low 32 bits. */
  datatype Line =
    | Blank
    | Corrupt
    | BadFields
    | Record(rawId: nat, content: string)

  function NarrowId(raw: nat): DocId { raw % 0x1_0000_0000 }

  /** Numbers that differ by multiples of 2^32 are the same identifier. */
  lemma NarrowDropsHighBits(high: nat, id: DocId)
    ensures NarrowId(high * 0x1_0000_0000 + id) == id
  {
  }

  function LoadLine(loaded: Docs, line: Line): Docs {
    match line
    case Record(raw, content) =>
      var id := NarrowId(raw);
      if id in loaded then loaded else loaded[id := content]
    case _ => loaded
  }

  /** Bad lines are skipped and the first record of an identifier wins. */
  function LoadLines(lines: seq<Line>): Docs {
    if lines == [] then map[]
    else LoadLine(LoadLines(lines[..|lines| - 1]), lines[|lines| - 1])
  }

  ghost predicate MentionsId(line: Line, id: DocId) {
    line.Record? && NarrowId(line.rawId) == id
  }

  ghost predicate IsFirstMention(lines: seq<Line>, id: DocId, k: nat) {
    k < |lines| && MentionsId(lines[k], id) && forall j :: 0 <= j < k ==> !MentionsId(lines[j], id)
  }

  lemma {:induction false} LoadedIffMentioned(lines: seq<Line>, id: DocId)
    ensures id in LoadLines(lines) <==> exists k :: 0 <= k < |lines| && MentionsId(lines[k], id)
  {
    if lines != [] {
      var n := |lines| - 1;
      LoadedIffMentioned(lines[..n], id);
      assert MentionsId(lines[n], id) ==> id in LoadLines(lines);
      assert forall k :: 0 <= k < n ==> lines[..n][k] == lines[k];
    }
  }

  lemma {:induction false} FirstMentionLoads(lines: seq<Line>, id: DocId, k: nat)
    requires IsFirstMention(lines, id, k)
    ensures id in LoadLines(lines) && LoadLines(lines)[id] == lines[k].content
  {
    var n := |lines| - 1;
    var init := lines[..n];
    assert forall j :: 0 <= j < n ==> init[j] == lines[j];
    if k < n {
      FirstMentionLoads(init, id, k);
    } else {
      LoadedIffMentioned(init, id);
    }
  }

  /** The loaded content of `id` is that of the first line that mentions it. */
  lemma FirstRecordWins(lines: seq<Line>, id: DocId)
    ensures id in LoadLines(lines) <==> exists k :: 0 <= k < |lines| && MentionsId(lines[k], id)
    ensures forall k: nat :: IsFirstMention(lines, id, k) ==>
              id in LoadLines(lines) && LoadLines(lines)[id] == lines[k].content
  {
    LoadedIffMentioned(lines, id);
    forall k: nat | IsFirstMention(lines, id, k)
      ensures id in LoadLines(lines) && LoadLines(lines)[id] == lines[k].content
    {
      FirstMentionLoads(lines, id, k);
    }
  }

  ghost predicate RecordBefore(a: Line, b: Line) {
    a.Record? && b.Record? && a.rawId < b.rawId
  }

  ghost predicate IsRecordOf(line: Line, docs: Docs) {
    && line.Record? && line.rawId < 0x1_0000_0000
    && NarrowId(line.rawId) in docs && docs[NarrowId(line.rawId)] == line.content
  }

  ghost predicate HasRecord(lines: seq<Line>, docs: Docs, id: DocId) {
    id in docs ==> Record(id, docs[id]) in lines
  }

  /** The file `save` writes: one record per document, in increasing identifier order. */
  ghost predicate IsSaved(lines: seq<Line>, docs: Docs) {
    && SortedBy(lines, RecordBefore)
    && (forall l :: l in lines ==> IsRecordOf(l, docs))
    && (forall id: DocId :: HasRecord(lines, docs, id))
  }

  lemma SavedFileUnique(a: seq<Line>, b: seq<Line>, docs: Docs)
    requires IsSaved(a, docs) && IsSaved(b, docs)
    ensures a == b
  {
    forall l ensures l in a <==> l in b {
      if l in a { assert HasRecord(b, docs, NarrowId(l.rawId)); }
      if l in b { assert HasRecord(a, docs, NarrowId(l.rawId)); }
    }
    StrictlySortedUnique(a, b, RecordBefore);
  }

  /** Loading what was saved gives back the same documents. */
  lemma SaveLoadRoundTrip(lines: seq<Line>, docs: Docs)
    requires IsSaved(lines, docs)
    ensures LoadLines(lines) == docs
  {
    forall id: DocId ensures (id in LoadLines(lines) <==> id in docs)
      && (id in docs ==> LoadLines(lines)[id] == docs[id])
    {
      RoundTripAt(lines, docs, id);
    }
  }

  lemma RoundTripAt(lines: seq<Line>, docs: Docs, id: DocId)
    requires IsSaved(lines, docs)
    ensures id in LoadLines(lines) <==> id in docs
    ensures id in docs ==> LoadLines(lines)[id] == docs[id]
  {
    FirstRecordWins(lines, id);
    if id in docs {
      var k := MentionedOnce(lines, docs, id);
    } else {
      NeverMentioned(lines, docs, id);
    }
  }

  lemma MentionedOnce(lines: seq<Line>, docs: Docs, id: DocId) returns (k: nat)
    requires IsSaved(lines, docs) && id in docs
    ensures IsFirstMention(lines, id, k) && lines[k].content == docs[id]
  {
    assert HasRecord(lines, docs, id);
    k :| k < |lines| && lines[k] == Record(id, docs[id]);
    forall j | 0 <= j < k ensures !MentionsId(lines[j], id) {
      assert lines[j] in lines && RecordBefore(lines[j], lines[k]);
    }
  }

  lemma NeverMentioned(lines: seq<Line>, docs: Docs, id: DocId)
    requires IsSaved(lines, docs) && id !in docs
    ensures forall k :: 0 <= k < |lines| ==> !MentionsId(lines[k], id)
  {
    forall k | 0 <= k < |lines| ensures !MentionsId(lines[k], id) {
      assert lines[k] in lines;
    }
  }

  // ---------------------------------------------------------------------------
  // A file cut short
  // ---------------------------------------------------------------------------

  /** The number of documents with a smaller identifier. */
  function Rank(docs: Docs, id: DocId): nat {
    |set other: DocId | other in docs && other < id|
  }

  /** The `n` documents with the smallest identifiers. */
  function FirstDocs(docs: Docs, n: nat): Docs {
    map id: DocId | id in docs && Rank(docs, id) < n :: docs[id]
  }

  /** What is left of a file whose writing was cut after `n` lines: a broken line at the
      end does not parse. */
  function KeptLines(lines: seq<Line>, n: nat, broken: bool): seq<Line> {
    if |lines| <= n then lines else lines[..n] + if broken then [Corrupt] else []
  }

  ghost function Smaller(docs: Docs, id: DocId): set<DocId> {
    set other: DocId | other in docs && other < id
  }

  lemma SavedLine(lines: seq<Line>, docs: Docs, k: nat)
    requires IsSaved(lines, docs) && k < |lines|
    ensures lines[k].Record? && lines[k].rawId < 0x1_0000_0000 && lines[k].rawId in docs
  {
    assert lines[k] in lines && IsRecordOf(lines[k], docs);
  }

  lemma SmallerAre(lines: seq<Line>, docs: Docs, k: nat, id: DocId)
    requires IsSaved(lines, docs) && k < |lines|
    requires lines[k].Record? && lines[k].rawId < 0x1_0000_0000
    ensures id in Smaller(docs, lines[k].rawId) <==> exists j :: 0 <= j < k && lines[j].Record? && lines[j].rawId == id
  {
    if id in Smaller(docs, lines[k].rawId) {
      assert HasRecord(lines, docs, id);
      var j :| 0 <= j < |lines| && lines[j] == Record(id, docs[id]);
      assert j > k ==> RecordBefore(lines[k], lines[j]);
    }
    if exists j :: 0 <= j < k && lines[j].Record? && lines[j].rawId == id {
      var j :| 0 <= j < k && lines[j].Record? && lines[j].rawId == id;
      assert RecordBefore(lines[j], lines[k]);
      SavedLine(lines, docs, j);
    }
  }

  lemma {:induction false} SavedRank(lines: seq<Line>, docs: Docs, k: nat)
    requires IsSaved(lines, docs) && k < |lines|
    ensures lines[k].Record? && lines[k].rawId < 0x1_0000_0000 && lines[k].rawId in docs
    ensures Rank(docs, lines[k].rawId) == k
  {
    SavedLine(lines, docs, k);
    var below := Smaller(docs, lines[k].rawId);
    if k > 0 {
      SavedRank(lines, docs, k - 1);
      var previous := Smaller(docs, lines[k - 1].rawId);
      hide IsSaved, Smaller;
      forall id: DocId ensures id in below <==> id in previous + {lines[k - 1].rawId} {
        SmallerAre(lines, docs, k, id);
        SmallerAre(lines, docs, k - 1, id);
      }
      assert below == previous + {lines[k - 1].rawId};
      NotBelowItself(docs, lines[k - 1].rawId);
    } else {
      forall id: DocId ensures id !in below {
        SmallerAre(lines, docs, k, id);
      }
      assert below == {};
    }
    RankIsSize(docs, lines[k].rawId);
    if k > 0 { RankIsSize(docs, lines[k - 1].rawId); }
  }

  lemma NotBelowItself(docs: Docs, id: DocId)
    ensures id !in Smaller(docs, id)
  {
  }

  lemma RankIsSize(docs: Docs, id: DocId)
    ensures Rank(docs, id) == |Smaller(docs, id)|
  {
  }

  lemma PrefixIsSaved(lines: seq<Line>, docs: Docs, n: nat)
    requires IsSaved(lines, docs) && n <= |lines|
    ensures IsSaved(lines[..n], FirstDocs(docs, n))
  {
    forall k | 0 <= k < n ensures IsRecordOf(lines[..n][k], FirstDocs(docs, n)) {
      assert lines[k] in lines && IsRecordOf(lines[k], docs);
      SavedRank(lines, docs, k);
    }
    forall id: DocId ensures HasRecord(lines[..n], FirstDocs(docs, n), id) {
      if id in FirstDocs(docs, n) {
        assert HasRecord(lines, docs, id);
        var k :| 0 <= k < |lines| && lines[k] == Record(id, docs[id]);
        SavedRank(lines, docs, k);
        assert lines[..n][k] == lines[k];
      }
    }
  }

  lemma CorruptIsSkipped(lines: seq<Line>)
    ensures LoadLines(lines + [Corrupt]) == LoadLines(lines)
  {
    assert (lines + [Corrupt])[..|lines|] == lines;
  }

  lemma RanksBelowSize(docs: Docs, n: nat)
    requires |docs| <= n
    ensures FirstDocs(docs, n) == docs
  {
    forall id: DocId | id in docs ensures Rank(docs, id) < n {
      var below := set other: DocId | other in docs && other < id;
      SubsetSize(below + {id}, docs.Keys);
    }
  }

  /** A file cut short loads as the documents with the smallest identifiers. */
  lemma CutFileLoads(lines: seq<Line>, docs: Docs, n: nat, broken: bool)
    requires IsSaved(lines, docs)
    ensures LoadLines(KeptLines(lines, n, broken)) == FirstDocs(docs, n)
    ensures if n < |lines| then lines[..n] <= KeptLines(lines, n, broken) else KeptLines(lines, n, broken) == lines
  {
    if |lines| <= n {
      SaveLoadRoundTrip(lines, docs);
      forall id: DocId | id in docs ensures Rank(docs, id) < n {
        assert HasRecord(lines, docs, id);
        var k :| 0 <= k < |lines| && lines[k] == Record(id, docs[id]);
        SavedRank(lines, docs, k);
      }
    } else {
      PrefixIsSaved(lines, docs, n);
      SaveLoadRoundTrip(lines[..n], FirstDocs(docs, n));
      CorruptIsSkipped(lines[..n]);
      assert lines[..n] + [] == lines[..n];
    }
  }

  /** Nothing is missing from the file exactly when every document had its line written. */
  lemma NothingCutIff(docs: Docs, n: nat)
    ensures FirstDocs(docs, n) == docs <==> |docs| <= n
  {
    if |docs| <= n {
      RanksBelowSize(docs, n);
    } else {
      var last := Greatest(docs.Keys);
      assert (set other: DocId | other in docs && other < last) == docs.Keys - {last};
      assert last !in FirstDocs(docs, n);
    }
  }

  // ---------------------------------------------------------------------------
  // DocumentStore
  // ---------------------------------------------------------------------------

  datatype Document = Document(id: DocId, content: string)

  function ContentsOf(all: map<DocId, Document>): Docs {
    map id | id in all :: all[id].content
  }

  class DocumentStore {
    var documents: map<DocId, Document>

    ghost predicate Valid()
      reads this
    {
      forall id :: id in documents ==> documents[id].id == id
    }

    ghost function Contents(): Docs
      reads this
    {
      ContentsOf(documents)
    }

    constructor ()
      ensures Valid() && Contents() == map[]
    {
      documents := map[];
    }

    method Add(document: Document) returns (inserted: bool)
      requires Valid()
      modifies this
      ensures Valid()
      ensures inserted == (document.id !in old(Contents()))
      ensures Contents() == if inserted then old(Contents())[document.id := document.content] else old(Contents())
    {
      inserted := document.id !in documents;
      if inserted {
        documents := documents[document.id := document];
      }
    }

    method Update(document: Document) returns (found: bool)
      requires Valid()
      modifies this
      ensures Valid()
      ensures found == (document.id in old(Contents()))
      ensures Contents() == if found then old(Contents())[document.id := document.content] else old(Contents())
    {
      found := document.id in documents;
      if found {
        documents := documents[document.id := documents[document.id].(content := document.content)];
      }
    }

    method Remove(id: DocId) returns (found: bool)
      requires Valid()
      modifies this
      ensures Valid()
      ensures found == (id in old(Contents()))
      ensures Contents() == old(Contents()) - {id}
    {
      found := id in documents;
      documents := documents - {id};
    }

    method Get(id: DocId) returns (document: Option<Document>)
      requires Valid()
      ensures document == if id in Contents() then Some(Document(id, Contents()[id])) else None
    {
      document := if id in documents then Some(documents[id]) else None;
    }

    method Contains(id: DocId) returns (found: bool)
      ensures found == (id in Contents())
    {
      found := id in documents;
    }

    method Size() returns (n: nat)
      ensures n == |Contents()|
    {
      assert Contents().Keys == documents.Keys;
      n := |documents|;
    }

    /** Snapshot, sort by identifier, write one record per document. */
    method Save() returns (lines: seq<Line>)
      requires Valid()
      ensures IsSaved(lines, Contents())
    {
      var sorted := SortedRecords(documents, (d: Document) => d.id, (d: Document) => d.id);
      lines := seq(|sorted|, i requires 0 <= i < |sorted| => RecordOf(sorted[i]));
      SnapshotLines(sorted, documents, lines);
    }

    /** Fill a temporary map line by line, then replace the store. */
    method Load(lines: seq<Line>)
      modifies this
      ensures Valid() && Contents() == LoadLines(lines)
    {
      var loaded: map<DocId, Document> := map[];
      for i := 0 to |lines|
        invariant forall id :: id in loaded ==> loaded[id].id == id
        invariant ContentsOf(loaded) == LoadLines(lines[..i])
      {
        assert lines[..i + 1][..i] == lines[..i];
        match lines[i]
        case Record(raw, content) =>
          var id := NarrowId(raw);
          if id !in loaded {
            loaded := loaded[id := Document(id, content)];
          }
        case _ =>
      }
      assert lines[..|lines|] == lines;
      documents := loaded;
    }
  }

  function RecordOf(d: Document): Line { Record(d.id, d.content) }

  lemma SnapshotLines(sorted: seq<Document>, documents: map<DocId, Document>, lines: seq<Line>)
    requires forall id :: id in documents ==> documents[id].id == id
    requires forall d :: d in sorted <==> d.id in documents && d == documents[d.id]
    requires forall i, j :: 0 <= i < j < |sorted| ==> sorted[i].id < sorted[j].id
    requires |lines| == |sorted| && forall i :: 0 <= i < |sorted| ==> lines[i] == RecordOf(sorted[i])
    ensures IsSaved(lines, ContentsOf(documents))
  {
    forall id: DocId ensures HasRecord(lines, ContentsOf(documents), id) {
      if id in documents {
        assert documents[id] in sorted;
        var k :| 0 <= k < |sorted| && sorted[k] == documents[id];
        assert lines[k] == Record(id, documents[id].content);
      }
    }
    forall k | 0 <= k < |lines|
      ensures lines[k].rawId == sorted[k].id && sorted[k].id in documents
           && lines[k].content == documents[sorted[k].id].content
    {
      assert sorted[k] in sorted;
    }
  }

  // ---------------------------------------------------------------------------
  // Shard
  // ---------------------------------------------------------------------------

  /** A mutation of a shard as its caller asks for it. */
  datatype ShardOp =
    | Add(id: DocId, content: string)
    | Update(id: DocId, content: string)
    | Remove(id: DocId)

  predicate Accepts(docs: Docs, op: ShardOp) {
    match op
    case Add(id, content) => IsValidContent(content) && id !in docs
    case Update(id, content) => IsValidContent(content) && id in docs
    case Remove(id) => id in docs
  }

  /** A refused mutation changes nothing. */
  function Mutate(docs: Docs, op: ShardOp): Docs {
    if !Accepts(docs, op) then docs
    else match op
      case Add(id, content) => docs[id := content]
      case Update(id, content) => docs[id := content]
      case Remove(id) => docs - {id}
  }

  function MutateAll(docs: Docs, ops: seq<ShardOp>): Docs
    decreases |ops|
  {
    if ops == [] then docs else MutateAll(Mutate(docs, ops[0]), ops[1..])
  }

  lemma OneFewer(docs: Docs, remaining: set<DocId>, id: DocId)
    requires remaining <= docs.Keys && id in remaining
    ensures (docs - remaining)[id := docs[id]] == docs - (remaining - {id})
    ensures id !in docs - remaining
  {
  }

  /** Index documents one by one, in whatever order the hash map yields them. */
  method IndexAll(all: map<DocId, Document>) returns (index: InvertedIndex)
    ensures fresh(index) && index.Valid() && index.docs == ContentsOf(all)
  {
    index := new InvertedIndex();
    ghost var docs := ContentsOf(all);
    var remaining := all.Keys;
    while remaining != {}
      invariant remaining <= docs.Keys == all.Keys && fresh(index)
      invariant index.Valid() && index.docs == docs - remaining
      decreases remaining
    {
      var id :| id in remaining;
      OneFewer(docs, remaining, id);
      index.AddDocument(id, all[id].content);
      remaining := remaining - {id};
    }
  }

  class Shard {
    const store: DocumentStore
    var index: InvertedIndex

    /** Store and index describe the same documents. */
    ghost predicate Valid()
      reads this, store, index
    {
      store.Valid() && index.Valid() && index.docs == store.Contents()
    }

    ghost function Docs(): Docs
      reads this, store
    {
      store.Contents()
    }

    constructor ()
      ensures Valid() && Docs() == map[]
      ensures fresh(store) && fresh(index)
    {
      store := new DocumentStore();
      index := new InvertedIndex();
    }

    method AddDocument(id: DocId, content: string) returns (ok: bool)
      requires Valid()
      modifies store, index
      ensures Valid() && index == old(index)
      ensures ok <==> Trim(content) != "" && id !in old(Docs())
      ensures Docs() == if ok then old(Docs())[id := content] else old(Docs())
    {
      hide Represents;
      ValidIff(content);
      if !IsValidContent(content) {
        return false;
      }
      var inserted := store.Add(Document(id, content));
      if !inserted {
        return false;
      }
      index.AddDocument(id, content);
      ok := true;
    }

    method UpdateDocument(id: DocId, content: string) returns (ok: bool)
      requires Valid()
      modifies store, index
      ensures Valid() && index == old(index)
      ensures ok <==> Trim(content) != "" && id in old(Docs())
      ensures Docs() == if ok then old(Docs())[id := content] else old(Docs())
    {
      hide Represents;
      ValidIff(content);
      if !IsValidContent(content) {
        return false;
      }
      var present := store.Contains(id);
      if !present {
        return false;
      }
      var removed := index.RemoveDocument(id);
      var updated := store.Update(Document(id, content));
      index.AddDocument(id, content);
      assert (old(Docs()) - {id})[id := content] == old(Docs())[id := content];
      ok := true;
    }

    method RemoveDocument(id: DocId) returns (ok: bool)
      requires Valid()
      modifies store, index
      ensures Valid() && index == old(index)
      ensures ok <==> id in old(Docs())
      ensures Docs() == old(Docs()) - {id}
    {
      var present := store.Contains(id);
      if !present {
        return false;
      }
      var removed := index.RemoveDocument(id);
      var erased := store.Remove(id);
      ok := true;
    }

    method GetDocument(id: DocId) returns (document: Option<Document>)
      requires Valid()
      ensures document == if id in Docs() then Some(Document(id, Docs()[id])) else None
    {
      document := store.Get(id);
    }

    method DocumentCount() returns (n: nat)
      requires Valid()
      ensures n == |Docs()|
    {
      n := store.Size();
    }

    method Postings(term: string) returns (ps: seq<Posting>)
      requires Valid()
      ensures ps == PostingsFor(Docs(), term)
    {
      ps := index.Postings(term);
    }

    method Save() returns (lines: seq<Line>)
      requires Valid()
      ensures IsSaved(lines, Docs())
    {
      lines := store.Save();
    }

    /** `lines` is None when the file could not be opened. */
    method Load(lines: Option<seq<Line>>) returns (ok: bool)
      requires Valid()
      modifies this, store
      ensures Valid() && (index == old(index) || fresh(index))
      ensures ok == lines.Some?
      ensures Docs() == if ok then LoadLines(lines.value) else old(Docs())
    {
      if lines.None? {
        return false;
      }
      store.Load(lines.value);
      index := IndexAll(store.documents);
      ok := true;
    }

    method Apply(op: ShardOp) returns (ok: bool)
      requires Valid()
      modifies store, index
      ensures Valid() && index == old(index)
      ensures ok == Accepts(old(Docs()), op) && Docs() == Mutate(old(Docs()), op)
    {
      match op
      case Add(id, content) =>
        ValidIff(content);
        ok := AddDocument(id, content);
      case Update(id, content) =>
        ValidIff(content);
        ok := UpdateDocument(id, content);
      case Remove(id) => ok := RemoveDocument(id);
    }

    /** A restart: what was saved is loaded and the index rebuilt. Documents and every
        index structure come back exactly. */
    method Restart()
      requires Valid()
      modifies this, store
      ensures Valid() && Docs() == old(Docs())
      ensures index.State() == old(index.State())
    {
      ghost var before := index.State();
      var lines := Save();
      SaveLoadRoundTrip(lines, Docs());
      var ok := Load(Some(lines));
      RepresentationUnique(before, index.State(), Docs());
    }

    method ApplyAll(ops: seq<ShardOp>)
      requires Valid()
      modifies store, index
      ensures Valid() && Docs() == MutateAll(old(Docs()), ops)
    {
      for i := 0 to |ops|
        invariant Valid() && index == old(index)
        invariant MutateAll(Docs(), ops[i..]) == MutateAll(old(Docs()), ops)
      {
        assert ops[i..][1..] == ops[i + 1..];
        var ok := Apply(ops[i]);
      }
    }
  }

  /** Two shards with different histories that hold the same documents have the same
      index, and either one has the index a rebuild would give. */
  method HistoryIndependence(history: seq<ShardOp>, other: seq<ShardOp>) returns (a: Shard, b: Shard)
    requires MutateAll(map[], history) == MutateAll(map[], other)
    ensures a.Valid() && b.Valid() && a.index.State() == b.index.State()
  {
    a := new Shard();
    a.ApplyAll(history);
    b := new Shard();
    b.ApplyAll(other);
    b.Restart();
    RepresentationUnique(a.index.State(), b.index.State(), a.Docs());
  }
}
