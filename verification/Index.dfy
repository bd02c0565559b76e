/** src/inverted_index.cpp: four structures updated in step, specified by the
    collection of documents they index. */
module Index {
  import opened Documents
  import opened Sorting
  import opened Tokenizer

  datatype Posting = Posting(id: DocId, tf: nat)

  ghost predicate IdBefore(a: Posting, b: Posting) { a.id < b.id }

  /** What document `id` contributes to the list of `term`. */
  function Entry(docs: Docs, term: string, id: DocId): Posting
    requires id in docs
  {
    Posting(id, TermFrequency(docs[id], term))
  }

  ghost function Matching(docs: Docs, term: string): set<Posting> {
    set id | id in docs && TermFrequency(docs[id], term) > 0 :: Entry(docs, term, id)
  }

  /** `ps` is the strictly id-sorted list of exactly the documents containing `term`,
      each with its exact number of occurrences. */
  ghost predicate IsPostings(ps: seq<Posting>, docs: Docs, term: string) {
    SortedBy(ps, IdBefore) && Elements(ps) == Matching(docs, term)
  }

  lemma PostingsUnique(a: seq<Posting>, b: seq<Posting>, docs: Docs, term: string)
    requires IsPostings(a, docs, term) && IsPostings(b, docs, term)
    ensures a == b
  {
    StrictlySortedUnique(a, b, IdBefore);
  }

  /** The list, read pointwise. */
  lemma PostingsPointwise(docs: Docs, term: string, id: DocId)
    ensures forall p :: p in PostingsFor(docs, term) && p.id == id ==>
              id in docs && p.tf == TermFrequency(docs[id], term) > 0
    ensures id in docs && TermFrequency(docs[id], term) > 0 ==>
              Entry(docs, term, id) in PostingsFor(docs, term)
  {
    var ps := PostingsFor(docs, term);
    forall p | p in ps && p.id == id
      ensures id in docs && p.tf == TermFrequency(docs[id], term) > 0
    {
      assert p in Elements(ps);
    }
    if id in docs && TermFrequency(docs[id], term) > 0 {
      assert Entry(docs, term, id) in Elements(ps);
    }
  }

  lemma MatchingPlus(docs: Docs, id: DocId, text: string, term: string)
    requires id !in docs
    ensures Matching(docs[id := text], term)
         == if TermFrequency(text, term) > 0 then Matching(docs, term) + {Posting(id, TermFrequency(text, term))}
            else Matching(docs, term)
  {
    var docs' := docs[id := text];
    assert forall x :: x in docs ==> Entry(docs, term, x) == Entry(docs', term, x);
    assert Entry(docs', term, id) == Posting(id, TermFrequency(text, term));
  }

  lemma AppendedEntry(rest: seq<Posting>, docs: Docs, last: DocId, term: string)
    requires last in docs && forall id :: id in docs ==> id <= last
    requires IsPostings(rest, docs - {last}, term)
    ensures IsPostings(
              if TermFrequency(docs[last], term) > 0 then rest + [Entry(docs, term, last)] else rest,
              docs, term)
  {
    var e := Entry(docs, term, last);
    MatchingPlus(docs - {last}, last, docs[last], term);
    assert (docs - {last})[last := docs[last]] == docs;
    forall k | 0 <= k < |rest| ensures IdBefore(rest[k], e) {
      assert rest[k] in Elements(rest);
    }
    SplicedIn(rest, |rest|, e);
    assert rest[..|rest|] + [e] + rest[|rest|..] == rest + [e];
  }

  lemma {:induction false} PostingsExist(docs: Docs, term: string)
    ensures exists ps :: IsPostings(ps, docs, term)
    decreases |docs|
  {
    if docs == map[] {
      assert IsPostings([], docs, term);
    } else {
      var last := Greatest(docs.Keys);
      assert (docs - {last}).Keys == docs.Keys - {last};
      PostingsExist(docs - {last}, term);
      var rest :| IsPostings(rest, docs - {last}, term);
      AppendedEntry(rest, docs, last, term);
    }
  }

  /** The simple thing the index speeds up: read every document and count. */
  ghost function PostingsFor(docs: Docs, term: string): (ps: seq<Posting>)
    ensures IsPostings(ps, docs, term)
  {
    PostingsExist(docs, term);
    var ps :| IsPostings(ps, docs, term);
    ps
  }

  ghost predicate IsGreatest(ids: set<DocId>, m: DocId) {
    m in ids && forall id :: id in ids ==> id <= m
  }

  ghost function Greatest(ids: set<DocId>): (m: DocId)
    requires ids != {}
    ensures IsGreatest(ids, m)
  {
    GreatestExists(ids);
    var m: DocId :| IsGreatest(ids, m);
    m
  }

  lemma {:induction false} GreatestExists(ids: set<DocId>)
    requires ids != {}
    ensures exists m: DocId :: IsGreatest(ids, m)
  {
    var x: DocId :| x in ids;
    if ids == {x} {
      assert IsGreatest(ids, x);
    } else {
      GreatestExists(ids - {x});
      var m: DocId :| IsGreatest(ids - {x}, m);
      assert forall id :: id in ids ==> id == x || id in ids - {x};
      assert IsGreatest(ids, if x < m then m else x);
    }
  }

  /** The number of documents that contain the term. */
  ghost function DocumentFrequency(docs: Docs, term: string): nat {
    |PostingsFor(docs, term)|
  }

  // ---------------------------------------------------------------------------
  // Representation
  // ---------------------------------------------------------------------------

  datatype IndexState = IndexState(
    postings: map<string, seq<Posting>>,
    documents: set<DocId>,
    docTerms: map<DocId, set<string>>,
    count: nat)

  function Lookup(postings: map<string, seq<Posting>>, term: string): seq<Posting> {
    if term in postings then postings[term] else []
  }

  /** The entry for one term is exact, and there is no entry for an empty list. */
  ghost predicate ListsTerm(postings: map<string, seq<Posting>>, docs: Docs, term: string) {
    && Lookup(postings, term) == PostingsFor(docs, term)
    && (term in postings ==> postings[term] != [])
  }

  ghost predicate ListsAll(postings: map<string, seq<Posting>>, docs: Docs) {
    forall term :: ListsTerm(postings, docs, term)
  }

  /** The reverse map: only documents that have terms appear in it. */
  ghost function TermsByDocument(docs: Docs): map<DocId, set<string>> {
    map id | id in docs && DistinctTerms(docs[id]) != {} :: DistinctTerms(docs[id])
  }

  /** `doc_terms_[id].insert(term)`. */
  function AddTerm(m: map<DocId, set<string>>, id: DocId, term: string): map<DocId, set<string>> {
    m[id := (if id in m then m[id] else {}) + {term}]
  }

  /** The reverse map once `terms` have been recorded for a new document. */
  ghost function WithTerms(m: map<DocId, set<string>>, id: DocId, terms: set<string>): map<DocId, set<string>> {
    if terms == {} then m else m[id := terms]
  }

  lemma WithOneMore(m: map<DocId, set<string>>, id: DocId, terms: set<string>, term: string)
    requires id !in m
    ensures AddTerm(WithTerms(m, id, terms), id, term) == WithTerms(m, id, terms + {term})
  {
  }

  lemma TermsPlus(docs: Docs, id: DocId, text: string)
    requires id !in docs
    ensures TermsByDocument(docs[id := text]) == WithTerms(TermsByDocument(docs), id, DistinctTerms(text))
    ensures TermsByDocument(docs) == TermsByDocument(docs[id := text]) - {id}
    ensures id in TermsByDocument(docs[id := text]) <==> DistinctTerms(text) != {}
  {
  }

  ghost predicate Represents(ix: IndexState, docs: Docs) {
    && ListsAll(ix.postings, docs)
    && ix.documents == docs.Keys
    && ix.docTerms == TermsByDocument(docs)
    && ix.count == |docs|
  }

  lemma EmptyIndex()
    ensures Represents(IndexState(map[], {}, map[], 0), map[])
  {
    var none: Docs := map[];
    forall t: string ensures ListsTerm(map[], none, t) {
      var ps := PostingsFor(none, t);
      assert Matching(none, t) == {};
      ElementsEmpty(ps);
    }
    assert TermsByDocument(none) == map[];
  }

  /** History independence: the documents determine the whole index, vocabulary
      included, so no mutation history or rebuild order can be observed. */
  lemma RepresentationUnique(a: IndexState, b: IndexState, docs: Docs)
    requires Represents(a, docs) && Represents(b, docs)
    ensures a == b
  {
    forall term ensures (term in a.postings <==> term in b.postings)
      && (term in a.postings ==> a.postings[term] == b.postings[term])
    {
      assert ListsTerm(a.postings, docs, term) && ListsTerm(b.postings, docs, term);
    }
    assert a.postings == b.postings;
  }

  // ---------------------------------------------------------------------------
  // How one document changes one list
  // ---------------------------------------------------------------------------

  lemma InsertedPosting(ps: seq<Posting>, pos: nat, docs: Docs, id: DocId, text: string, term: string)
    requires ps == PostingsFor(docs, term) && id !in docs && TermFrequency(text, term) > 0
    requires pos <= |ps|
    requires forall k :: 0 <= k < pos ==> ps[k].id < id
    requires forall k :: pos <= k < |ps| ==> id <= ps[k].id
    ensures ps[..pos] + [Posting(id, TermFrequency(text, term))] + ps[pos..]
         == PostingsFor(docs[id := text], term)
  {
    var p := Posting(id, TermFrequency(text, term));
    var after := ps[..pos] + [p] + ps[pos..];
    forall k | 0 <= k < |ps| ensures ps[k].id != id {
      assert ps[k] in Elements(ps);
    }
    SplicedIn(ps, pos, p);
    MatchingPlus(docs, id, text, term);
    PostingsUnique(after, PostingsFor(docs[id := text], term), docs[id := text], term);
  }

  lemma ErasedPosting(ps: seq<Posting>, pos: nat, docs: Docs, id: DocId, term: string)
    requires ps == PostingsFor(docs, term)
    requires pos < |ps| && ps[pos].id == id
    ensures ps[..pos] + ps[pos + 1..] == PostingsFor(docs - {id}, term)
  {
    var after := ps[..pos] + ps[pos + 1..];
    PostingsPointwise(docs, term, id);
    assert forall i, j :: 0 <= i < j < |ps| ==> IdBefore(ps[i], ps[j]);
    SplicedOut(ps, pos);
    MatchingPlus(docs - {id}, id, docs[id], term);
    assert (docs - {id})[id := docs[id]] == docs;
    assert Entry(docs, term, id) !in Matching(docs - {id}, term);
    PostingsUnique(after, PostingsFor(docs - {id}, term), docs - {id}, term);
  }

  /** Terms a document does not contain do not see it come or go. */
  lemma UnaffectedPostings(docs: Docs, id: DocId, text: string, term: string)
    requires id !in docs && TermFrequency(text, term) == 0
    ensures PostingsFor(docs, term) == PostingsFor(docs[id := text], term)
  {
    MatchingPlus(docs, id, text, term);
    PostingsUnique(PostingsFor(docs, term), PostingsFor(docs[id := text], term), docs, term);
  }

  // ---------------------------------------------------------------------------
  // A mutation halfway: the terms in `done` already reflect docs', the others docs
  // ---------------------------------------------------------------------------

  ghost predicate Halfway(postings: map<string, seq<Posting>>, docs: Docs, docs': Docs, done: set<string>) {
    forall t :: ListsTerm(postings, if t in done then docs' else docs, t)
  }

  lemma HalfwayStart(postings: map<string, seq<Posting>>, docs: Docs, docs': Docs)
    requires ListsAll(postings, docs)
    ensures Halfway(postings, docs, docs', {})
  {
    var none: set<string> := {};
    forall t: string ensures ListsTerm(postings, if t in none then docs' else docs, t) {
      assert ListsTerm(postings, docs, t);
    }
  }

  /** Storing the new list of one more term, or dropping it when it is empty. */
  lemma HalfwayStep(postings: map<string, seq<Posting>>, postings': map<string, seq<Posting>>,
                    docs: Docs, docs': Docs, done: set<string>, term: string)
    requires Halfway(postings, docs, docs', done)
    requires postings' - {term} == postings - {term}
    requires ListsTerm(postings', docs', term)
    ensures Halfway(postings', docs, docs', done + {term})
  {
    forall t ensures ListsTerm(postings', if t in done + {term} then docs' else docs, t) {
      if t != term {
        assert ListsTerm(postings, if t in done then docs' else docs, t);
        assert t in postings' <==> t in postings' - {term};
        assert t in postings <==> t in postings - {term};
        if t in postings {
          assert postings'[t] == (postings' - {term})[t] == (postings - {term})[t] == postings[t];
        }
      }
    }
  }

  lemma HalfwayDone(postings: map<string, seq<Posting>>, docs: Docs, id: DocId, text: string, docs': Docs)
    requires id !in docs && docs' == docs[id := text]
    ensures Halfway(postings, docs, docs', DistinctTerms(text)) ==> ListsAll(postings, docs')
    ensures Halfway(postings, docs', docs, DistinctTerms(text)) ==> ListsAll(postings, docs)
  {
    forall t ensures t !in DistinctTerms(text) ==> PostingsFor(docs, t) == PostingsFor(docs', t) {
      HasTermIff(text, t);
      if t !in DistinctTerms(text) { UnaffectedPostings(docs, id, text, t); }
    }
    if Halfway(postings, docs, docs', DistinctTerms(text)) {
      forall t ensures ListsTerm(postings, docs', t) {
        assert ListsTerm(postings, if t in DistinctTerms(text) then docs' else docs, t);
      }
    }
    if Halfway(postings, docs', docs, DistinctTerms(text)) {
      forall t ensures ListsTerm(postings, docs, t) {
        assert ListsTerm(postings, if t in DistinctTerms(text) then docs else docs', t);
      }
    }
  }

  lemma NothingToErase(postings: map<string, seq<Posting>>, docs: Docs, id: DocId)
    requires ListsAll(postings, docs) && id in docs && DistinctTerms(docs[id]) == {}
    ensures ListsAll(postings, docs - {id})
  {
    assert (docs - {id})[id := docs[id]] == docs;
    HalfwayStart(postings, docs, docs - {id});
    HalfwayDone(postings, docs - {id}, id, docs[id], docs);
  }

  lemma ReadyToAdd(ix: IndexState, docs: Docs, id: DocId)
    requires Represents(ix, docs) && id !in docs
    ensures ListsAll(ix.postings, docs) && id !in ix.docTerms
  {
    hide ListsAll;
  }

  lemma Added(ix: IndexState, docs: Docs, id: DocId, text: string, ix': IndexState)
    requires Represents(ix, docs) && id !in docs
    requires ListsAll(ix'.postings, docs[id := text])
    requires ix'.docTerms == WithTerms(ix.docTerms, id, DistinctTerms(text))
    requires ix'.documents == ix.documents + {id} && ix'.count == ix.count + 1
    ensures Represents(ix', docs[id := text])
  {
    hide ListsAll, TermsByDocument, WithTerms;
    TermsPlus(docs, id, text);
    assert docs[id := text].Keys == docs.Keys + {id};
  }

  lemma ReverseEntry(docs: Docs, id: DocId)
    requires id in docs
    ensures id in TermsByDocument(docs) <==> DistinctTerms(docs[id]) != {}
    ensures id in TermsByDocument(docs) ==> TermsByDocument(docs)[id] == DistinctTerms(docs[id])
    ensures TermsByDocument(docs - {id}) == TermsByDocument(docs) - {id}
  {
  }

  lemma Removed(ix: IndexState, docs: Docs, id: DocId, ix': IndexState)
    requires Represents(ix, docs) && id in docs
    requires ListsAll(ix'.postings, docs - {id})
    requires ix'.docTerms == ix.docTerms - {id} || (ix'.docTerms == ix.docTerms && id !in ix.docTerms)
    requires ix'.documents == ix.documents - {id} && ix'.count == ix.count - 1
    ensures Represents(ix', docs - {id})
  {
    hide ListsAll, TermsByDocument;
    ReverseEntry(docs, id);
    assert (docs - {id}).Keys == docs.Keys - {id};
    if id !in ix.docTerms { assert ix.docTerms - {id} == ix.docTerms; }
  }

  // ---------------------------------------------------------------------------
  // The class
  // ---------------------------------------------------------------------------

  /** `std::lower_bound` on a postings list. */
  method LowerBound(list: seq<Posting>, id: DocId) returns (pos: nat)
    requires SortedBy(list, IdBefore)
    ensures pos <= |list|
    ensures forall k :: 0 <= k < pos ==> list[k].id < id
    ensures forall k :: pos <= k < |list| ==> id <= list[k].id
  {
    pos := 0;
    var high := |list|;
    while pos < high
      invariant 0 <= pos <= high <= |list|
      invariant forall k :: 0 <= k < pos ==> list[k].id < id
      invariant forall k :: high <= k < |list| ==> id <= list[k].id
    {
      var mid := (pos + high) / 2;
      assert forall k :: 0 <= k < mid ==> IdBefore(list[k], list[mid]);
      assert forall k :: mid < k < |list| ==> IdBefore(list[mid], list[k]);
      if list[mid].id < id { pos := mid + 1; } else { high := mid; }
    }
  }

  /** An entry that is in the list is where the binary search looks. */
  lemma FoundAt(list: seq<Posting>, pos: nat, p: Posting)
    requires SortedBy(list, IdBefore) && p in list && pos <= |list|
    requires forall k :: 0 <= k < pos ==> list[k].id < p.id
    requires forall k :: pos <= k < |list| ==> p.id <= list[k].id
    ensures pos < |list| && list[pos] == p
  {
    var k :| 0 <= k < |list| && list[k] == p;
    assert pos < k ==> IdBefore(list[pos], list[k]);
  }

  ghost predicate AreCounts(counts: map<string, nat>, tokens: seq<string>) {
    && (forall t :: t in counts <==> t in tokens)
    && (forall t :: t in counts ==> counts[t] == multiset(tokens)[t])
  }

  method CountTokens(tokens: seq<string>) returns (counts: map<string, nat>)
    ensures AreCounts(counts, tokens)
  {
    counts := map[];
    for i := 0 to |tokens|
      invariant AreCounts(counts, tokens[..i])
    {
      var t := tokens[i];
      assert tokens[..i + 1][..i] == tokens[..i];
      assert tokens[..i + 1] == tokens[..i] + [t];
      counts := counts[t := (if t in counts then counts[t] else 0) + 1];
    }
    assert tokens[..|tokens|] == tokens;
  }

  class InvertedIndex {
    var postingsByTerm: map<string, seq<Posting>>
    var documents: set<DocId>
    var docTerms: map<DocId, set<string>>
    var documentCount: nat
    ghost var docs: Docs

    ghost function State(): IndexState
      reads this
    {
      IndexState(postingsByTerm, documents, docTerms, documentCount)
    }

    ghost predicate Valid()
      reads this
    {
      Represents(State(), docs)
    }

    constructor ()
      ensures Valid() && docs == map[]
    {
      postingsByTerm, documents, docTerms, documentCount := map[], {}, map[], 0;
      docs := map[];
      new;
      EmptyIndex();
    }

    /** One turn of the loop of `AddDocument`: merge the posting of one term. */
    method MergePosting(id: DocId, text: string, term: string, tf: nat, ghost docs': Docs, ghost done: set<string>)
      requires id !in docs && docs' == docs[id := text]
      requires tf == TermFrequency(text, term) > 0 && term !in done
      requires Halfway(postingsByTerm, docs, docs', done)
      modifies this`postingsByTerm, this`docTerms
      ensures Halfway(postingsByTerm, docs, docs', done + {term})
      ensures docTerms == AddTerm(old(docTerms), id, term)
    {
      ghost var before := postingsByTerm;
      assert ListsTerm(before, if term in done then docs' else docs, term);
      var list := Lookup(postingsByTerm, term);
      var pos := LowerBound(list, id);
      InsertedPosting(list, pos, docs, id, text, term);
      postingsByTerm := postingsByTerm[term := list[..pos] + [Posting(id, tf)] + list[pos..]];
      HalfwayStep(before, postingsByTerm, docs, docs', done, term);
      docTerms := AddTerm(docTerms, id, term);
    }

    /** The loop of `AddDocument`, over the aggregated counts in any order. */
    method MergeAll(id: DocId, text: string, counts: map<string, nat>, ghost docs': Docs)
      requires ListsAll(postingsByTerm, docs) && id !in docTerms
      requires id !in docs && docs' == docs[id := text]
      requires AreCounts(counts, Tokenize(text))
      modifies this`postingsByTerm, this`docTerms
      ensures ListsAll(postingsByTerm, docs')
      ensures docTerms == WithTerms(old(docTerms), id, DistinctTerms(text))
    {
      HalfwayStart(postingsByTerm, docs, docs');
      var remaining, merged := counts.Keys, {};
      while remaining != {}
        invariant merged !! remaining && merged + remaining == counts.Keys
        invariant Halfway(postingsByTerm, docs, docs', merged)
        invariant docTerms == WithTerms(old(docTerms), id, merged)
        decreases remaining
      {
        var term :| term in remaining;
        CountPositiveIff(term, Tokenize(text));
        WithOneMore(old(docTerms), id, merged, term);
        CountIsMultiplicity(term, Tokenize(text));
        CountPositiveIff(term, Tokenize(text));
        MergePosting(id, text, term, counts[term], docs', merged);
        merged, remaining := merged + {term}, remaining - {term};
      }
      assert merged == DistinctTerms(text);
      HalfwayDone(postingsByTerm, docs, id, text, docs');
    }

    /** Each identifier is added at most once: the contract of the source. */
    method AddDocument(id: DocId, text: string)
      requires Valid() && id !in docs
      modifies this
      ensures Valid() && docs == old(docs)[id := text]
    {
      hide Represents, ListsAll;
      ghost var before := State();
      ReadyToAdd(before, docs, id);
      documents := documents + {id};
      var tokens := TokenizeLoop(text);
      var counts := CountTokens(tokens);
      MergeAll(id, text, counts, docs[id := text]);
      documentCount := documentCount + 1;
      Added(before, docs, id, text, State());
      docs := docs[id := text];
    }

    /** One turn of the loop of `RemoveDocument`: erase the posting of one term. */
    method ErasePosting(id: DocId, term: string, ghost docs': Docs, ghost done: set<string>)
      requires id in docs && docs' == docs - {id}
      requires term in DistinctTerms(docs[id]) && term !in done
      requires Halfway(postingsByTerm, docs, docs', done)
      modifies this`postingsByTerm
      ensures Halfway(postingsByTerm, docs, docs', done + {term})
    {
      ghost var before := postingsByTerm;
      assert ListsTerm(before, if term in done then docs' else docs, term);
      HasTermIff(docs[id], term);
      PostingsPointwise(docs, term, id);
      if term in postingsByTerm {
        var list := postingsByTerm[term];
        var pos := LowerBound(list, id);
        FoundAt(list, pos, Entry(docs, term, id));
        if pos < |list| && list[pos].id == id {
          ErasedPosting(list, pos, docs, id, term);
          list := list[..pos] + list[pos + 1..];
        }
        if list == [] {
          postingsByTerm := postingsByTerm - {term};
        } else {
          postingsByTerm := postingsByTerm[term := list];
        }
      }
      HalfwayStep(before, postingsByTerm, docs, docs', done, term);
    }

    /** The loop of `RemoveDocument`, over the reverse map's entry in any order. */
    method EraseAll(id: DocId, terms: set<string>, ghost docs': Docs)
      requires ListsAll(postingsByTerm, docs)
      requires id in docs && docs' == docs - {id} && terms == DistinctTerms(docs[id])
      modifies this`postingsByTerm
      ensures ListsAll(postingsByTerm, docs')
    {
      HalfwayStart(postingsByTerm, docs, docs');
      var remaining, erased := terms, {};
      while remaining != {}
        invariant erased !! remaining && erased + remaining == terms
        invariant Halfway(postingsByTerm, docs, docs', erased)
        decreases remaining
      {
        var term :| term in remaining;
        ErasePosting(id, term, docs', erased);
        erased, remaining := erased + {term}, remaining - {term};
      }
      assert docs'[id := docs[id]] == docs;
      assert erased == terms;
      HalfwayDone(postingsByTerm, docs', id, docs[id], docs);
    }

    method RemoveDocument(id: DocId) returns (found: bool)
      requires Valid()
      modifies this
      ensures Valid()
      ensures found == (id in old(docs))
      ensures docs == old(docs) - {id}
    {
      if id !in documents {
        assert docs - {id} == docs;
        return false;
      }
      ghost var docs', before := docs - {id}, State();
      ReverseEntry(docs, id);
      if id in docTerms {
        EraseAll(id, docTerms[id], docs');
        docTerms := docTerms - {id};
      } else {
        NothingToErase(postingsByTerm, docs, id);
      }
      documents := documents - {id};
      documentCount := documentCount - 1;
      Removed(before, docs, id, State());
      docs := docs';
      found := true;
    }

    method Postings(term: string) returns (ps: seq<Posting>)
      requires Valid()
      ensures ps == PostingsFor(docs, term)
    {
      assert ListsTerm(postingsByTerm, docs, term);
      ps := if term in postingsByTerm then postingsByTerm[term] else [];
    }

    method DocumentCount() returns (n: nat)
      requires Valid()
      ensures n == |docs|
    {
      n := documentCount;
    }

    /** Removing what was just added restores every structure, not only the documents. */
    method AddThenRemove(id: DocId, text: string)
      requires Valid() && id !in docs
      modifies this
      ensures Valid() && State() == old(State())
    {
      ghost var before, docsBefore := State(), docs;
      AddDocument(id, text);
      var found := RemoveDocument(id);
      assert docs == docsBefore;
      RepresentationUnique(State(), before, docs);
    }
  }
}
