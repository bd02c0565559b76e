/** src/query_processor.cpp: Boolean queries by two-pointer merges over sorted
    identifier lists, specified as set algebra over the indexed documents. */
module Queries {
  import opened Sorting
  import opened Documents
  import opened Tokenizer
  import opened Index

  // ---------------------------------------------------------------------------
  // What a query means
  // ---------------------------------------------------------------------------

  predicate Has(docs: Docs, term: string, id: DocId) {
    id in docs && TermFrequency(docs[id], term) > 0
  }

  ghost predicate HasAll(docs: Docs, terms: set<string>, id: DocId) {
    id in docs && forall t :: t in terms ==> Has(docs, t, id)
  }

  ghost predicate HasAny(docs: Docs, terms: set<string>, id: DocId) {
    exists t :: t in terms && Has(docs, t, id)
  }

  ghost function DocumentsWithAll(docs: Docs, terms: set<string>): set<DocId> {
    set id | id in docs && HasAll(docs, terms, id)
  }

  ghost function DocumentsWithAny(docs: Docs, terms: set<string>): set<DocId> {
    set id | id in docs && HasAny(docs, terms, id)
  }

  ghost predicate Ascending(ids: seq<DocId>) {
    forall i, j :: 0 <= i < j < |ids| ==> ids[i] < ids[j]
  }

  lemma AscendingSnoc(ids: seq<DocId>, id: DocId)
    requires Ascending(ids) && forall x :: x in ids ==> x < id
    ensures Ascending(ids + [id])
  {
    assert forall k :: 0 <= k < |ids| ==> ids[k] in ids;
  }

  // ---------------------------------------------------------------------------
  // Merge primitives
  // ---------------------------------------------------------------------------

  method TwoIntersect(a: seq<DocId>, b: seq<DocId>) returns (result: seq<DocId>)
    requires Ascending(a) && Ascending(b)
    ensures Ascending(result)
    ensures forall x :: x in result <==> x in a && x in b
  {
    result := [];
    var i, j := 0, 0;
    while i < |a| && j < |b|
      invariant i <= |a| && j <= |b|
      invariant Ascending(result)
      invariant forall x :: x in result <==> x in a[..i] && x in b[..j]
      invariant forall x :: x in a[..i] && x in b[j..] ==> false
      invariant forall x :: x in a[i..] && x in b[..j] ==> false
      decreases |a| + |b| - i - j
    {
      assert a[..i + 1] == a[..i] + [a[i]] && b[..j + 1] == b[..j] + [b[j]];
      assert a[i..] == [a[i]] + a[i + 1..] && b[j..] == [b[j]] + b[j + 1..];
      if a[i] == b[j] {
        forall x | x in result ensures x < a[i] {
          var k :| 0 <= k < i && a[k] == x;
        }
        AscendingSnoc(result, a[i]);
        result := result + [a[i]];
        i, j := i + 1, j + 1;
      } else if a[i] < b[j] {
        i := i + 1;
      } else {
        j := j + 1;
      }
    }
    assert a == a[..i] + a[i..] && b == b[..j] + b[j..];
  }

  method TwoUnion(a: seq<DocId>, b: seq<DocId>) returns (result: seq<DocId>)
    requires Ascending(a) && Ascending(b)
    ensures Ascending(result)
    ensures forall x :: x in result <==> x in a || x in b
  {
    result := [];
    var i, j := 0, 0;
    while i < |a| && j < |b|
      invariant i <= |a| && j <= |b|
      invariant Ascending(result)
      invariant forall x :: x in result <==> x in a[..i] || x in b[..j]
      invariant forall x :: x in result ==> (i < |a| ==> x < a[i]) && (j < |b| ==> x < b[j])
      decreases |a| + |b| - i - j
    {
      assert a[..i + 1] == a[..i] + [a[i]] && b[..j + 1] == b[..j] + [b[j]];
      if a[i] == b[j] {
        AscendingSnoc(result, a[i]);
        result := result + [a[i]];
        i, j := i + 1, j + 1;
      } else if a[i] < b[j] {
        AscendingSnoc(result, a[i]);
        result := result + [a[i]];
        i := i + 1;
      } else {
        AscendingSnoc(result, b[j]);
        result := result + [b[j]];
        j := j + 1;
      }
    }
    while i < |a|
      invariant i <= |a| && (i < |a| ==> j == |b|)
      invariant Ascending(result)
      invariant forall x :: x in result <==> x in a[..i] || x in b[..j]
      invariant forall x :: x in result ==> (i < |a| ==> x < a[i]) && (j < |b| ==> x < b[j])
    {
      assert a[..i + 1] == a[..i] + [a[i]];
      AscendingSnoc(result, a[i]);
      result := result + [a[i]];
      i := i + 1;
    }
    while j < |b|
      invariant i == |a| && j <= |b|
      invariant Ascending(result)
      invariant forall x :: x in result <==> x in a[..i] || x in b[..j]
      invariant forall x :: x in result ==> j < |b| ==> x < b[j]
    {
      assert b[..j + 1] == b[..j] + [b[j]];
      AscendingSnoc(result, b[j]);
      result := result + [b[j]];
      j := j + 1;
    }
    assert a[..i] == a && b[..j] == b;
  }

  /** The identifiers of a postings list: strictly ascending, and exactly the
      documents that contain the term. */
  method ProjectIds(ps: seq<Posting>, ghost docs: Docs, ghost term: string) returns (ids: seq<DocId>)
    requires ps == PostingsFor(docs, term)
    ensures Ascending(ids) && |ids| == |ps|
    ensures forall x :: x in ids <==> Has(docs, term, x)
  {
    ids := seq(|ps|, i requires 0 <= i < |ps| => ps[i].id);
    assert forall i, j :: 0 <= i < j < |ps| ==> IdBefore(ps[i], ps[j]);
    forall x ensures x in ids <==> Has(docs, term, x) {
      PostingsPointwise(docs, term, x);
      if x in ids {
        var k :| 0 <= k < |ids| && ids[k] == x;
        assert ps[k] in ps;
      }
      if Has(docs, term, x) {
        var k :| 0 <= k < |ps| && ps[k] == Entry(docs, term, x);
        assert ids[k] == x;
      }
    }
  }

  // ---------------------------------------------------------------------------
  // Term preparation
  // ---------------------------------------------------------------------------

  /** `std::string` order. */
  predicate AtMost(a: string, b: string) {
    a == "" || (b != "" && (a[0] < b[0] || (a[0] == b[0] && AtMost(a[1..], b[1..]))))
  }

  lemma {:induction false} AtMostTotal(a: string, b: string)
    ensures AtMost(a, b) || AtMost(b, a)
    ensures AtMost(a, b) && AtMost(b, a) ==> a == b
  {
    if a != "" && b != "" {
      AtMostTotal(a[1..], b[1..]);
      assert a == [a[0]] + a[1..] && b == [b[0]] + b[1..];
    }
  }

  lemma {:induction false} AtMostTransitive(a: string, b: string, c: string)
    requires AtMost(a, b) && AtMost(b, c)
    ensures AtMost(a, c)
  {
    if a != "" && a[0] == b[0] == c[0] {
      AtMostTransitive(a[1..], b[1..], c[1..]);
    }
  }

  lemma AtMostIsPreorder()
    ensures TotalPreorder(AtMost)
  {
    forall a, b ensures AtMost(a, b) || AtMost(b, a) { AtMostTotal(a, b); }
    forall a, b, c | AtMost(a, b) && AtMost(b, c) ensures AtMost(a, c) { AtMostTransitive(a, b, c); }
  }

  predicate Less(a: string, b: string) {
    AtMost(a, b) && a != b
  }

  lemma LessSnoc(terms: seq<string>, y: string)
    requires SortedBy(terms, Less)
    requires terms != [] ==> Less(terms[|terms| - 1], y)
    ensures SortedBy(terms + [y], Less)
  {
    forall k | 0 <= k < |terms| ensures Less(terms[k], y) {
      var last := terms[|terms| - 1];
      if k < |terms| - 1 {
        assert Less(terms[k], last);
        AtMostTransitive(terms[k], last, y);
        AtMostTotal(last, y);
      }
    }
  }

  lemma LastIsGreatest(sorted: seq<string>, i: nat)
    requires SortedBy(sorted, AtMost) && 0 < i < |sorted|
    ensures AtMost(sorted[i - 1], sorted[i])
  {
  }

  /** Sort then drop adjacent duplicates: each distinct term once, in order. */
  method DedupTerms(tokens: seq<string>) returns (terms: seq<string>)
    ensures SortedBy(terms, Less)
    ensures forall t :: t in terms <==> t in tokens
  {
    AtMostIsPreorder();
    var sorted := Sort(tokens, AtMost);
    SameMultisetSameElements(sorted, tokens);
    terms := [];
    for i := 0 to |sorted|
      invariant SortedBy(terms, Less)
      invariant forall t :: t in terms <==> t in sorted[..i]
      invariant terms == [] <==> i == 0
      invariant terms != [] ==> terms[|terms| - 1] == sorted[i - 1]
    {
      assert sorted[..i + 1] == sorted[..i] + [sorted[i]];
      if terms == [] || terms[|terms| - 1] != sorted[i] {
        if i > 0 { LastIsGreatest(sorted, i); }
        LessSnoc(terms, sorted[i]);
        terms := terms + [sorted[i]];
      }
    }
    assert sorted[..|sorted|] == sorted;
  }

  // ---------------------------------------------------------------------------
  // Queries
  // ---------------------------------------------------------------------------

  datatype Sized = Sized(size: nat, term: string)

  predicate SizeThenTerm(a: Sized, b: Sized) {
    a.size < b.size || (a.size == b.size && AtMost(a.term, b.term))
  }

  lemma SizeThenTermIsPreorder()
    ensures TotalPreorder(SizeThenTerm)
  {
    forall a, b ensures SizeThenTerm(a, b) || SizeThenTerm(b, a) { AtMostTotal(a.term, b.term); }
    forall a, b, c | SizeThenTerm(a, b) && SizeThenTerm(b, c) ensures SizeThenTerm(a, c) {
      if a.size == b.size == c.size { AtMostTransitive(a.term, b.term, c.term); }
    }
  }

  /** Terms paired with the length of their lists, smallest list first. */
  lemma SameTerms(ranked: seq<Sized>, sorted: seq<Sized>, terms: seq<string>, order: seq<string>)
    requires |ranked| == |terms| && forall k :: 0 <= k < |terms| ==> ranked[k].term == terms[k]
    requires |order| == |sorted| && forall k :: 0 <= k < |order| ==> order[k] == sorted[k].term
    requires forall r :: r in sorted <==> r in ranked
    ensures forall t :: t in order <==> t in terms
  {
    forall t ensures t in order <==> t in terms {
      if t in order {
        var k :| 0 <= k < |order| && order[k] == t;
        assert sorted[k] in ranked;
      }
      if t in terms {
        var k :| 0 <= k < |terms| && terms[k] == t;
        assert ranked[k] in sorted;
        var m :| 0 <= m < |sorted| && sorted[m] == ranked[k];
        assert order[m] == t;
      }
    }
  }

  method SmallestFirst(index: InvertedIndex, terms: seq<string>) returns (order: seq<string>)
    requires index.Valid()
    ensures |order| == |terms| && forall t :: t in order <==> t in terms
    ensures forall i, j :: 0 <= i < j < |order| ==>
              DocumentFrequency(index.docs, order[i]) <= DocumentFrequency(index.docs, order[j])
  {
    var ranked: seq<Sized> := [];
    for i := 0 to |terms|
      invariant |ranked| == i && forall k :: 0 <= k < i ==> ranked[k].term == terms[k]
      invariant forall r :: r in ranked ==> r.size == DocumentFrequency(index.docs, r.term)
    {
      var ps := index.Postings(terms[i]);
      ranked := ranked + [Sized(|ps|, terms[i])];
    }
    SizeThenTermIsPreorder();
    var sorted := Sort(ranked, SizeThenTerm);
    SameMultisetSameElements(ranked, sorted);
    order := seq(|sorted|, i requires 0 <= i < |sorted| => sorted[i].term);
    assert forall i :: 0 <= i < |sorted| ==> sorted[i] in ranked;
    SameTerms(ranked, sorted, terms, order);
  }

  /** Fold pairwise intersections along any order of the terms. */
  method IntersectAll(index: InvertedIndex, order: seq<string>) returns (result: seq<DocId>)
    requires index.Valid() && order != []
    ensures Ascending(result)
    ensures forall x :: x in result <==> forall t :: t in order ==> Has(index.docs, t, x)
  {
    var first := index.Postings(order[0]);
    result := ProjectIds(first, index.docs, order[0]);
    if result == [] {
      assert order[0] in order;
      return;
    }
    for k := 1 to |order|
      invariant Ascending(result)
      invariant forall x :: x in result <==> forall t :: t in order[..k] ==> Has(index.docs, t, x)
    {
      assert order[..k + 1] == order[..k] + [order[k]];
      var next := index.Postings(order[k]);
      var ids := ProjectIds(next, index.docs, order[k]);
      result := TwoIntersect(result, ids);
      if result == [] {
        assert forall t :: t in order[..k + 1] ==> t in order;
        return;
      }
    }
    assert order[..|order|] == order;
  }

  method AndQuery(index: InvertedIndex, query: string) returns (result: seq<DocId>)
    requires index.Valid()
    ensures Ascending(result)
    ensures Elements(result)
         == if Tokenize(query) == [] then {} else DocumentsWithAll(index.docs, DistinctTerms(query))
  {
    var tokens := TokenizeLoop(query);
    if tokens == [] {
      return [];
    }
    var terms := DedupTerms(tokens);
    assert tokens[0] in terms;
    var order := SmallestFirst(index, terms);
    result := IntersectAll(index, order);
    assert order[0] in order;
    forall x ensures x in result <==> x in DocumentsWithAll(index.docs, DistinctTerms(query)) {
      assert x in result ==> Has(index.docs, order[0], x);
    }
  }

  method OrQuery(index: InvertedIndex, query: string) returns (result: seq<DocId>)
    requires index.Valid()
    ensures Ascending(result)
    ensures Elements(result) == DocumentsWithAny(index.docs, DistinctTerms(query))
  {
    var tokens := TokenizeLoop(query);
    if tokens == [] {
      return [];
    }
    var terms := DedupTerms(tokens);
    assert tokens[0] in terms;
    var first := index.Postings(terms[0]);
    result := ProjectIds(first, index.docs, terms[0]);
    for k := 1 to |terms|
      invariant Ascending(result)
      invariant forall x :: x in result <==> exists t :: t in terms[..k] && Has(index.docs, t, x)
    {
      assert terms[..k + 1] == terms[..k] + [terms[k]];
      var next := index.Postings(terms[k]);
      var ids := ProjectIds(next, index.docs, terms[k]);
      result := TwoUnion(result, ids);
    }
    assert terms[..|terms|] == terms;
    forall x ensures x in result <==> x in DocumentsWithAny(index.docs, DistinctTerms(query)) {
      assert HasAny(index.docs, DistinctTerms(query), x) <==> exists t :: t in terms && Has(index.docs, t, x);
    }
  }
}
