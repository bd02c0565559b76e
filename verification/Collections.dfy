/** A collection split into shards by a routing function, and how lists and counts of
    the parts make up those of the whole. */
module Collections {
  import opened Sorting
  import opened Documents
  import opened Index
  import opened Ranking

  /** Every document sits in the shard its identifier routes to. */
  ghost predicate Routed(shards: seq<Docs>, route: DocId -> nat) {
    forall sid: nat, id: DocId :: sid < |shards| && id in shards[sid] ==> route(id) == sid
  }

  ghost function Collection(shards: seq<Docs>): Docs {
    if shards == [] then map[]
    else Collection(shards[..|shards| - 1]) + shards[|shards| - 1]
  }

  lemma {:induction false} CollectionPointwise(shards: seq<Docs>, route: DocId -> nat, id: DocId)
    requires Routed(shards, route)
    ensures id in Collection(shards) <==> route(id) < |shards| && id in shards[route(id)]
    ensures id in Collection(shards) ==> Collection(shards)[id] == shards[route(id)][id]
  {
    if shards != [] {
      var n := |shards| - 1;
      RoutedPrefix(shards, n, route);
      CollectionPointwise(shards[..n], route, id);
      assert id in shards[n] ==> route(id) == n;
    }
  }

  lemma RoutedPrefix(shards: seq<Docs>, n: nat, route: DocId -> nat)
    requires n <= |shards| && Routed(shards, route)
    ensures Routed(shards[..n], route)
  {
  }

  lemma PartsDisjoint(shards: seq<Docs>, route: DocId -> nat)
    requires shards != [] && Routed(shards, route)
    ensures Collection(shards[..|shards| - 1]).Keys !! shards[|shards| - 1].Keys
  {
    var n := |shards| - 1;
    RoutedPrefix(shards, n, route);
    forall id: DocId ensures !(id in Collection(shards[..n]) && id in shards[n]) {
      CollectionPointwise(shards[..n], route, id);
    }
  }

  function Sum(counts: seq<nat>): nat {
    if counts == [] then 0 else Sum(counts[..|counts| - 1]) + counts[|counts| - 1]
  }

  ghost predicate CountsOf(counts: seq<nat>, shards: seq<Docs>) {
    |counts| == |shards| && forall k :: 0 <= k < |counts| ==> counts[k] == |shards[k]|
  }

  /** Per-shard counts add up to the size of the collection. */
  lemma {:induction false} CountsAddUp(counts: seq<nat>, shards: seq<Docs>, route: DocId -> nat)
    requires Routed(shards, route) && CountsOf(counts, shards)
    ensures Sum(counts) == |Collection(shards)|
  {
    if shards != [] {
      var n := |shards| - 1;
      RoutedPrefix(shards, n, route);
      CountsAddUp(counts[..n], shards[..n], route);
      PartsDisjoint(shards, route);
      DisjointUnionSize(Collection(shards[..n]), shards[n]);
    }
  }

  lemma DisjointUnionSize(a: Docs, b: Docs)
    requires a.Keys !! b.Keys
    ensures |a + b| == |a| + |b|
  {
    assert (a + b).Keys == a.Keys + b.Keys;
  }

  function Concat(lists: seq<seq<Posting>>): seq<Posting> {
    if lists == [] then [] else Concat(lists[..|lists| - 1]) + lists[|lists| - 1]
  }

  ghost predicate ListsOf(lists: seq<seq<Posting>>, shards: seq<Docs>, term: string) {
    |lists| == |shards| && forall k :: 0 <= k < |lists| ==> lists[k] == PostingsFor(shards[k], term)
  }

  /** Concatenating the shards' lists gives a list of the whole collection. */
  lemma {:induction false} ListsConcatenate(lists: seq<seq<Posting>>, shards: seq<Docs>, route: DocId -> nat,
                                            term: string)
    requires Routed(shards, route) && ListsOf(lists, shards, term)
    ensures IsListOf(Concat(lists), Collection(shards), term)
  {
    if shards == [] {
      assert Matching(Collection(shards), term) == {};
      ElementsEmpty(Concat(lists));
    } else {
      var n := |shards| - 1;
      RoutedPrefix(shards, n, route);
      ListsConcatenate(lists[..n], shards[..n], route, term);
      PartsDisjoint(shards, route);
      PostingsAreList(shards[n], term);
      UnionList(Concat(lists[..n]), Collection(shards[..n]), lists[n], shards[n], term);
    }
  }

  lemma UnionList(ps: seq<Posting>, docs: Docs, qs: seq<Posting>, more: Docs, term: string)
    requires IsListOf(ps, docs, term) && IsListOf(qs, more, term) && docs.Keys !! more.Keys
    ensures IsListOf(ps + qs, docs + more, term)
  {
    assert Elements(ps + qs) == Elements(ps) + Elements(qs);
    UnionMatching(docs, more, term);
    forall i, j | 0 <= i < j < |ps + qs| ensures (ps + qs)[i].id != (ps + qs)[j].id {
      if i < |ps| <= j {
        MemberInDocs(ps, docs, term, i);
        MemberInDocs(qs, more, term, j - |ps|);
      }
    }
  }

  lemma MemberInDocs(ps: seq<Posting>, docs: Docs, term: string, k: nat)
    requires IsListOf(ps, docs, term) && k < |ps|
    ensures ps[k].id in docs
  {
    ListMembers(ps, docs, term, ps[k]);
  }

  lemma UnionMatching(docs: Docs, more: Docs, term: string)
    requires docs.Keys !! more.Keys
    ensures Matching(docs + more, term) == Matching(docs, term) + Matching(more, term)
  {
    forall p ensures p in Matching(docs + more, term) <==> p in Matching(docs, term) || p in Matching(more, term) {
      MatchingMember(docs + more, term, p);
      MatchingMember(docs, term, p);
      MatchingMember(more, term, p);
    }
  }

  lemma MatchingMember(docs: Docs, term: string, p: Posting)
    ensures p in Matching(docs, term) <==> p.id in docs && p.tf == TermFrequency(docs[p.id], term) > 0
  {
    if p.id in docs && p.tf == TermFrequency(docs[p.id], term) > 0 {
      assert p == Entry(docs, term, p.id);
    }
  }
}
