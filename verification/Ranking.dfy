/** src/ranker.cpp: TF-IDF ranking, specified directly over the documents. Scores are
    exact reals and the logarithm is an arbitrary function `ln`. */
module Ranking {
  import opened Sorting
  import opened Documents
  import opened Tokenizer
  import opened Index
  import opened Queries

  // ---------------------------------------------------------------------------
  // Specification
  // ---------------------------------------------------------------------------

  datatype Mode = And | Or

  datatype Scored = Scored(id: DocId, score: real)

  function Idf(ln: real -> real, n: nat, df: nat): real
    requires df > 0
  {
    ln(n as real / df as real)
  }

  /** tf(t, d) * ln(N / df(t)); a term the document lacks contributes nothing. */
  ghost function TermScore(ln: real -> real, docs: Docs, term: string, id: DocId): real {
    if Has(docs, term, id) && DocumentFrequency(docs, term) > 0
    then TermFrequency(docs[id], term) as real * Idf(ln, |docs|, DocumentFrequency(docs, term))
    else 0.0
  }

  ghost function Score(ln: real -> real, docs: Docs, terms: set<string>, id: DocId): real {
    if terms == {} then 0.0
    else var t :| t in terms; TermScore(ln, docs, t, id) + Score(ln, docs, terms - {t}, id)
  }

  /** Exact sums do not depend on the order in which terms are taken. */
  lemma {:induction false} ScoreTakesAnyTerm(ln: real -> real, docs: Docs, terms: set<string>, id: DocId, t: string)
    requires t in terms
    ensures Score(ln, docs, terms, id) == TermScore(ln, docs, t, id) + Score(ln, docs, terms - {t}, id)
    decreases terms
  {
    var u :| u in terms && Score(ln, docs, terms, id)
                           == TermScore(ln, docs, u, id) + Score(ln, docs, terms - {u}, id);
    if u != t {
      ScoreTakesAnyTerm(ln, docs, terms - {u}, id, t);
      ScoreTakesAnyTerm(ln, docs, terms - {t}, id, u);
      assert terms - {u} - {t} == terms - {t} - {u};
    }
  }

  lemma ScorePlusTerm(ln: real -> real, docs: Docs, terms: set<string>, id: DocId, t: string)
    requires t !in terms
    ensures Score(ln, docs, terms + {t}, id) == Score(ln, docs, terms, id) + TermScore(ln, docs, t, id)
  {
    ScoreTakesAnyTerm(ln, docs, terms + {t}, id, t);
    assert terms + {t} - {t} == terms;
  }

  lemma {:induction false} ScoreWithoutTerms(ln: real -> real, docs: Docs, terms: set<string>, id: DocId)
    requires !HasAny(docs, terms, id)
    ensures Score(ln, docs, terms, id) == 0.0
    decreases terms
  {
    if terms != {} {
      var t :| t in terms;
      ScoreTakesAnyTerm(ln, docs, terms, id, t);
      assert HasAny(docs, terms - {t}, id) ==> HasAny(docs, terms, id);
      ScoreWithoutTerms(ln, docs, terms - {t}, id);
    }
  }

  ghost function Matches(docs: Docs, terms: set<string>, mode: Mode): set<DocId> {
    if terms == {} then {}
    else if mode == And then DocumentsWithAll(docs, terms)
    else DocumentsWithAny(docs, terms)
  }

  /** The answer of a query before it is ordered. */
  ghost function Scores(ln: real -> real, docs: Docs, terms: set<string>, mode: Mode): map<DocId, real> {
    map id | id in Matches(docs, terms, mode) :: Score(ln, docs, terms, id)
  }

  /** Higher score first, ties by ascending identifier. */
  predicate Better(a: Scored, b: Scored) {
    a.score > b.score || (a.score == b.score && a.id < b.id)
  }

  ghost predicate ListsScore(results: seq<Scored>, scores: map<DocId, real>, id: DocId) {
    id in scores ==> Scored(id, scores[id]) in results
  }

  /** `results` is the ranking of `scores`. */
  ghost predicate IsRanking(results: seq<Scored>, scores: map<DocId, real>) {
    && SortedBy(results, Better)
    && (forall r :: r in results ==> r.id in scores && r.score == scores[r.id])
    && (forall id: DocId :: ListsScore(results, scores, id))
  }

  lemma RankingUnique(a: seq<Scored>, b: seq<Scored>, scores: map<DocId, real>)
    requires IsRanking(a, scores) && IsRanking(b, scores)
    ensures a == b
  {
    forall r ensures r in a <==> r in b {
      if r in a { assert ListsScore(b, scores, r.id); }
      if r in b { assert ListsScore(a, scores, r.id); }
    }
    StrictlySortedUnique(a, b, Better);
  }

  // ---------------------------------------------------------------------------
  // The same in plain counts
  // ---------------------------------------------------------------------------

  /** The documents in which the term occurs. */
  function Having(docs: Docs, term: string): set<DocId> {
    set id | id in docs && term in Tokenize(docs[id])
  }

  lemma FrequencyIsSize(docs: Docs, term: string)
    ensures DocumentFrequency(docs, term) == |Having(docs, term)|
  {
    var ps := PostingsFor(docs, term);
    var ids := seq(|ps|, i requires 0 <= i < |ps| => ps[i].id);
    assert forall i, j :: 0 <= i < j < |ps| ==> IdBefore(ps[i], ps[j]);
    forall id: DocId ensures id in ids <==> id in Having(docs, term) {
      PostingsPointwise(docs, term, id);
      if id in docs { CountPositiveIff(term, Tokenize(docs[id])); }
      if id in ids {
        var k :| 0 <= k < |ids| && ids[k] == id;
        assert ps[k] in ps;
      }
      if id in Having(docs, term) {
        var k :| 0 <= k < |ps| && ps[k] == Entry(docs, term, id);
        assert ids[k] == id;
      }
    }
    ListsSet(ids, Having(docs, term));
  }

  lemma IdfIs(ln: real -> real, n: nat, df: nat)
    requires df > 0
    ensures Idf(ln, n, df) == ln(n as real / df as real)
  {
  }

  /** The score for one term is the number of its occurrences in the document times the
      logarithm of all documents over those in which it occurs. */
  lemma OneTermScore(ln: real -> real, docs: Docs, term: string, id: DocId)
    requires id in docs && term in Tokenize(docs[id])
    ensures |Having(docs, term)| > 0
    ensures Score(ln, docs, {term}, id)
         == multiset(Tokenize(docs[id]))[term] as real * ln(|docs| as real / |Having(docs, term)| as real)
  {
    hide Tokenize, Idf, DocumentFrequency;
    FrequencyIsSize(docs, term);
    assert id in Having(docs, term);
    IdfIs(ln, |docs|, |Having(docs, term)|);
    CountIsMultiplicity(term, Tokenize(docs[id]));
    CountPositiveIff(term, Tokenize(docs[id]));
    ScoreTakesAnyTerm(ln, docs, {term}, id, term);
    assert {term} - {term} == {};
  }

  lemma FewerIsMore(n: real, a: real, b: real)
    requires 0.0 < a < b && 0.0 < n
    ensures n / b < n / a
  {
    var x, y := n / a, n / b;
    assert x * a == n && y * b == n;
    assert (x - y) * a == y * (b - a) > 0.0;
  }

  /** Of two terms that occur equally often in a document the rarer one scores higher,
      whatever increasing function `ln` is. */
  lemma RarerScoresHigher(ln: real -> real, docs: Docs, rare: string, common: string, id: DocId)
    requires forall x, y :: 0.0 < x < y ==> ln(x) < ln(y)
    requires id in docs && rare in Tokenize(docs[id]) && common in Tokenize(docs[id])
    requires multiset(Tokenize(docs[id]))[rare] == multiset(Tokenize(docs[id]))[common]
    requires |Having(docs, rare)| < |Having(docs, common)|
    ensures Score(ln, docs, {rare}, id) > Score(ln, docs, {common}, id)
  {
    hide Score, Having, Tokenize, Weighed;
    var tf := multiset(Tokenize(docs[id]))[rare];
    OneTermWeighed(ln, docs, rare, id);
    OneTermWeighed(ln, docs, common, id);
    HigherBy(ln, tf, |docs|, |Having(docs, rare)|, |Having(docs, common)|);
  }

  function Weighed(ln: real -> real, tf: nat, n: nat, df: nat): real
    requires df > 0
  {
    tf as real * ln(n as real / df as real)
  }

  lemma OneTermWeighed(ln: real -> real, docs: Docs, term: string, id: DocId)
    requires id in docs && term in Tokenize(docs[id])
    ensures |docs| > 0 && |Having(docs, term)| > 0 && multiset(Tokenize(docs[id]))[term] > 0
    ensures Score(ln, docs, {term}, id)
         == Weighed(ln, multiset(Tokenize(docs[id]))[term], |docs|, |Having(docs, term)|)
  {
    OneTermScore(ln, docs, term, id);
    assert id in docs.Keys;
  }

  lemma HigherBy(ln: real -> real, tf: nat, n: nat, a: nat, b: nat)
    requires forall x, y :: 0.0 < x < y ==> ln(x) < ln(y)
    requires tf > 0 && n > 0 && 0 < a < b
    ensures Weighed(ln, tf, n, b) < Weighed(ln, tf, n, a)
  {
    FewerIsMore(n as real, a as real, b as real);
    PositiveQuotient(n as real, b as real);
    MoreTimesMore(tf as real, ln(n as real / b as real), ln(n as real / a as real));
  }

  lemma PositiveQuotient(n: real, b: real)
    requires n > 0.0 && b > 0.0
    ensures n / b > 0.0
  {
  }

  lemma MoreTimesMore(k: real, a: real, b: real)
    requires k > 0.0 && a < b
    ensures k * a < k * b
  {
  }

  /** Exactly the documents in which all tokens of the query occur, or any does, are scored. */
  lemma ScoredAre(ln: real -> real, docs: Docs, query: string, mode: Mode, id: DocId)
    ensures id in Scores(ln, docs, DistinctTerms(query), mode) <==>
      && id in docs
      && if mode == And then Tokenize(query) != [] && forall t :: t in Tokenize(query) ==> t in Tokenize(docs[id])
         else exists t :: t in Tokenize(query) && t in Tokenize(docs[id])
  {
    var terms := DistinctTerms(query);
    QueryTermsEmpty(query);
    if id in docs {
      forall t ensures Has(docs, t, id) <==> t in Tokenize(docs[id]) {
        CountPositiveIff(t, Tokenize(docs[id]));
      }
      if exists t :: t in Tokenize(query) && t in Tokenize(docs[id]) {
        var t :| t in Tokenize(query) && t in Tokenize(docs[id]);
        assert t in terms && Has(docs, t, id);
      }
    }
  }

  /** The best `limit` of the scored documents: higher scores first, equal scores by
      ascending identifier, and no document left out beats one that is in. */
  ghost predicate IsTop(results: seq<Scored>, total: nat, scores: map<DocId, real>, limit: nat) {
    && total == |scores| && |results| == (if total < limit then total else limit)
    && (forall i :: 0 <= i < |results| ==> results[i].id in scores && results[i].score == scores[results[i].id])
    && (forall i, j :: 0 <= i < j < |results| ==>
          || results[i].score > results[j].score
          || (results[i].score == results[j].score && results[i].id < results[j].id))
    && (forall id: DocId, i :: id in scores && 0 <= i < |results| && (forall r :: r in results ==> r.id != id) ==>
          || scores[id] < results[i].score
          || (scores[id] == results[i].score && results[i].id < id))
  }

  lemma RankingSize(ranked: seq<Scored>, scores: map<DocId, real>)
    requires IsRanking(ranked, scores)
    ensures |ranked| == |scores|
  {
    var ids := seq(|ranked|, i requires 0 <= i < |ranked| => ranked[i].id);
    forall i, j | 0 <= i < j < |ids| ensures ids[i] != ids[j] {
      assert Better(ranked[i], ranked[j]) && ranked[i] in ranked && ranked[j] in ranked;
    }
    forall id: DocId ensures id in ids <==> id in scores.Keys {
      assert ListsScore(ranked, scores, id);
      if id in ids {
        var k :| 0 <= k < |ids| && ids[k] == id;
        assert ranked[k] in ranked;
      }
      if id in scores {
        var k :| 0 <= k < |ranked| && ranked[k] == Scored(id, scores[id]);
        assert ids[k] == id;
      }
    }
    ListsSet(ids, scores.Keys);
  }

  /** The front of the ranking is the best of it. */
  lemma FrontIsTop(ranked: seq<Scored>, scores: map<DocId, real>, n: nat, limit: nat)
    requires IsRanking(ranked, scores) && n == if |ranked| < limit then |ranked| else limit
    ensures IsTop(ranked[..n], |ranked|, scores, limit)
  {
    var results := ranked[..n];
    RankingSize(ranked, scores);
    forall i | 0 <= i < n ensures results[i].id in scores && results[i].score == scores[results[i].id] {
      assert ranked[i] in ranked;
    }
    forall i, j | 0 <= i < j < n
      ensures results[i].score > results[j].score
           || (results[i].score == results[j].score && results[i].id < results[j].id)
    {
      assert Better(ranked[i], ranked[j]);
    }
    forall id: DocId, i | id in scores && 0 <= i < n && (forall r :: r in results ==> r.id != id)
      ensures scores[id] < results[i].score || (scores[id] == results[i].score && results[i].id < id)
    {
      assert ListsScore(ranked, scores, id);
      var k :| 0 <= k < |ranked| && ranked[k] == Scored(id, scores[id]);
      assert forall j :: 0 <= j < n ==> results[j] in results && ranked[j].id != id;
      assert Better(ranked[i], ranked[k]);
    }
  }

  // ---------------------------------------------------------------------------
  // Lists in any order: what one index returns, or several shards together
  // ---------------------------------------------------------------------------

  ghost predicate DistinctIds(ps: seq<Posting>) {
    forall i, j :: 0 <= i < j < |ps| ==> ps[i].id != ps[j].id
  }

  /** All postings of a term, each document once, not necessarily sorted. */
  ghost predicate IsListOf(ps: seq<Posting>, docs: Docs, term: string) {
    DistinctIds(ps) && Elements(ps) == Matching(docs, term)
  }

  lemma PostingsAreList(docs: Docs, term: string)
    ensures IsListOf(PostingsFor(docs, term), docs, term)
  {
    var ps := PostingsFor(docs, term);
    assert forall i, j :: 0 <= i < j < |ps| ==> IdBefore(ps[i], ps[j]);
  }

  lemma ListLength(ps: seq<Posting>, docs: Docs, term: string)
    requires IsListOf(ps, docs, term)
    ensures |ps| == DocumentFrequency(docs, term)
  {
    var canonical := PostingsFor(docs, term);
    assert Distinct(ps);
    DistinctLength(ps);
    PostingsAreList(docs, term);
    assert Distinct(canonical);
    DistinctLength(canonical);
  }

  lemma ListMembers(ps: seq<Posting>, docs: Docs, term: string, p: Posting)
    requires IsListOf(ps, docs, term)
    ensures p in ps <==> Has(docs, term, p.id) && p.tf == TermFrequency(docs[p.id], term)
  {
    assert p in ps <==> p in Elements(ps);
    if Has(docs, term, p.id) && p.tf == TermFrequency(docs[p.id], term) {
      assert p == Entry(docs, term, p.id);
    }
  }

  ghost predicate Occurs(ps: seq<Posting>, id: DocId) {
    exists k :: 0 <= k < |ps| && ps[k].id == id
  }

  lemma ListOccurs(ps: seq<Posting>, docs: Docs, term: string, id: DocId)
    requires IsListOf(ps, docs, term)
    ensures Occurs(ps, id) <==> Has(docs, term, id)
  {
    if Occurs(ps, id) {
      var k :| 0 <= k < |ps| && ps[k].id == id;
      ListMembers(ps, docs, term, ps[k]);
    }
    if Has(docs, term, id) {
      ListMembers(ps, docs, term, Entry(docs, term, id));
    }
  }

  /** What one posting adds. */
  function Gain(p: Posting, idf: real): real {
    p.tf as real * idf
  }

  /** What a pass over the list adds to the score of `id`. */
  function Weight(ps: seq<Posting>, idf: real, id: DocId): real {
    if ps == [] then 0.0
    else
      var last := ps[|ps| - 1];
      Weight(ps[..|ps| - 1], idf, id) + if last.id == id then Gain(last, idf) else 0.0
  }

  lemma {:induction false} WeightAbsent(ps: seq<Posting>, idf: real, id: DocId)
    requires !Occurs(ps, id)
    ensures Weight(ps, idf, id) == 0.0
  {
    if ps != [] {
      var init := ps[..|ps| - 1];
      assert forall k :: 0 <= k < |init| ==> init[k] == ps[k];
      WeightAbsent(init, idf, id);
    }
  }

  lemma {:induction false} WeightAt(ps: seq<Posting>, idf: real, k: nat)
    requires DistinctIds(ps) && k < |ps|
    ensures Weight(ps, idf, ps[k].id) == Gain(ps[k], idf)
  {
    hide Gain;
    var init := ps[..|ps| - 1];
    if k == |ps| - 1 {
      assert forall j :: 0 <= j < |init| ==> init[j].id != ps[k].id;
      WeightAbsent(init, idf, ps[k].id);
    } else {
      assert init[k] == ps[k];
      WeightAt(init, idf, k);
    }
  }

  datatype TermInfo = TermInfo(term: string, postings: seq<Posting>, idf: real)

  ghost predicate InfoFor(info: TermInfo, ln: real -> real, docs: Docs) {
    && IsListOf(info.postings, docs, info.term)
    && info.postings != []
    && info.idf == Idf(ln, |docs|, |info.postings|)
  }

  lemma WeightIsTermScore(info: TermInfo, ln: real -> real, docs: Docs, id: DocId)
    requires InfoFor(info, ln, docs)
    ensures Weight(info.postings, info.idf, id) == TermScore(ln, docs, info.term, id)
  {
    ListLength(info.postings, docs, info.term);
    ListOccurs(info.postings, docs, info.term, id);
    if Has(docs, info.term, id) {
      ListMembers(info.postings, docs, info.term, Entry(docs, info.term, id));
      var k :| 0 <= k < |info.postings| && info.postings[k] == Entry(docs, info.term, id);
      WeightAt(info.postings, info.idf, k);
    } else {
      WeightAbsent(info.postings, info.idf, id);
    }
  }

  // ---------------------------------------------------------------------------
  // The loops shared by the ranker and the coordinator
  // ---------------------------------------------------------------------------

  predicate ShorterList(a: TermInfo, b: TermInfo) {
    |a.postings| <= |b.postings|
  }

  ghost predicate InAllLists(infos: seq<TermInfo>, id: DocId) {
    forall k :: 0 <= k < |infos| ==> Occurs(infos[k].postings, id)
  }

  /** Keep the candidates that occur in one more list, with score zero. */
  method Narrow(scores: map<DocId, real>, ps: seq<Posting>) returns (next: map<DocId, real>)
    ensures forall id :: id in next <==> id in scores && Occurs(ps, id)
    ensures forall id :: id in next ==> next[id] == 0.0
  {
    next := map[];
    for j := 0 to |ps|
      invariant forall id :: id in next <==> id in scores && exists k :: 0 <= k < j && ps[k].id == id
      invariant forall id :: id in next ==> next[id] == 0.0
    {
      if ps[j].id in scores {
        next := next[ps[j].id := 0.0];
      }
    }
  }

  /** The candidate set of an AND query, smallest list first. */
  method Candidates(infos: seq<TermInfo>) returns (scores: map<DocId, real>)
    requires infos != []
    ensures forall id :: id in scores <==> InAllLists(infos, id)
    ensures forall id :: id in scores ==> scores[id] == 0.0
  {
    var sorted := Sort(infos, ShorterList);
    SameMultisetSameElements(infos, sorted);
    SameLists(infos, sorted);
    scores := map[];
    for j := 0 to |sorted[0].postings|
      invariant forall id :: id in scores <==> exists k :: 0 <= k < j && sorted[0].postings[k].id == id
      invariant forall id :: id in scores ==> scores[id] == 0.0
    {
      scores := scores[sorted[0].postings[j].id := 0.0];
    }
    for k := 1 to |sorted|
      invariant forall id :: id in scores <==> InAllLists(sorted[..k], id)
      invariant forall id :: id in scores ==> scores[id] == 0.0
    {
      assert sorted[..k + 1] == sorted[..k] + [sorted[k]];
      scores := Narrow(scores, sorted[k].postings);
      if scores == map[] {
        InAllOfPrefix(sorted, k + 1);
        return;
      }
    }
    assert sorted[..|sorted|] == sorted;
  }

  lemma InAllOfPrefix(sorted: seq<TermInfo>, k: nat)
    requires k <= |sorted|
    ensures forall id: DocId :: InAllLists(sorted, id) ==> InAllLists(sorted[..k], id)
  {
  }

  lemma SameLists(a: seq<TermInfo>, b: seq<TermInfo>)
    requires forall x :: x in a <==> x in b
    ensures forall id :: InAllLists(a, id) <==> InAllLists(b, id)
  {
    forall id: DocId ensures InAllLists(a, id) <==> InAllLists(b, id) {
      if InAllLists(a, id) {
        forall k | 0 <= k < |b| ensures Occurs(b[k].postings, id) {
          assert b[k] in a;
          var j :| 0 <= j < |a| && a[j] == b[k];
        }
      }
      if InAllLists(b, id) {
        forall k | 0 <= k < |a| ensures Occurs(a[k].postings, id) {
          assert a[k] in b;
          var j :| 0 <= j < |b| && b[j] == a[k];
        }
      }
    }
  }

  /** Add one term's contributions to the candidates. */
  method AddToCandidates(scores: map<DocId, real>, ps: seq<Posting>, idf: real) returns (next: map<DocId, real>)
    ensures next.Keys == scores.Keys
    ensures forall id :: id in scores ==> next[id] == scores[id] + Weight(ps, idf, id)
  {
    hide Gain;
    next := scores;
    for j := 0 to |ps|
      invariant next.Keys == scores.Keys
      invariant forall id :: id in scores ==> next[id] == scores[id] + Weight(ps[..j], idf, id)
    {
      assert ps[..j + 1][..j] == ps[..j];
      var p := ps[j];
      if p.id in next {
        next := next[p.id := next[p.id] + Gain(p, idf)];
      }
    }
    assert ps[..|ps|] == ps;
  }

  function ScoreOr0(scores: map<DocId, real>, id: DocId): real {
    if id in scores then scores[id] else 0.0
  }

  /** Add one term's contributions, admitting every document of its list. */
  method AddToAll(scores: map<DocId, real>, ps: seq<Posting>, idf: real) returns (next: map<DocId, real>)
    ensures forall id :: id in next <==> id in scores || Occurs(ps, id)
    ensures forall id :: ScoreOr0(next, id) == ScoreOr0(scores, id) + Weight(ps, idf, id)
  {
    hide Gain;
    next := scores;
    for j := 0 to |ps|
      invariant forall id :: id in next <==> id in scores || exists k :: 0 <= k < j && ps[k].id == id
      invariant forall id :: ScoreOr0(next, id) == ScoreOr0(scores, id) + Weight(ps[..j], idf, id)
    {
      assert ps[..j + 1][..j] == ps[..j];
      var p := ps[j];
      next := next[p.id := ScoreOr0(next, p.id) + Gain(p, idf)];
    }
    assert ps[..|ps|] == ps;
  }

  ghost predicate InfosFor(infos: seq<TermInfo>, ln: real -> real, docs: Docs, terms: seq<string>) {
    && |infos| == |terms|
    && forall k :: 0 <= k < |infos| ==> infos[k].term == terms[k] && InfoFor(infos[k], ln, docs)
  }

  lemma InfosSnoc(infos: seq<TermInfo>, info: TermInfo, ln: real -> real, docs: Docs, terms: seq<string>, k: nat)
    requires k < |terms| && InfosFor(infos, ln, docs, terms[..k])
    requires info.term == terms[k] && InfoFor(info, ln, docs)
    ensures InfosFor(infos + [info], ln, docs, terms[..k + 1])
  {
    forall j | 0 <= j < k ensures terms[..k + 1][j] == terms[..k][j] && (infos + [info])[j] == infos[j] {
    }
  }

  lemma InAllIsHasAll(infos: seq<TermInfo>, ln: real -> real, docs: Docs, terms: seq<string>, id: DocId)
    requires InfosFor(infos, ln, docs, terms) && terms != []
    ensures InAllLists(infos, id) <==> HasAll(docs, Elements(terms), id)
  {
    forall k | 0 <= k < |terms| ensures Occurs(infos[k].postings, id) <==> Has(docs, terms[k], id) {
      ListOccurs(infos[k].postings, docs, terms[k], id);
    }
    if InAllLists(infos, id) {
      assert Has(docs, terms[0], id);
      assert forall t :: t in Elements(terms) ==> Has(docs, t, id);
    }
    if HasAll(docs, Elements(terms), id) {
      forall k | 0 <= k < |infos| ensures Occurs(infos[k].postings, id) {
        assert terms[k] in Elements(terms);
      }
    }
  }

  /** Intersect, then accumulate: exactly the scores the documents determine, whenever
      the lists are the terms' lists over those documents. */
  method ScoreAnd(infos: seq<TermInfo>, ghost ln: real -> real, ghost docs: Docs, ghost terms: seq<string>)
    returns (scores: map<DocId, real>)
    requires infos != [] && |infos| == |terms| && Distinct(terms)
    ensures InfosFor(infos, ln, docs, terms) ==> scores == Scores(ln, docs, Elements(terms), And)
  {
    scores := Candidates(infos);
    CandidatesMatch(infos, ln, docs, terms, scores);
    ghost var exact := InfosFor(infos, ln, docs, terms);
    for k := 0 to |infos|
      invariant exact ==> scores.Keys == Matches(docs, Elements(terms), And)
      invariant exact ==> PartialAnd(scores, ln, docs, Elements(terms[..k]))
    {
      OneMoreTerm(terms, k);
      scores := ScoreCandidates(scores, infos[k], ln, docs, Elements(terms[..k]));
    }
    assert terms[..|infos|] == terms;
  }

  lemma CandidatesMatch(infos: seq<TermInfo>, ln: real -> real, docs: Docs, terms: seq<string>,
                        scores: map<DocId, real>)
    requires infos != [] && |infos| == |terms|
    requires forall id :: id in scores <==> InAllLists(infos, id)
    requires forall id :: id in scores ==> scores[id] == 0.0
    ensures InfosFor(infos, ln, docs, terms) ==>
              scores.Keys == Matches(docs, Elements(terms), And) && PartialAnd(scores, ln, docs, {})
  {
    if InfosFor(infos, ln, docs, terms) {
      ElementsEmpty(terms);
      forall id: DocId ensures id in scores <==> id in Matches(docs, Elements(terms), And) {
        InAllIsHasAll(infos, ln, docs, terms, id);
      }
    }
  }

  /** The candidates of an AND query scored over the first terms. */
  ghost predicate PartialAnd(scores: map<DocId, real>, ln: real -> real, docs: Docs, done: set<string>) {
    forall id :: id in scores ==> scores[id] == Score(ln, docs, done, id)
  }

  /** One turn of the accumulation loop of an AND query. */
  method ScoreCandidates(scores: map<DocId, real>, info: TermInfo, ghost ln: real -> real, ghost docs: Docs,
                         ghost done: set<string>)
    returns (next: map<DocId, real>)
    ensures next.Keys == scores.Keys
    ensures PartialAnd(scores, ln, docs, done) && info.term !in done && InfoFor(info, ln, docs) ==>
              PartialAnd(next, ln, docs, done + {info.term})
  {
    next := AddToCandidates(scores, info.postings, info.idf);
    if PartialAnd(scores, ln, docs, done) && info.term !in done && InfoFor(info, ln, docs) {
      forall id | id in next ensures next[id] == Score(ln, docs, done + {info.term}, id) {
        WeightIsTermScore(info, ln, docs, id);
        ScorePlusTerm(ln, docs, done, id, info.term);
      }
    }
  }

  lemma OneMoreTerm(terms: seq<string>, k: nat)
    requires k < |terms| && Distinct(terms)
    ensures Elements(terms[..k + 1]) == Elements(terms[..k]) + {terms[k]}
    ensures terms[k] !in Elements(terms[..k])
  {
    assert terms[..k + 1] == terms[..k] + [terms[k]];
  }

  /** The scores of an OR query over the first terms, before the next is added. */
  ghost predicate PartialOr(scores: map<DocId, real>, ln: real -> real, docs: Docs, done: set<string>) {
    && (forall id :: id in scores <==> HasAny(docs, done, id))
    && (forall id :: id in scores ==> scores[id] == Score(ln, docs, done, id))
  }

  /** A term no document contains leaves the scores as they are. */
  lemma MissingTerm(scores: map<DocId, real>, ln: real -> real, docs: Docs, done: set<string>, term: string)
    requires PartialOr(scores, ln, docs, done) && term !in done
    requires DocumentFrequency(docs, term) == 0
    ensures PartialOr(scores, ln, docs, done + {term})
  {
    forall id: DocId
      ensures HasAny(docs, done + {term}, id) <==> HasAny(docs, done, id)
      ensures Score(ln, docs, done + {term}, id) == Score(ln, docs, done, id)
    {
      PostingsPointwise(docs, term, id);
      assert !Has(docs, term, id);
      ScorePlusTerm(ln, docs, done, id, term);
      if HasAny(docs, done, id) {
        var t :| t in done && Has(docs, t, id);
        assert t in done + {term};
      }
    }
  }

  /** One turn of the accumulation loop of an OR query. */
  method ScoreOneMore(scores: map<DocId, real>, info: TermInfo, ghost ln: real -> real, ghost docs: Docs,
                      ghost done: set<string>)
    returns (next: map<DocId, real>)
    ensures PartialOr(scores, ln, docs, done) && info.term !in done && InfoFor(info, ln, docs) ==>
              PartialOr(next, ln, docs, done + {info.term})
  {
    next := AddToAll(scores, info.postings, info.idf);
    if PartialOr(scores, ln, docs, done) && info.term !in done && InfoFor(info, ln, docs) {
      forall id: DocId
        ensures id in next <==> HasAny(docs, done + {info.term}, id)
        ensures id in next ==> next[id] == Score(ln, docs, done + {info.term}, id)
      {
        ListOccurs(info.postings, docs, info.term, id);
        WeightIsTermScore(info, ln, docs, id);
        ScorePlusTerm(ln, docs, done, id, info.term);
        if id !in scores { ScoreWithoutTerms(ln, docs, done, id); }
        assert ScoreOr0(next, id) == ScoreOr0(scores, id) + Weight(info.postings, info.idf, id);
        HasAnyPlus(docs, done, info.term, id);
      }
    }
  }

  lemma HasAnyPlus(docs: Docs, done: set<string>, term: string, id: DocId)
    ensures HasAny(docs, done + {term}, id) <==> HasAny(docs, done, id) || Has(docs, term, id)
  {
    if HasAny(docs, done, id) {
      var t :| t in done && Has(docs, t, id);
      assert t in done + {term};
    }
    if Has(docs, term, id) { assert term in done + {term}; }
  }

  predicate AtLeastAsGood(a: Scored, b: Scored) {
    !Better(b, a)
  }

  /** Collect the map in whatever order it yields, then sort. */
  method SortScores(scores: map<DocId, real>) returns (results: seq<Scored>)
    ensures IsRanking(results, scores) && |results| == |scores|
  {
    var list: seq<Scored> := [];
    var remaining := scores.Keys;
    while remaining != {}
      invariant remaining <= scores.Keys && |list| + |remaining| == |scores.Keys|
      invariant forall r :: r in list <==> r.id in scores && r.id !in remaining && r.score == scores[r.id]
      invariant forall i, j :: 0 <= i < j < |list| ==> list[i].id != list[j].id
      decreases remaining
    {
      var id :| id in remaining;
      assert forall k :: 0 <= k < |list| ==> list[k] in list;
      list := list + [Scored(id, scores[id])];
      remaining := remaining - {id};
    }
    results := Sort(list, AtLeastAsGood);
    SortedRanking(list, results, scores);
  }

  lemma SortedRanking(list: seq<Scored>, results: seq<Scored>, scores: map<DocId, real>)
    requires multiset(results) == multiset(list) && SortedBy(results, AtLeastAsGood)
    requires forall r :: r in list <==> r.id in scores && r.score == scores[r.id]
    requires forall i, j :: 0 <= i < j < |list| ==> list[i].id != list[j].id
    ensures IsRanking(results, scores) && |results| == |list|
  {
    SameMultisetSameElements(list, results);
    assert Distinct(list);
    forall i, j | 0 <= i < j < |results| ensures Better(results[i], results[j]) {
      assert results[i] in list && results[j] in list;
      assert results[i] != results[j];
    }
  }

  // ---------------------------------------------------------------------------
  // Ranker
  // ---------------------------------------------------------------------------

  lemma SortedTermsDistinct(terms: seq<string>)
    requires SortedBy(terms, Less)
    ensures Distinct(terms)
  {
  }

  /** A document with every term of the query contains each of them. */
  lemma MissingTermPoisons(ln: real -> real, docs: Docs, terms: set<string>, t: string)
    requires t in terms && DocumentFrequency(docs, t) == 0
    ensures Scores(ln, docs, terms, And) == map[]
  {
    forall id: DocId ensures !HasAll(docs, terms, id) {
      PostingsPointwise(docs, t, id);
      assert !Has(docs, t, id);
    }
  }

  lemma NothingToScore(ln: real -> real, docs: Docs, terms: set<string>, mode: Mode)
    requires docs == map[]
    ensures Scores(ln, docs, terms, mode) == map[]
  {
    assert forall id: DocId, t :: !Has(docs, t, id);
  }

  method RankedAnd(index: InvertedIndex, query: string, ln: real -> real) returns (results: seq<Scored>)
    requires index.Valid()
    ensures IsRanking(results, Scores(ln, index.docs, DistinctTerms(query), And))
  {
    var tokens := TokenizeLoop(query);
    if tokens == [] {
      assert DistinctTerms(query) == {};
      return [];
    }
    var terms := DedupTerms(tokens);
    SortedTermsDistinct(terms);
    assert Elements(terms) == DistinctTerms(query);
    assert tokens[0] in terms;
    var n := index.DocumentCount();
    if n == 0 {
      NothingToScore(ln, index.docs, Elements(terms), And);
      return [];
    }
    var infos: seq<TermInfo> := [];
    for k := 0 to |terms|
      invariant InfosFor(infos, ln, index.docs, terms[..k])
    {
      var ps := index.Postings(terms[k]);
      if ps == [] {
        MissingTermPoisons(ln, index.docs, Elements(terms), terms[k]);
        return [];
      }
      PostingsAreList(index.docs, terms[k]);
      var info := TermInfo(terms[k], ps, Idf(ln, n, |ps|));
      InfosSnoc(infos, info, ln, index.docs, terms, k);
      infos := infos + [info];
    }
    assert terms[..|terms|] == terms;
    var scores := ScoreAnd(infos, ln, index.docs, terms);
    results := SortScores(scores);
  }

  method RankedOr(index: InvertedIndex, query: string, ln: real -> real) returns (results: seq<Scored>)
    requires index.Valid()
    ensures IsRanking(results, Scores(ln, index.docs, DistinctTerms(query), Or))
  {
    var tokens := TokenizeLoop(query);
    if tokens == [] {
      assert DistinctTerms(query) == {};
      return [];
    }
    var terms := DedupTerms(tokens);
    SortedTermsDistinct(terms);
    assert Elements(terms) == DistinctTerms(query);
    assert tokens[0] in terms;
    var n := index.DocumentCount();
    if n == 0 {
      NothingToScore(ln, index.docs, Elements(terms), Or);
      return [];
    }
    var scores := AccumulateOr(index, terms, n, ln);
    PartialOrIsScores(scores, ln, index.docs, Elements(terms));
    results := SortScores(scores);
  }

  method AccumulateOr(index: InvertedIndex, terms: seq<string>, n: nat, ln: real -> real)
    returns (scores: map<DocId, real>)
    requires index.Valid() && n == |index.docs| && Distinct(terms)
    ensures PartialOr(scores, ln, index.docs, Elements(terms))
  {
    scores := map[];
    for k := 0 to |terms|
      invariant PartialOr(scores, ln, index.docs, Elements(terms[..k]))
    {
      OneMoreTerm(terms, k);
      var ps := index.Postings(terms[k]);
      if ps == [] {
        MissingTerm(scores, ln, index.docs, Elements(terms[..k]), terms[k]);
      } else {
        PostingsAreList(index.docs, terms[k]);
        scores := ScoreOneMore(scores, TermInfo(terms[k], ps, Idf(ln, n, |ps|)), ln, index.docs, Elements(terms[..k]));
      }
    }
    assert terms[..|terms|] == terms;
  }

  lemma NoScoresYet(ln: real -> real, docs: Docs)
    ensures PartialOr(map[], ln, docs, Elements([]))
  {
  }

  lemma PartialOrIsScores(scores: map<DocId, real>, ln: real -> real, docs: Docs, terms: set<string>)
    requires PartialOr(scores, ln, docs, terms)
    ensures scores == Scores(ln, docs, terms, Or)
  {
    assert terms == {} ==> forall id :: !HasAny(docs, terms, id);
    forall id: DocId ensures id in scores <==> id in Matches(docs, terms, Or) {
      assert HasAny(docs, terms, id) ==> id in docs;
    }
  }

  /** Boolean and ranked queries find the same documents. */
  method SameDocumentsAsBoolean(index: InvertedIndex, query: string, ln: real -> real)
    returns (conj: seq<DocId>, disj: seq<DocId>, rankedConj: seq<Scored>, rankedDisj: seq<Scored>)
    requires index.Valid()
    ensures forall id :: id in conj <==> exists r :: r in rankedConj && r.id == id
    ensures forall id :: id in disj <==> exists r :: r in rankedDisj && r.id == id
  {
    conj := AndQuery(index, query);
    disj := OrQuery(index, query);
    rankedConj := RankedAnd(index, query, ln);
    rankedDisj := RankedOr(index, query, ln);
    QueryTermsEmpty(query);
    var terms := DistinctTerms(query);
    if terms == {} {
      assert forall id :: !HasAny(index.docs, terms, id);
    }
    assert Elements(conj) == Scores(ln, index.docs, terms, And).Keys;
    assert Elements(disj) == Scores(ln, index.docs, terms, Or).Keys;
    RankedIds(rankedConj, Scores(ln, index.docs, terms, And), conj);
    RankedIds(rankedDisj, Scores(ln, index.docs, terms, Or), disj);
  }

  lemma QueryTermsEmpty(query: string)
    ensures DistinctTerms(query) == {} <==> Tokenize(query) == []
  {
    assert DistinctTerms(query) == Elements(Tokenize(query));
    ElementsEmpty(Tokenize(query));
  }

  lemma RankedIds(results: seq<Scored>, scores: map<DocId, real>, ids: seq<DocId>)
    requires IsRanking(results, scores) && Elements(ids) == scores.Keys
    ensures forall id :: id in ids <==> exists r :: r in results && r.id == id
  {
    forall id: DocId ensures id in ids <==> exists r :: r in results && r.id == id {
      assert id in ids <==> id in Elements(ids);
      assert ListsScore(results, scores, id);
    }
  }
}
