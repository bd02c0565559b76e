/** src/shard_coordinator.cpp, read side: scatter-gather search with one pinned replica
    per shard, and reads with failover. Node calls go through an arbitrary `Client`,
    any of whose replies may be an error. */
module Coordinators {
  import opened Wrappers
  import opened Sorting
  import opened Documents
  import opened Tokenizer
  import opened Index
  import opened Queries
  import opened Ranking
  import opened Nodes
  import opened Collections

  datatype SearchRequest = SearchRequest(query: string, mode: Mode, limit: nat)

  datatype Failure = Failure(shard: nat, node: nat, counting: bool)

  datatype SearchResponse = SearchResponse(
    isError: bool,
    complete: bool,
    total: nat,
    results: seq<Scored>,
    errors: seq<Failure>)

  datatype CountReply = CountReply(isError: bool, count: nat)

  /** Replica placement and the replies of the nodes: `count(sid, node)`,
      `search(term, sid, node)` and `get(sid, id, node)`. */
  datatype Client = Client(
    placement: seq<seq<nat>>,
    count: (nat, nat) -> CountReply,
    search: (string, nat, nat) -> SearchReply,
    get: (nat, DocId, nat) -> GetReply)

  /** Every shard has a replica: what the validated placement guarantees. */
  ghost predicate Placed(client: Client) {
    forall sid :: 0 <= sid < |client.placement| ==> client.placement[sid] != []
  }

  // A reply that is not an error is what Nodes.LocalNode is proved to answer.

  ghost predicate FaithfulCount(reply: CountReply, hosted: Hosted, sid: nat) {
    reply.isError || reply.count == |DocsOf(hosted, sid)|
  }

  ghost predicate FaithfulSearch(reply: SearchReply, hosted: Hosted, sid: nat, term: string) {
    reply.isError || (sid in hosted && reply.termsPostings == [PostingsFor(hosted[sid], term)])
  }

  ghost predicate FaithfulGet(reply: GetReply, hosted: Hosted, sid: nat, id: DocId) {
    reply.isError || (
      && sid in hosted && reply.found == (id in hosted[sid])
      && (reply.found ==> reply.content == hosted[sid][id]))
  }

  /** Any call may fail; calls that succeed answer from the node's documents. */
  ghost predicate Serves(client: Client, nodes: seq<Hosted>) {
    && Placed(client)
    && (forall sid: nat, n: nat :: sid < |client.placement| && n in client.placement[sid] ==> n < |nodes|)
    && (forall sid: nat, n: nat :: n < |nodes| ==> FaithfulCount(client.count(sid, n), nodes[n], sid))
    && (forall term: string, sid: nat, n: nat :: n < |nodes| ==>
          FaithfulSearch(client.search(term, sid, n), nodes[n], sid, term))
    && (forall sid: nat, id: DocId, n: nat :: n < |nodes| ==>
          FaithfulGet(client.get(sid, id, n), nodes[n], sid, id))
  }

  // ---------------------------------------------------------------------------
  // Pinning: the first replica of each shard that answers the count
  // ---------------------------------------------------------------------------

  function FirstAnswering(client: Client, sid: nat, replicas: seq<nat>): Option<nat> {
    if replicas == [] then None
    else if !client.count(sid, replicas[0]).isError then Some(replicas[0])
    else FirstAnswering(client, sid, replicas[1..])
  }

  ghost predicate PinsOf(pins: seq<Option<nat>>, client: Client) {
    && |pins| == |client.placement|
    && forall sid :: 0 <= sid < |pins| ==> pins[sid] == FirstAnswering(client, sid, client.placement[sid])
  }

  function PinsFor(client: Client): (pins: seq<Option<nat>>)
    ensures PinsOf(pins, client)
  {
    seq(|client.placement|, sid requires 0 <= sid < |client.placement| =>
      FirstAnswering(client, sid, client.placement[sid]))
  }

  lemma {:induction false} FirstAnsweringAnswers(client: Client, sid: nat, replicas: seq<nat>)
    ensures FirstAnswering(client, sid, replicas).Some? ==>
              FirstAnswering(client, sid, replicas).value in replicas
              && !client.count(sid, FirstAnswering(client, sid, replicas).value).isError
              && exists k :: 0 <= k < |replicas| && replicas[k] == FirstAnswering(client, sid, replicas).value
                             && forall j :: 0 <= j < k ==> client.count(sid, replicas[j]).isError
    ensures FirstAnswering(client, sid, replicas).None? <==>
              forall n :: n in replicas ==> client.count(sid, n).isError
  {
    if replicas != [] {
      FirstAnsweringAnswers(client, sid, replicas[1..]);
      assert forall n :: n in replicas <==> n == replicas[0] || n in replicas[1..];
      if client.count(sid, replicas[0]).isError && FirstAnswering(client, sid, replicas).Some? {
        var k :| 0 <= k < |replicas| - 1 && replicas[1..][k] == FirstAnswering(client, sid, replicas).value
                 && forall j :: 0 <= j < k ==> client.count(sid, replicas[1..][j]).isError;
        assert replicas[k + 1] == FirstAnswering(client, sid, replicas).value;
        assert forall j :: 1 <= j < k + 1 ==> replicas[j] == replicas[1..][j - 1];
      }
    }
  }

  ghost function Unpinned(pins: seq<Option<nat>>): set<nat> {
    set sid | 0 <= sid < |pins| && pins[sid].None?
  }

  ghost function FailedShards(errors: seq<Failure>): set<nat> {
    set f | f in errors :: f.shard
  }

  lemma OneMoreFailure(errors: seq<Failure>, f: Failure)
    ensures FailedShards(errors + [f]) == FailedShards(errors) + {f.shard}
  {
    assert f in errors + [f];
    assert forall g :: g in errors ==> g in errors + [f];
  }

  lemma MoreFailures(errors: seq<Failure>, more: seq<Failure>)
    ensures FailedShards(errors + more) == FailedShards(errors) + FailedShards(more)
  {
    assert forall g :: g in errors + more <==> g in errors || g in more;
  }

  lemma NoFailures(errors: seq<Failure>)
    ensures FailedShards(errors) == {} <==> errors == []
  {
    if errors != [] { assert errors[0].shard in FailedShards(errors); }
  }

  /** The documents of each shard as seen by this query. */
  ghost function PinnedShards(nodes: seq<Hosted>, pins: seq<Option<nat>>): (shards: seq<Docs>)
    ensures |shards| == |pins|
  {
    seq(|pins|, sid requires 0 <= sid < |pins| =>
      if pins[sid].Some? && pins[sid].value < |nodes| then DocsOf(nodes[pins[sid].value], sid) else map[])
  }

  function CountAt(client: Client, pins: seq<Option<nat>>, sid: nat): nat
    requires sid < |pins|
  {
    if pins[sid].Some? then client.count(sid, pins[sid].value).count else 0
  }

  /** The counts of the pinned replicas. */
  function PinnedCounts(client: Client, pins: seq<Option<nat>>): seq<nat> {
    seq(|pins|, sid requires 0 <= sid < |pins| => CountAt(client, pins, sid))
  }

  method PinShard(client: Client, sid: nat) returns (pin: Option<nat>)
    requires sid < |client.placement|
    ensures pin == FirstAnswering(client, sid, client.placement[sid])
  {
    var replicas := client.placement[sid];
    for k := 0 to |replicas|
      invariant FirstAnswering(client, sid, replicas[k..]) == FirstAnswering(client, sid, replicas)
    {
      assert replicas[k..][1..] == replicas[k + 1..];
      if !client.count(sid, replicas[k]).isError {
        return Some(replicas[k]);
      }
    }
    pin := None;
  }

  method ComputeGlobalN(client: Client)
    returns (total: nat, complete: bool, failures: seq<Failure>, pins: seq<Option<nat>>)
    requires Placed(client)
    ensures pins == PinsFor(client)
    ensures total == Sum(PinnedCounts(client, pins))
    ensures complete == (Unpinned(pins) == {})
    ensures FailedShards(failures) == Unpinned(pins)
  {
    total, complete, failures, pins := 0, true, [], [];
    for sid := 0 to |client.placement|
      invariant |pins| == sid
      invariant forall s :: 0 <= s < sid ==> pins[s] == FirstAnswering(client, s, client.placement[s])
      invariant total == Sum(PinnedCounts(client, pins))
      invariant complete == (Unpinned(pins) == {})
      invariant FailedShards(failures) == Unpinned(pins)
    {
      var pin := PinShard(client, sid);
      ghost var before := pins;
      pins := pins + [pin];
      PinnedCountsSnoc(client, before, pin);
      UnpinnedSnoc(before, pin);
      if pin.Some? {
        total := total + client.count(sid, pin.value).count;
      } else {
        complete := false;
        var f := Failure(sid, client.placement[sid][0], true);
        OneMoreFailure(failures, f);
        failures := failures + [f];
      }
    }
  }

  lemma PinnedCountsSnoc(client: Client, pins: seq<Option<nat>>, pin: Option<nat>)
    ensures Sum(PinnedCounts(client, pins + [pin]))
         == Sum(PinnedCounts(client, pins)) + CountAt(client, pins + [pin], |pins|)
  {
    var counts := PinnedCounts(client, pins + [pin]);
    assert counts[..|counts| - 1] == PinnedCounts(client, pins);
  }

  lemma UnpinnedSnoc(pins: seq<Option<nat>>, pin: Option<nat>)
    ensures Unpinned(pins + [pin]) == Unpinned(pins) + if pin.None? then {|pins|} else {}
  {
  }

  /** The global N is the size of the collection the pinned replicas hold. */
  lemma TotalIsCollectionSize(client: Client, nodes: seq<Hosted>, pins: seq<Option<nat>>, route: DocId -> nat)
    requires Serves(client, nodes) && PinsOf(pins, client)
    requires Routed(PinnedShards(nodes, pins), route)
    ensures Sum(PinnedCounts(client, pins)) == |Collection(PinnedShards(nodes, pins))|
  {
    forall sid | 0 <= sid < |pins|
      ensures PinnedCounts(client, pins)[sid] == |PinnedShards(nodes, pins)[sid]|
    {
      FirstAnsweringAnswers(client, sid, client.placement[sid]);
    }
    CountsAddUp(PinnedCounts(client, pins), PinnedShards(nodes, pins), route);
  }

  // ---------------------------------------------------------------------------
  // Gathering one term
  // ---------------------------------------------------------------------------

  /** Pinned shards whose replica fails to answer for this term. */
  ghost function Refusing(client: Client, term: string, pins: seq<Option<nat>>): set<nat> {
    set sid | 0 <= sid < |pins| && pins[sid].Some? && client.search(term, sid, pins[sid].value).isError
  }

  function ListAt(client: Client, term: string, pins: seq<Option<nat>>, sid: nat): seq<Posting>
    requires sid < |pins|
  {
    if pins[sid].None? then []
    else
      var reply := client.search(term, sid, pins[sid].value);
      if reply.isError || reply.termsPostings == [] then [] else reply.termsPostings[0]
  }

  function Lists(client: Client, term: string, pins: seq<Option<nat>>): seq<seq<Posting>> {
    seq(|pins|, sid requires 0 <= sid < |pins| => ListAt(client, term, pins, sid))
  }

  /** `collect_postings`: the shards' replies in shard order, and who failed. */
  method CollectPostings(client: Client, term: string, pins: seq<Option<nat>>)
    returns (postings: seq<Posting>, failures: seq<Failure>)
    requires Placed(client) && |pins| == |client.placement|
    ensures postings == Concat(Lists(client, term, pins))
    ensures FailedShards(failures) == Unpinned(pins) + Refusing(client, term, pins)
  {
    postings, failures := [], [];
    for sid := 0 to |pins|
      invariant postings == Concat(Lists(client, term, pins[..sid]))
      invariant FailedShards(failures) == Unpinned(pins[..sid]) + Refusing(client, term, pins[..sid])
    {
      assert pins[..sid + 1] == pins[..sid] + [pins[sid]];
      UnpinnedSnoc(pins[..sid], pins[sid]);
      ListsSnoc(client, term, pins, sid);
      RefusingSnoc(client, term, pins, sid);
      var failed := pins[sid].None? || client.search(term, sid, pins[sid].value).isError;
      if failed {
        var f := Failure(sid, client.placement[sid][0], false);
        OneMoreFailure(failures, f);
        failures := failures + [f];
      } else {
        var reply := client.search(term, sid, pins[sid].value);
        if reply.termsPostings != [] {
          postings := postings + reply.termsPostings[0];
        }
      }
    }
    assert pins[..|pins|] == pins;
  }

  lemma ListsSnoc(client: Client, term: string, pins: seq<Option<nat>>, sid: nat)
    requires sid < |pins|
    ensures Concat(Lists(client, term, pins[..sid + 1]))
         == Concat(Lists(client, term, pins[..sid])) + ListAt(client, term, pins, sid)
  {
    var lists := Lists(client, term, pins[..sid + 1]);
    assert lists[..sid] == Lists(client, term, pins[..sid]);
  }

  lemma RefusingSnoc(client: Client, term: string, pins: seq<Option<nat>>, sid: nat)
    requires sid < |pins|
    ensures Refusing(client, term, pins[..sid + 1]) == Refusing(client, term, pins[..sid])
              + if pins[sid].Some? && client.search(term, sid, pins[sid].value).isError then {sid} else {}
  {
    var shorter, longer := pins[..sid], pins[..sid + 1];
    assert forall s :: 0 <= s < sid ==> shorter[s] == longer[s];
  }

  /** When every pinned replica answers, what is gathered is the list of the whole. */
  lemma GatheredIsWhole(client: Client, nodes: seq<Hosted>, pins: seq<Option<nat>>, route: DocId -> nat, term: string)
    requires Serves(client, nodes) && PinsOf(pins, client)
    requires Routed(PinnedShards(nodes, pins), route)
    requires Refusing(client, term, pins) == {}
    ensures IsListOf(Concat(Lists(client, term, pins)), Collection(PinnedShards(nodes, pins)), term)
  {
    var shards := PinnedShards(nodes, pins);
    forall sid | 0 <= sid < |pins|
      ensures Lists(client, term, pins)[sid] == PostingsFor(shards[sid], term)
    {
      PinnedList(client, nodes, pins, term, sid);
    }
    ListsConcatenate(Lists(client, term, pins), shards, route, term);
  }

  lemma PinnedList(client: Client, nodes: seq<Hosted>, pins: seq<Option<nat>>, term: string, sid: nat)
    requires Serves(client, nodes) && PinsOf(pins, client) && sid < |pins|
    requires Refusing(client, term, pins) == {}
    ensures ListAt(client, term, pins, sid) == PostingsFor(PinnedShards(nodes, pins)[sid], term)
  {
    FirstAnsweringAnswers(client, sid, client.placement[sid]);
    if pins[sid].Some? {
      assert sid !in Refusing(client, term, pins);
      assert FaithfulSearch(client.search(term, sid, pins[sid].value), nodes[pins[sid].value], sid, term);
    } else {
      EmptyPostings(PinnedShards(nodes, pins)[sid], term);
    }
  }

  lemma EmptyPostings(docs: Docs, term: string)
    requires docs == map[]
    ensures PostingsFor(docs, term) == []
  {
    assert Matching(docs, term) == {};
    ElementsEmpty(PostingsFor(docs, term));
  }

  // ---------------------------------------------------------------------------
  // Search
  // ---------------------------------------------------------------------------

  predicate ValidRequest(request: SearchRequest) {
    Trim(request.query) != "" && request.limit >= 1
  }

  function FirstN(ranked: seq<Scored>, limit: nat): seq<Scored> {
    if |ranked| <= limit then ranked else ranked[..limit]
  }

  /** The response is the ranking of these scores, cut at the limit. */
  ghost predicate AnswersWith(response: SearchResponse, scores: map<DocId, real>, limit: nat) {
    exists ranked :: IsRanking(ranked, scores)
                     && response.total == |ranked| && response.results == FirstN(ranked, limit)
  }

  lemma AnswerIsTop(response: SearchResponse, scores: map<DocId, real>, limit: nat)
    requires AnswersWith(response, scores, limit)
    ensures IsTop(response.results, response.total, scores, limit)
  {
    var ranked :| IsRanking(ranked, scores) && response.total == |ranked| && response.results == FirstN(ranked, limit);
    FrontIsTop(ranked, scores, if |ranked| < limit then |ranked| else limit, limit);
    assert ranked[..|ranked|] == ranked;
  }

  /** Completeness and errors after some calls: `clean` when no pinned replica refused. */
  ghost predicate Accounted(clean: bool, complete: bool, errors: seq<Failure>, pins: seq<Option<nat>>) {
    && (clean ==> FailedShards(errors) == Unpinned(pins) && complete == (Unpinned(pins) == {}))
    && (!clean ==> !complete && FailedShards(errors) != {})
  }

  lemma AccountedStep(clean: bool, complete: bool, errors: seq<Failure>, pins: seq<Option<nat>>,
                      more: seq<Failure>, refusing: set<nat>)
    requires Accounted(clean, complete, errors, pins)
    requires FailedShards(more) == Unpinned(pins) + refusing
    ensures Accounted(clean && refusing == {}, complete && more == [], errors + more, pins)
  {
    MoreFailures(errors, more);
    NoFailures(more);
  }

  /** What holds of a query once its replicas are pinned. */
  ghost predicate Pinned(client: Client, nodes: seq<Hosted>, pins: seq<Option<nat>>, route: DocId -> nat, total: nat) {
    && Serves(client, nodes) && PinsOf(pins, client)
    && Routed(PinnedShards(nodes, pins), route)
    && total == |Collection(PinnedShards(nodes, pins))|
  }

  ghost predicate NoneRefuses(client: Client, terms: seq<string>, pins: seq<Option<nat>>) {
    forall t :: t in terms ==> Refusing(client, t, pins) == {}
  }

  /** One term's fan-out, with the bookkeeping of its failures. */
  method GatherTerm(client: Client, term: string, pins: seq<Option<nat>>, ghost total: nat,
                    wasComplete: bool, wereErrors: seq<Failure>, ghost wasClean: bool,
                    ghost nodes: seq<Hosted>, ghost route: DocId -> nat)
    returns (postings: seq<Posting>, complete: bool, errors: seq<Failure>, ghost clean: bool)
    requires Pinned(client, nodes, pins, route, total)
    requires Accounted(wasClean, wasComplete, wereErrors, pins)
    ensures Accounted(clean, complete, errors, pins)
    ensures clean == (wasClean && Refusing(client, term, pins) == {})
    ensures clean ==> IsListOf(postings, Collection(PinnedShards(nodes, pins)), term)
                      && |postings| == DocumentFrequency(Collection(PinnedShards(nodes, pins)), term)
  {
    var failures;
    postings, failures := CollectPostings(client, term, pins);
    AccountedStep(wasClean, wasComplete, wereErrors, pins, failures, Refusing(client, term, pins));
    clean := wasClean && Refusing(client, term, pins) == {};
    complete, errors := wasComplete && failures == [], wereErrors + failures;
    if clean {
      GatheredIsWhole(client, nodes, pins, route, term);
      ListLength(postings, Collection(PinnedShards(nodes, pins)), term);
    }
  }

  method GatherAnd(client: Client, terms: seq<string>, pins: seq<Option<nat>>, total: nat, ln: real -> real,
                   wasComplete: bool, wereErrors: seq<Failure>, ghost nodes: seq<Hosted>, ghost route: DocId -> nat)
    returns (infos: seq<TermInfo>, missing: bool, complete: bool, errors: seq<Failure>, ghost clean: bool)
    requires Pinned(client, nodes, pins, route, total)
    requires Accounted(true, wasComplete, wereErrors, pins)
    ensures Accounted(clean, complete, errors, pins)
    ensures NoneRefuses(client, terms, pins) ==> clean
    ensures !missing ==> |infos| == |terms|
    ensures !missing && clean ==> InfosFor(infos, ln, Collection(PinnedShards(nodes, pins)), terms)
    ensures missing && clean ==>
              exists t :: t in terms && DocumentFrequency(Collection(PinnedShards(nodes, pins)), t) == 0
  {
    ghost var docs := Collection(PinnedShards(nodes, pins));
    infos, missing, complete, errors, clean := [], false, wasComplete, wereErrors, true;
    for k := 0 to |terms|
      invariant Accounted(clean, complete, errors, pins)
      invariant NoneRefuses(client, terms, pins) ==> clean
      invariant |infos| == k
      invariant clean ==> InfosFor(infos, ln, docs, terms[..k])
    {
      var postings;
      postings, complete, errors, clean :=
        GatherTerm(client, terms[k], pins, total, complete, errors, clean, nodes, route);
      if postings == [] {
        missing := true;
        return;
      }
      var info := TermInfo(terms[k], postings, Idf(ln, total, |postings|));
      if clean { InfosSnoc(infos, info, ln, docs, terms, k); }
      infos := infos + [info];
    }
    assert terms[..|terms|] == terms;
  }

  method GatherOr(client: Client, terms: seq<string>, pins: seq<Option<nat>>, total: nat, ln: real -> real,
                  wasComplete: bool, wereErrors: seq<Failure>, ghost nodes: seq<Hosted>, ghost route: DocId -> nat)
    returns (scores: map<DocId, real>, complete: bool, errors: seq<Failure>, ghost clean: bool)
    requires Pinned(client, nodes, pins, route, total) && Distinct(terms)
    requires Accounted(true, wasComplete, wereErrors, pins)
    ensures Accounted(clean, complete, errors, pins)
    ensures NoneRefuses(client, terms, pins) ==> clean
    ensures clean ==> PartialOr(scores, ln, Collection(PinnedShards(nodes, pins)), Elements(terms))
  {
    ghost var docs := Collection(PinnedShards(nodes, pins));
    scores, complete, errors, clean := map[], wasComplete, wereErrors, true;
    NoScoresYet(ln, docs);
    hide PartialOr, Accounted, Serves, PinsOf, Routed, Idf;
    assert terms[..0] == [];
    for k := 0 to |terms|
      invariant Accounted(clean, complete, errors, pins)
      invariant NoneRefuses(client, terms, pins) ==> clean
      invariant clean ==> PartialOr(scores, ln, docs, Elements(terms[..k]))
    {
      OneMoreTerm(terms, k);
      var postings;
      postings, complete, errors, clean :=
        GatherTerm(client, terms[k], pins, total, complete, errors, clean, nodes, route);
      if clean && postings == [] {
        MissingTerm(scores, ln, docs, Elements(terms[..k]), terms[k]);
      }
      if postings != [] {
        var info := TermInfo(terms[k], postings, Idf(ln, total, |postings|));
        scores := ScoreOneMore(scores, info, ln, docs, Elements(terms[..k]));
      }
    }
    assert terms[..|terms|] == terms;
  }

  method Respond(scores: map<DocId, real>, limit: nat, complete: bool, errors: seq<Failure>)
    returns (response: SearchResponse)
    ensures !response.isError && response.complete == complete && response.errors == errors
    ensures AnswersWith(response, scores, limit)
  {
    var ranked := SortScores(scores);
    response := SearchResponse(false, complete, |ranked|, FirstN(ranked, limit), errors);
  }

  lemma EmptyAnswer(response: SearchResponse, limit: nat)
    requires response.total == 0 && response.results == []
    ensures AnswersWith(response, map[], limit)
  {
    var none: seq<Scored> := [];
    assert IsRanking(none, map[]);
    assert FirstN(none, limit) == [];
  }

  method SearchAnd(client: Client, terms: seq<string>, limit: nat, ln: real -> real, total: nat,
                   wasComplete: bool, wereErrors: seq<Failure>, pins: seq<Option<nat>>,
                   ghost nodes: seq<Hosted>, ghost route: DocId -> nat)
    returns (response: SearchResponse, ghost clean: bool)
    requires Pinned(client, nodes, pins, route, total)
    requires terms != [] && Distinct(terms)
    requires Accounted(true, wasComplete, wereErrors, pins)
    ensures !response.isError && Accounted(clean, response.complete, response.errors, pins)
    ensures NoneRefuses(client, terms, pins) ==> clean
    ensures clean ==>
              AnswersWith(response, Scores(ln, Collection(PinnedShards(nodes, pins)), Elements(terms), And), limit)
  {
    ghost var docs := Collection(PinnedShards(nodes, pins));
    var infos, missing, complete, errors;
    infos, missing, complete, errors, clean :=
      GatherAnd(client, terms, pins, total, ln, wasComplete, wereErrors, nodes, route);
    if missing {
      response := SearchResponse(false, complete, 0, [], errors);
      EmptyAnswer(response, limit);
      if clean {
        var t :| t in terms && DocumentFrequency(docs, t) == 0;
        MissingTermPoisons(ln, docs, Elements(terms), t);
      }
    } else {
      var scores := ScoreAnd(infos, ln, docs, terms);
      response := Respond(scores, limit, complete, errors);
    }
  }

  method SearchOr(client: Client, terms: seq<string>, limit: nat, ln: real -> real, total: nat,
                  wasComplete: bool, wereErrors: seq<Failure>, pins: seq<Option<nat>>,
                  ghost nodes: seq<Hosted>, ghost route: DocId -> nat)
    returns (response: SearchResponse, ghost clean: bool)
    requires Pinned(client, nodes, pins, route, total)
    requires terms != [] && Distinct(terms)
    requires Accounted(true, wasComplete, wereErrors, pins)
    ensures !response.isError && Accounted(clean, response.complete, response.errors, pins)
    ensures NoneRefuses(client, terms, pins) ==> clean
    ensures clean ==>
              AnswersWith(response, Scores(ln, Collection(PinnedShards(nodes, pins)), Elements(terms), Or), limit)
  {
    var scores, complete, errors;
    scores, complete, errors, clean :=
      GatherOr(client, terms, pins, total, ln, wasComplete, wereErrors, nodes, route);
    if clean {
      PartialOrIsScores(scores, ln, Collection(PinnedShards(nodes, pins)), Elements(terms));
    }
    response := Respond(scores, limit, complete, errors);
  }

  /** No document is stored outside the shard it routes to, on any node. */
  ghost predicate RoutedNodes(nodes: seq<Hosted>, route: DocId -> nat) {
    forall n: nat, sid: nat, id: DocId :: n < |nodes| && sid in nodes[n] && id in nodes[n][sid] ==> route(id) == sid
  }

  /** The documents a query sees: those of the first replica of each shard that
      answered the count. */
  ghost function Visible(client: Client, nodes: seq<Hosted>): Docs {
    Collection(PinnedShards(nodes, PinsFor(client)))
  }

  ghost function Unreachable(client: Client): set<nat> {
    Unpinned(PinsFor(client))
  }

  /** The scores of a request over a collection: what the single-index service ranks. */
  ghost function RequestScores(ln: real -> real, docs: Docs, request: SearchRequest): map<DocId, real> {
    Scores(ln, docs, DistinctTerms(request.query), request.mode)
  }

  /** A shard is out of reach exactly when no replica of it answers the count. */
  lemma UnreachableIff(client: Client, sid: nat)
    ensures sid in Unreachable(client) <==>
              sid < |client.placement| && forall n :: n in client.placement[sid] ==> client.count(sid, n).isError
  {
    if sid < |client.placement| {
      FirstAnsweringAnswers(client, sid, client.placement[sid]);
    }
  }

  ghost predicate SomeReplicaAnswers(client: Client, sid: nat)
    requires sid < |client.placement|
  {
    exists n :: n in client.placement[sid] && !client.count(sid, n).isError
  }

  lemma AllReachable(client: Client)
    requires Unreachable(client) == {}
    ensures forall sid :: 0 <= sid < |client.placement| ==> SomeReplicaAnswers(client, sid)
  {
    forall sid | 0 <= sid < |client.placement| ensures SomeReplicaAnswers(client, sid) {
      UnreachableIff(client, sid);
    }
  }

  lemma PinnedFromVisible(client: Client, nodes: seq<Hosted>, route: DocId -> nat)
    requires Serves(client, nodes) && RoutedNodes(nodes, route)
    ensures Pinned(client, nodes, PinsFor(client), route, Sum(PinnedCounts(client, PinsFor(client))))
  {
    var pins := PinsFor(client);
    var shards := PinnedShards(nodes, pins);
    forall sid: nat, id: DocId | sid < |shards| && id in shards[sid] ensures route(id) == sid {
      FirstAnsweringAnswers(client, sid, client.placement[sid]);
    }
    TotalIsCollectionSize(client, nodes, pins, route);
  }

  /** Cross-shard search. A complete response ranks exactly the whole collection, read
      from one replica per shard. When the pinned replicas keep answering, the response
      ranks exactly the reachable part, and reports exactly the unreachable shards. */
  method Search(client: Client, request: SearchRequest, ln: real -> real, ghost nodes: seq<Hosted>,
                ghost route: DocId -> nat)
    returns (response: SearchResponse)
    requires Serves(client, nodes) && RoutedNodes(nodes, route)
    ensures response.isError <==>
              request.limit == 0 || forall i :: 0 <= i < |request.query| ==> IsBlankChar(request.query[i])
    ensures response.complete <==> response.errors == []
    ensures response.isError || Tokenize(request.query) == [] ==>
              response.complete && response.total == 0 && response.results == []
    ensures !response.isError && Tokenize(request.query) != [] && response.complete ==>
              && Unreachable(client) == {}
              && (forall sid :: 0 <= sid < |client.placement| ==> SomeReplicaAnswers(client, sid))
              && AnswersWith(response, RequestScores(ln, Visible(client, nodes), request), request.limit)
              && IsTop(response.results, response.total, RequestScores(ln, Visible(client, nodes), request),
                       request.limit)
    ensures !response.isError && Tokenize(request.query) != []
            && NoneRefuses(client, Tokenize(request.query), PinsFor(client)) ==>
              && AnswersWith(response, RequestScores(ln, Visible(client, nodes), request), request.limit)
              && IsTop(response.results, response.total, RequestScores(ln, Visible(client, nodes), request),
                       request.limit)
              && FailedShards(response.errors) == Unreachable(client)
  {
    NoFailures([]);
    BlankIff(request.query);
    if !ValidRequest(request) {
      return SearchResponse(true, true, 0, [], []);
    }
    var tokens := TokenizeLoop(request.query);
    if tokens == [] {
      return SearchResponse(false, true, 0, [], []);
    }
    var terms := DedupTerms(tokens);
    SortedTermsDistinct(terms);
    assert tokens[0] in terms && Elements(terms) == DistinctTerms(request.query);
    assert NoneRefuses(client, Tokenize(request.query), PinsFor(client)) ==>
      NoneRefuses(client, terms, PinsFor(client));

    var total, complete, errors, pins := ComputeGlobalN(client);
    PinnedFromVisible(client, nodes, route);
    ghost var clean := true;
    if total == 0 {
      response := SearchResponse(false, complete, 0, [], errors);
      NothingToScore(ln, Visible(client, nodes), Elements(terms), request.mode);
      EmptyAnswer(response, request.limit);
    } else if request.mode == And {
      response, clean := SearchAnd(client, terms, request.limit, ln, total, complete, errors, pins, nodes, route);
    } else {
      response, clean := SearchOr(client, terms, request.limit, ln, total, complete, errors, pins, nodes, route);
    }
    NoFailures(response.errors);
    if Unreachable(client) == {} { AllReachable(client); }
    if AnswersWith(response, RequestScores(ln, Visible(client, nodes), request), request.limit) {
      AnswerIsTop(response, RequestScores(ln, Visible(client, nodes), request), request.limit);
    }
  }

  // ---------------------------------------------------------------------------
  // Against the single-index service
  // ---------------------------------------------------------------------------

  /** src/search_service.cpp:64-106: the centralised service over one index. */
  method ServiceSearch(index: InvertedIndex, request: SearchRequest, ln: real -> real)
    returns (response: SearchResponse)
    requires index.Valid()
    ensures response.isError <==>
              request.limit == 0 || forall i :: 0 <= i < |request.query| ==> IsBlankChar(request.query[i])
    ensures response.complete && response.errors == []
    ensures !response.isError ==>
              && AnswersWith(response, RequestScores(ln, index.docs, request), request.limit)
              && IsTop(response.results, response.total, RequestScores(ln, index.docs, request), request.limit)
  {
    BlankIff(request.query);
    if !ValidRequest(request) {
      return SearchResponse(true, true, 0, [], []);
    }
    var query := Trim(request.query);
    TrimKeepsTokens(request.query);
    var ranked: seq<Scored>;
    if request.mode == And {
      ranked := RankedAnd(index, query, ln);
    } else {
      ranked := RankedOr(index, query, ln);
    }
    response := SearchResponse(false, true, |ranked|, FirstN(ranked, request.limit), []);
    AnswerIsTop(response, RequestScores(ln, index.docs, request), request.limit);
  }

  lemma SameAnswer(a: SearchResponse, b: SearchResponse, scores: map<DocId, real>, limit: nat)
    requires AnswersWith(a, scores, limit) && AnswersWith(b, scores, limit)
    ensures a.total == b.total && a.results == b.results
  {
    var x :| IsRanking(x, scores) && a.total == |x| && a.results == FirstN(x, limit);
    var y :| IsRanking(y, scores) && b.total == |y| && b.results == FirstN(y, limit);
    RankingUnique(x, y, scores);
  }

  /** All replicas of a shard hold the same documents. */
  ghost predicate ReplicasAgree(client: Client, nodes: seq<Hosted>, shards: seq<Docs>) {
    && |shards| == |client.placement|
    && forall sid: nat, n: nat :: sid < |shards| && n in client.placement[sid] && n < |nodes| ==>
         sid in nodes[n] && nodes[n][sid] == shards[sid]
  }

  /** What agreeing replicas show is the collection of the shards that answered. */
  lemma VisibleOfAgreeing(client: Client, nodes: seq<Hosted>, shards: seq<Docs>)
    requires Serves(client, nodes) && ReplicasAgree(client, nodes, shards)
    ensures PinnedShards(nodes, PinsFor(client))
         == seq(|shards|, sid requires 0 <= sid < |shards| => if sid in Unreachable(client) then map[] else shards[sid])
  {
    var pins := PinsFor(client);
    forall sid | 0 <= sid < |shards|
      ensures PinnedShards(nodes, pins)[sid] == if sid in Unreachable(client) then map[] else shards[sid]
    {
      FirstAnsweringAnswers(client, sid, client.placement[sid]);
    }
  }

  /** Distributed search refines centralised search: with agreeing replicas and one big
      index of the documents of the reachable shards, the coordinator returns the same
      identifiers, scores, order, total and cut whenever its answer is complete, or
      partial for no other reason than unreachable shards. */
  method DistributedIsCentralised(client: Client, request: SearchRequest, ln: real -> real, index: InvertedIndex,
                                  ghost nodes: seq<Hosted>, ghost route: DocId -> nat, ghost shards: seq<Docs>)
    returns (distributed: SearchResponse, central: SearchResponse)
    requires Serves(client, nodes) && RoutedNodes(nodes, route) && ReplicasAgree(client, nodes, shards)
    requires index.Valid()
    requires index.docs == Collection(
      seq(|shards|, sid requires 0 <= sid < |shards| => if sid in Unreachable(client) then map[] else shards[sid]))
    ensures distributed.isError == central.isError
    ensures !distributed.isError
            && (distributed.complete || NoneRefuses(client, Tokenize(request.query), PinsFor(client))) ==>
              distributed.total == central.total && distributed.results == central.results
    ensures !distributed.isError && distributed.complete && Tokenize(request.query) != [] ==>
              Unreachable(client) == {}
  {
    distributed := Search(client, request, ln, nodes, route);
    central := ServiceSearch(index, request, ln);
    VisibleOfAgreeing(client, nodes, shards);
    var scores := RequestScores(ln, index.docs, request);
    if !distributed.isError {
      if Tokenize(request.query) == [] {
        QueryTermsEmpty(request.query);
        assert scores == map[];
        EmptyAnswer(distributed, request.limit);
        SameAnswer(distributed, central, scores, request.limit);
      } else if distributed.complete || NoneRefuses(client, Tokenize(request.query), PinsFor(client)) {
        SameAnswer(distributed, central, scores, request.limit);
      }
    }
  }

  // ---------------------------------------------------------------------------
  // Reads with failover
  // ---------------------------------------------------------------------------

  ghost predicate AllFail(client: Client, sid: nat, id: DocId, replicas: seq<nat>) {
    forall n :: n in replicas ==> client.get(sid, id, n).isError
  }

  /** The first replica whose read succeeds. */
  function FirstReading(client: Client, sid: nat, id: DocId, replicas: seq<nat>): Option<nat> {
    if replicas == [] then None
    else if !client.get(sid, id, replicas[0]).isError then Some(replicas[0])
    else FirstReading(client, sid, id, replicas[1..])
  }

  lemma {:induction false} FirstReadingReads(client: Client, sid: nat, id: DocId, replicas: seq<nat>)
    ensures FirstReading(client, sid, id, replicas).None? <==> AllFail(client, sid, id, replicas)
    ensures FirstReading(client, sid, id, replicas).Some? ==>
              FirstReading(client, sid, id, replicas).value in replicas
              && !client.get(sid, id, FirstReading(client, sid, id, replicas).value).isError
              && exists k :: 0 <= k < |replicas| && replicas[k] == FirstReading(client, sid, id, replicas).value
                             && forall j :: 0 <= j < k ==> client.get(sid, id, replicas[j]).isError
  {
    if replicas != [] {
      FirstReadingReads(client, sid, id, replicas[1..]);
      assert forall n :: n in replicas <==> n == replicas[0] || n in replicas[1..];
      if client.get(sid, id, replicas[0]).isError && FirstReading(client, sid, id, replicas).Some? {
        var k :| 0 <= k < |replicas| - 1 && replicas[1..][k] == FirstReading(client, sid, id, replicas).value
                 && forall j :: 0 <= j < k ==> client.get(sid, id, replicas[1..][j]).isError;
        assert replicas[k + 1] == FirstReading(client, sid, id, replicas).value;
        assert forall j :: 1 <= j < k + 1 ==> replicas[j] == replicas[1..][j - 1];
      }
    }
  }

  /** What a read of one node's copy of a document gives. */
  function ReadAt(nodes: seq<Hosted>, n: nat, sid: nat, id: DocId): Option<string> {
    if n < |nodes| && id in DocsOf(nodes[n], sid) then Some(DocsOf(nodes[n], sid)[id]) else None
  }

  /** The first replica that answers decides, also when it does not have the document. */
  method GetDocument(client: Client, route: DocId -> nat, id: DocId, ghost nodes: seq<Hosted>)
    returns (content: Option<string>)
    requires Serves(client, nodes) && route(id) < |client.placement|
    ensures var first := FirstReading(client, route(id), id, client.placement[route(id)]);
            content == if first.None? then None else ReadAt(nodes, first.value, route(id), id)
  {
    var sid := route(id);
    var replicas := client.placement[sid];
    for k := 0 to |replicas|
      invariant FirstReading(client, sid, id, replicas[k..]) == FirstReading(client, sid, id, replicas)
    {
      var n := replicas[k];
      assert replicas[k..][1..] == replicas[k + 1..];
      assert n in client.placement[sid];
      var reply := client.get(sid, id, n);
      assert FaithfulGet(reply, nodes[n], sid, id);
      if !reply.isError {
        return if reply.found then Some(reply.content) else None;
      }
    }
    content := None;
  }

  /** With replicas that agree on a document, any failover reads the same value. */
  method FailoverReadsAgree(client: Client, other: Client, route: DocId -> nat, id: DocId,
                            ghost nodes: seq<Hosted>, ghost shards: seq<Docs>)
    returns (a: Option<string>, b: Option<string>)
    requires Serves(client, nodes) && Serves(other, nodes) && other.placement == client.placement
    requires ReplicasAgree(client, nodes, shards) && route(id) < |shards|
    requires !AllFail(client, route(id), id, client.placement[route(id)])
    requires !AllFail(other, route(id), id, client.placement[route(id)])
    ensures a == b == if id in shards[route(id)] then Some(shards[route(id)][id]) else None
  {
    a := GetDocument(client, route, id, nodes);
    b := GetDocument(other, route, id, nodes);
    FirstReadingReads(client, route(id), id, client.placement[route(id)]);
    FirstReadingReads(other, route(id), id, client.placement[route(id)]);
  }
}
