/** src/local_node.cpp: a node hosts shards and answers requests about one shard at a
    time. Its state is the map from hosted shard to documents, and the files on disk. */
module Nodes {
  import opened Documents
  import opened Tokenizer
  import opened Index
  import opened Shards

  /** The documents a node serves, shard by shard. */
  type Hosted = map<nat, Docs>

  /** A missing shard counts as empty (src/local_node.cpp:219-230). */
  function DocsOf(hosted: Hosted, sid: nat): Docs {
    if sid in hosted then hosted[sid] else map[]
  }

  datatype SearchReply = SearchReply(isError: bool, count: nat, termsPostings: seq<seq<Posting>>)
  datatype WriteReply = WriteReply(isError: bool, termsIndexed: nat)
  datatype GetReply = GetReply(isError: bool, found: bool, content: string)

  /** What became of an attempt to write a shard's file. The file is opened for truncation
      first, so a write that fails afterwards leaves the lines it got to, and possibly the
      beginning of another. */
  datatype WriteOutcome = Written | NotOpened | CutShort(kept: nat, broken: bool)

  type Files = map<nat, seq<Line>>

  /** How one attempt to save `docs` as the file of shard `sid` changes the files. */
  ghost predicate Wrote(before: Files, after: Files, sid: nat, docs: Docs, outcome: WriteOutcome) {
    match outcome
    case NotOpened => after == before
    case Written => sid in after && after == before[sid := after[sid]] && IsSaved(after[sid], docs)
    case CutShort(kept, broken) =>
      && sid in after && after == before[sid := after[sid]]
      && exists lines :: IsSaved(lines, docs) && after[sid] == KeptLines(lines, kept, broken)
  }

  /** What a shard's file loads as after an attempt to save `docs`. */
  function FileAfter(held: Docs, docs: Docs, outcome: WriteOutcome): Docs {
    match outcome
    case NotOpened => held
    case Written => docs
    case CutShort(kept, _) => FirstDocs(docs, kept)
  }

  /** The documents a shard loads; one without a file loads empty. */
  function FileDocs(files: Files, sid: nat): Docs {
    if sid in files then LoadLines(files[sid]) else map[]
  }

  lemma WroteLoads(before: Files, after: Files, sid: nat, docs: Docs, outcome: WriteOutcome)
    requires Wrote(before, after, sid, docs, outcome)
    ensures FileDocs(after, sid) == FileAfter(FileDocs(before, sid), docs, outcome)
    ensures forall s :: s != sid ==> FileDocs(after, s) == FileDocs(before, s)
  {
    match outcome
    case NotOpened =>
    case Written => SaveLoadRoundTrip(after[sid], docs);
    case CutShort(kept, broken) =>
      var lines :| IsSaved(lines, docs) && after[sid] == KeptLines(lines, kept, broken);
      CutFileLoads(lines, docs, kept, broken);
  }

  lemma NotOpenedWrites(files: Files, sid: nat)
    ensures forall docs :: Wrote(files, files, sid, docs, NotOpened)
  {
  }

  predicate AcceptsOp(hosted: Hosted, sid: nat, op: ShardOp) {
    sid in hosted && Accepts(hosted[sid], op)
  }

  function MutateHosted(hosted: Hosted, sid: nat, op: ShardOp): Hosted {
    if sid in hosted then hosted[sid := Mutate(hosted[sid], op)] else hosted
  }

  /** A refused mutation leaves the node as it was. */
  lemma RefusedMutation(hosted: Hosted, sid: nat, op: ShardOp)
    ensures !AcceptsOp(hosted, sid, op) ==> MutateHosted(hosted, sid, op) == hosted
  {
  }

  /** Idempotent application of a remote event: (acknowledged, applied). */
  function RemoteVerdict(hosted: Hosted, sid: nat, op: ShardOp): (bool, bool) {
    if sid !in hosted then (false, false)
    else
      var docs := hosted[sid];
      match op
      case Add(id, content) =>
        if id in docs then (docs[id] == content, false)
        else (IsValidContent(content), IsValidContent(content))
      case Update(id, content) =>
        if id !in docs then (false, false)
        else if docs[id] == content then (true, false)
        else (IsValidContent(content), IsValidContent(content))
      case Remove(id) =>
        (true, id in docs)
  }

  /** The document already is as the operation would leave it. */
  predicate Holds(docs: Docs, op: ShardOp) {
    match op
    case Add(id, content) => id in docs && docs[id] == content
    case Update(id, content) => id in docs && docs[id] == content
    case Remove(id) => id !in docs
  }

  /** A remote event is acknowledged exactly when its outcome is there already or the shard
      accepts the operation, and applied exactly in the second case. */
  lemma VerdictIs(hosted: Hosted, sid: nat, op: ShardOp)
    requires sid in hosted
    ensures RemoteVerdict(hosted, sid, op).0 <==> Holds(hosted[sid], op) || Accepts(hosted[sid], op)
    ensures RemoteVerdict(hosted, sid, op).1 <==> Accepts(hosted[sid], op) && !Holds(hosted[sid], op)
    ensures RemoteVerdict(hosted, sid, op).0 ==>
              Holds(if RemoteVerdict(hosted, sid, op).1 then Mutate(hosted[sid], op) else hosted[sid], op)
  {
  }

  class LocalNode {
    const nodeId: nat
    var shards: map<nat, Shard>
    var disk: Files
    ghost var Repr: set<object>

    ghost predicate Separate()
      reads this, shards.Values
    {
      && (forall s :: s in shards ==> shards[s] in Repr && shards[s].store in Repr && shards[s].index in Repr)
      && (forall s, t :: s in shards && t in shards && s != t ==>
            && shards[s] != shards[t]
            && shards[s].store != shards[t].store
            && shards[s].index != shards[t].index)
    }

    ghost predicate Valid()
      reads this, Repr, shards.Values
      ensures Valid() ==> this in Repr
    {
      && this in Repr
      && Separate()
      && forall s :: s in shards ==> shards[s].Valid()
    }

    ghost function Contents(): Hosted
      requires Valid()
      reads this, Repr, shards.Values
    {
      map s | s in shards :: shards[s].Docs()
    }

    constructor (nodeId: nat)
      ensures Valid() && fresh(Repr) && Contents() == map[]
    {
      this.nodeId := nodeId;
      shards, disk := map[], map[];
      Repr := {this};
    }

    /** `emplace`: a shard already hosted under that identifier is kept. */
    method AddShard(sid: nat, shard: Shard)
      requires Valid() && shard.Valid()
      requires shard !in Repr && shard.store !in Repr && shard.index !in Repr
      modifies this
      ensures Valid() && Repr <= old(Repr) + {shard, shard.store, shard.index}
      ensures Contents() == if sid in old(Contents()) then old(Contents()) else old(Contents())[sid := shard.Docs()]
    {
      hide Shard.Valid, Shard.Docs, Represents, Mutate;
      if sid in shards {
        return;
      }
      Repr := Repr + {shard, shard.store, shard.index};
      shards := shards[sid := shard];
    }

    method HasShard(sid: nat) returns (hosted: bool)
      requires Valid()
      ensures hosted == (sid in Contents())
    {
      hosted := sid in shards;
    }

    method Search(sid: nat, terms: seq<string>) returns (reply: SearchReply)
      requires Valid()
      ensures reply.isError == (sid !in Contents())
      ensures reply.isError ==> reply.termsPostings == []
      ensures !reply.isError ==>
                && reply.count == |Contents()[sid]| && |reply.termsPostings| == |terms|
                && forall i :: 0 <= i < |terms| ==> reply.termsPostings[i] == PostingsFor(Contents()[sid], terms[i])
    {
      if sid !in shards {
        return SearchReply(true, 0, []);
      }
      var shard := shards[sid];
      var count := shard.DocumentCount();
      var lists: seq<seq<Posting>> := [];
      for i := 0 to |terms|
        invariant |lists| == i
        invariant forall k :: 0 <= k < i ==> lists[k] == PostingsFor(shard.Docs(), terms[k])
      {
        var ps := shard.Postings(terms[i]);
        lists := lists + [ps];
      }
      reply := SearchReply(false, count, lists);
    }

    /** Never an error, even for a shard that is not hosted. */
    method DocumentCount(sid: nat) returns (count: nat)
      requires Valid()
      ensures count == |DocsOf(Contents(), sid)|
    {
      count := 0;
      if sid in shards {
        count := shards[sid].DocumentCount();
      }
    }

    method GetDocument(sid: nat, id: DocId) returns (reply: GetReply)
      requires Valid()
      ensures reply.isError == (sid !in Contents())
      ensures !reply.isError ==> reply.found == (id in Contents()[sid])
      ensures !reply.isError && reply.found ==> reply.content == Contents()[sid][id]
    {
      if sid !in shards {
        return GetReply(true, false, "");
      }
      var document := shards[sid].GetDocument(id);
      match document
      case Some(d) => reply := GetReply(false, true, d.content);
      case None => reply := GetReply(false, false, "");
    }

    /** One mutation of one hosted shard leaves every other shard as it was. */
    method MutateShard(sid: nat, op: ShardOp) returns (ok: bool)
      requires Valid() && sid in Contents()
      modifies Repr
      ensures Valid() && Repr == old(Repr) && disk == old(disk)
      ensures ok == Accepts(old(Contents()[sid]), op)
      ensures Contents() == MutateHosted(old(Contents()), sid, op)
    {
      hide Shard.Valid, Shard.Docs, Represents, Mutate;
      var shard := shards[sid];
      ok := shard.Apply(op);
      forall s | s in shards && s != sid
        ensures shards[s].Valid() && shards[s].Docs() == old(shards[s].Docs())
      {
        assert shards[s].store != shard.store && shards[s].index != shard.index;
      }
    }

    method SaveShard(sid: nat, outcome: WriteOutcome) returns (saved: bool)
      requires Valid()
      modifies this`disk
      ensures Valid() && Contents() == old(Contents())
      ensures saved == (sid in Contents() && outcome == Written)
      ensures sid !in Contents() ==> disk == old(disk)
      ensures sid in Contents() ==> Wrote(old(disk), disk, sid, Contents()[sid], outcome)
    {
      hide Shard.Valid, Shard.Docs, Represents, Mutate, IsSaved, KeptLines;
      NotOpenedWrites(disk, sid);
      if sid !in shards {
        return false;
      }
      if outcome == NotOpened {
        return false;
      }
      var lines := shards[sid].Save();
      saved := outcome == Written;
      disk := disk[sid := if saved then lines else KeptLines(lines, outcome.kept, outcome.broken)];
    }

    method CountDistinct(content: string) returns (n: nat)
      ensures n == |DistinctTerms(content)|
    {
      var tokens := TokenizeLoop(content);
      var distinct := {};
      for i := 0 to |tokens|
        invariant distinct == set t | t in tokens[..i]
      {
        assert tokens[..i + 1] == tokens[..i] + [tokens[i]];
        distinct := distinct + {tokens[i]};
      }
      assert tokens[..|tokens|] == tokens;
      n := |distinct|;
    }

    /** A write request: an error when the shard is not hosted or refuses it; the
        result of saving is ignored. */
    method Write(sid: nat, op: ShardOp, outcome: WriteOutcome) returns (reply: WriteReply)
      requires Valid()
      modifies Repr
      ensures Valid() && Repr == old(Repr)
      ensures reply.isError == !AcceptsOp(old(Contents()), sid, op)
      ensures Contents() == MutateHosted(old(Contents()), sid, op)
      ensures reply.isError ==> disk == old(disk)
      ensures !reply.isError ==> Wrote(old(disk), disk, sid, Contents()[sid], outcome)
      ensures !reply.isError && !op.Remove? ==> reply.termsIndexed == |DistinctTerms(op.content)|
    {
      hide Valid, Contents, Mutate, Wrote;
      var hosted := HasShard(sid);
      if !hosted {
        return WriteReply(true, 0);
      }
      var ok := MutateShard(sid, op);
      if !ok {
        return WriteReply(true, 0);
      }
      var saved := SaveShard(sid, outcome);
      var n := 0;
      if !op.Remove? {
        n := CountDistinct(op.content);
      }
      reply := WriteReply(false, n);
    }

    /** `apply_remote_indexed`, `apply_remote_updated` and `apply_remote_removed`. */
    method ApplyRemote(sid: nat, op: ShardOp, outcome: WriteOutcome) returns (ok: bool, applied: bool)
      requires Valid()
      modifies Repr
      ensures Valid() && Repr == old(Repr)
      ensures (ok, applied) == RemoteVerdict(old(Contents()), sid, op)
      ensures sid !in old(Contents()) ==> !ok && !applied
      ensures sid in old(Contents()) ==>
                && (ok <==> Holds(old(Contents())[sid], op) || Accepts(old(Contents())[sid], op))
                && (applied <==> Accepts(old(Contents())[sid], op) && !Holds(old(Contents())[sid], op))
      ensures Contents() == if applied then MutateHosted(old(Contents()), sid, op) else old(Contents())
      ensures ok ==> sid in Contents() && Holds(Contents()[sid], op)
      ensures !applied ==> disk == old(disk)
      ensures applied ==> Wrote(old(disk), disk, sid, Contents()[sid], outcome)
    {
      hide Valid, Contents, Mutate, Wrote;
      var hosted := HasShard(sid);
      if !hosted {
        return false, false;
      }
      VerdictIs(Contents(), sid, op);
      var existing := GetDocument(sid, op.id);
      match op {
        case Add(id, content) =>
          if existing.found {
            return existing.content == content, false;
          }
        case Update(id, content) =>
          if !existing.found {
            return false, false;
          }
          if existing.content == content {
            return true, false;
          }
        case Remove(id) =>
          if !existing.found {
            return true, false;
          }
      }
      RefusedMutation(Contents(), sid, op);
      applied := MutateShard(sid, op);
      ok := applied;
      if applied {
        var saved := SaveShard(sid, outcome);
      }
    }
  }
}
