/** The block chain a replica keeps: a forest, the collected votes and counters. */
module BlockChains {
  import opened Types
  import opened Collections
  import opened ForestModel
  import opened ChainModel
  import opened LevelledForests
  import opened Quorums

  function BlocksOf(vs: seq<Vertex>): (bs: seq<Block>)
    ensures |bs| == |vs| && forall i | 0 <= i < |vs| :: bs[i] == vs[i].block
  {
    seq(|vs|, i requires 0 <= i < |vs| => vs[i].block)
  }

  class BlockChain {
    const forest: LevelledForest
    const quorum: Quorum
    var highestCommitted: nat
    var committedNo: nat
    var intervals: int
    var prunedNo: nat

    ghost predicate Valid()
      reads forest, forest.containers
    {
      forest.Valid() && Indexed(forest.state)
    }

    ghost function State(): Chain
      reads this, forest, quorum
    {
      Chain(forest.state, quorum.votes, highestCommitted, committedNo, intervals, prunedNo)
    }

    constructor (n: nat)
      ensures Valid() && State() == EmptyChain && quorum.total == n
      ensures fresh(forest) && fresh(quorum) && forest.containers == {}
    {
      forest := new LevelledForest();
      quorum := new Quorum(n);
      highestCommitted, committedNo, intervals, prunedNo := 0, 0, 0, 0;
    }

    method AddBlock(b: Block)
      requires Valid()
      modifies forest, forest.containers
      ensures Valid() && State() == ChainModel.AddBlock(old(State()), b)
      ensures forest.containers >= old(forest.containers) && fresh(forest.containers - old(forest.containers))
    {
      AddVertexIndexed(forest.state, VertexOf(b));
      forest.AddVertex(VertexOf(b));
    }

    method GetBlockByID(id: Identifier) returns (b: Option<Block>)
      requires Valid()
      ensures b == GetBlock(forest.state, id)
    {
      var v := forest.GetVertex(id);
      b := if v.Some? then Some(v.value.block) else None;
    }

    /** Forgets the votes for a committed block and counts it. */
    method CountCommitted(block: Block, seqNo: Seq)
      requires Valid()
      modifies this, quorum
      ensures Valid()
      ensures State() == Counted(old(State()), block, seqNo)
    {
      hide Valid;
      if quorum.VotesExist(block.id) {
        quorum.RemoveVote(block.id);
      }
      committedNo := committedNo + 1;
      intervals := intervals + seqNo - block.seqNo;
    }

    /** Walks from the target over PrevID, forgetting the votes and counting the blocks it passes. */
    method WalkToLowest(target: Block, seqNo: Seq) returns (committed: seq<Block>)
      requires Valid() && Traverse(forest.state, target, {}).Some?
      modifies this, quorum
      ensures Valid()
      ensures Some(committed) == Traverse(forest.state, target, {})
      ensures State() == Walked(old(State()), committed, seqNo)
    {
      hide Valid, Walked, Counted, GetBlock;
      committed := [];
      var block := target;
      NothingWalked(State(), seqNo);
      LowestIsModelled();
      ghost var followed := {};
      while block.seqNo > forest.lowestLevel
        invariant Valid() && forest.lowestLevel == forest.state.lowest
        invariant Traverse(forest.state, block, followed).Some?
        invariant committed + Traverse(forest.state, block, followed).value == Traverse(forest.state, target, {}).value
        invariant State() == Walked(old(State()), committed, seqNo)
        decreases forest.state.vertices.Keys - followed
      {
        WalkedOne(old(State()), committed, block, seqNo);
        TraverseStep(forest.state, block, followed, committed);
        CountCommitted(block, seqNo);
        committed := committed + [block];
        var parent := GetBlockByID(block.prevID);
        if parent.None? {
          return;
        }
        followed := followed + {block.prevID};
        block := parent.value;
      }
      TraverseEnds(forest.state, block, followed);
      assert committed + [] == committed;
    }

    /** Commits the target and its unreported ancestors and prunes below it; neither may get stuck. */
    method CommitBlock(id: Identifier, seqNo: Seq) returns (ok: bool, committed: seq<Block>, forked: seq<Block>)
      requires Valid() && !ChainModel.CommitBlock(State(), id, seqNo).Stuck?
      modifies this, quorum, forest
      ensures Valid() && forest.containers == old(forest.containers)
      ensures var r := ChainModel.CommitBlock(old(State()), id, seqNo);
              match r
              case NotFound => !ok && State() == old(State())
              case Refused(c) => !ok && State() == c
              case Committed(c, cs, fs) => ok && State() == c && committed == cs && forked == fs
              case Stuck => false
    {
      hide Valid, Traverse, Walked, ForestModel.PruneUpToLevel;
      ok, committed, forked := false, [], [];
      var target := GetBlockByID(id);
      if target.None? {
        return;
      }
      committed, forked, ok := CommitTarget(target.value, seqNo);
    }

    lemma LowestIsModelled()
      requires Valid()
      ensures forest.lowestLevel == forest.state.lowest
    {
    }

    method CommitTarget(target: Block, seqNo: Seq) returns (committed: seq<Block>, forked: seq<Block>, ok: bool)
      requires Valid() && Traverse(forest.state, target, {}).Some?
      requires !ForestModel.PruneUpToLevel(forest.state, target.seqNo).Stuck?
      modifies this, quorum, forest
      ensures Valid() && forest.containers == old(forest.containers)
      ensures Some(committed) == Traverse(old(forest.state), target, {})
      ensures var walked := Walked(old(State()).(highestCommitted := target.seqNo), committed, seqNo);
              match ForestModel.PruneUpToLevel(old(forest.state), target.seqNo)
              case Refused => !ok && State() == walked
              case Pruned(f, fs, n) =>
                ok && State() == walked.(forest := f, prunedNo := old(prunedNo) + n) && forked == fs
              case Stuck => false
    {
      hide Valid, Traverse, PruneWalk, Forked, Listed, Cut;
      highestCommitted := target.seqNo;
      committed := WalkToLowest(target, seqNo);
      var n;
      forked, n, ok := PruneForest(target.seqNo);
      if ok {
        prunedNo := prunedNo + n;
      }
    }

    method PruneForest(level: nat) returns (forked: seq<Block>, n: nat, ok: bool)
      requires Valid() && !ForestModel.PruneUpToLevel(forest.state, level).Stuck?
      modifies forest
      ensures Valid() && forest.containers == old(forest.containers)
      ensures ok <==> level >= old(forest.state).lowest
      ensures ok ==> ForestModel.PruneUpToLevel(old(forest.state), level) == Pruned(forest.state, forked, n)
      ensures !ok ==> forest.state == old(forest.state)
    {
      if level >= forest.lowestLevel {
        CutIndexed(forest.state, level);
      }
      forked, n, ok := forest.PruneUpToLevel(level);
    }

    /** The source dereferences the container of id: it must exist. */
    method GetChildrenBlocks(id: Identifier) returns (blocks: seq<Block>)
      requires Valid() && id in forest.state.vertices
      ensures blocks == BlocksOf(forest.state.vertices[id].children)
    {
      hide Indexed, LevelledForest.EntryHolds, LevelledForest.ListHolds, LevelledForest.ChildrenKnown;
      forest.EntryFacts(id);
      ghost var children := forest.state.vertices[id].children;
      var it := forest.GetChildren(id);
      assert it.Rest() == children;
      blocks := Drain(it);
    }
  }

  /** The blocks of the vertices an iterator has left. */
  method Drain(it: VertexIterator) returns (blocks: seq<Block>)
    requires it.Valid()
    modifies it
    ensures blocks == BlocksOf(old(it.Rest()))
  {
    blocks := [];
    ghost var all, done := it.Rest(), [];
    NoneDone(all);
    while it.HasNext()
      invariant it.Valid()
      invariant all == done + it.Rest() && blocks == BlocksOf(done)
      decreases |it.Rest()|
    {
      OneDone(all, done, it.Rest());
      BlocksOfMore(done, it.Rest()[0]);
      done := done + [it.Rest()[0]];
      var v := it.NextVertex();
      blocks := blocks + [v.value.block];
    }
    assert all == done;
  }

  lemma BlocksOfMore(vs: seq<Vertex>, v: Vertex)
    ensures BlocksOf(vs + [v]) == BlocksOf(vs) + [v.block]
  {
  }
}
