/**
 Runs in which a replica stores blocks in order: what a caller can check before storing a block, and why
 processing then never fails.
 */
module InOrderRuns {
  import opened Types
  import opened ForestModel
  import opened ChainModel
  import opened ReplicaModel
  import opened Invariants
  import opened Handlers
  import opened ReplicaSystem
  import opened Safety
  import opened Predecessors
  import opened ReplicaChains

  /** Storing b changes nothing, or b has no container yet, and neither b nor an empty container for its
      predecessor goes to a level in use. */
  ghost predicate Fits(f: Forest, b: Block) {
    || b.seqNo < f.lowest || Full(f, b.id)
    || (&& b.id !in f.vertices && AtLevel(f, b.seqNo) == []
        && (b.seqNo > f.lowest && b.qc.seqNo >= f.lowest && b.prevID !in f.vertices ==>
              b.prevID != b.id && b.qc.seqNo != b.seqNo && AtLevel(f, b.qc.seqNo) == []))
  }

  lemma LevelsAfterFit(f: Forest, b: Block)
    requires Fits(f, b) && forall l | l in f.atLevel :: |f.atLevel[l]| <= 1
    ensures var g := AddVertex(f, VertexOf(b)); forall l | l in g.atLevel :: |g.atLevel[l]| <= 1
  {
  }

  lemma ContainersAfterFit(f: Forest, b: Block, id: Identifier)
    requires Fits(f, b) && Full(AddVertex(f, VertexOf(b)), id)
    requires Full(f, id) ==> f.vertices[id].level == f.vertices[id].vertex.value.block.seqNo
    ensures var c := AddVertex(f, VertexOf(b)).vertices[id]; c.level == c.vertex.value.block.seqNo
  {
  }

  lemma FitKeepsLevels(f: Forest, b: Block)
    requires OnePerLevel(f) && Hashed(b) && Fits(f, b)
    ensures OnePerLevel(AddVertex(f, VertexOf(b)))
  {
    hide AddVertex, Fits, Indexed, HashLinked;
    AddVertexIndexed(f, VertexOf(b));
    AddKeepsHashLinks(f, b);
    LevelsAfterFit(f, b);
    var g := AddVertex(f, VertexOf(b));
    forall id | Full(g, id) ensures g.vertices[id].level == g.vertices[id].vertex.value.block.seqNo {
      ContainersAfterFit(f, b, id);
    }
  }

  lemma CutKeepsLevels(f: Forest, level: nat)
    requires OnePerLevel(f) && level >= f.lowest
    ensures OnePerLevel(Cut(f, level))
  {
    hide Indexed, HashLinked;
    CutIndexed(f, level);
    CutKeepsHashLinks(f, level);
    assert forall id | Full(Cut(f, level), id) :: Full(f, id);
  }

  /** With one container per level, at its block's level, and parents below children, no commit gets stuck. */
  lemma CommitNeverStuck(f: Forest, id: Identifier)
    requires OnePerLevel(f) && ParentsBelow(f)
    ensures var r := CommitBlock(EmptyChain.(forest := f), id, 0);
            && !r.Stuck? && (r.Committed? ==> OnePerLevel(r.chain.forest))
  {
    hide Traverse, CommitWalk, PruneWalk, Forked, Listed, Indexed, ParentsBelow, Cut;
    if GetBlock(f, id).Some? {
      var target := GetBlock(f, id).value;
      CommitWalks(f, id);
      PruneWalkEnds(f, target, {});
      if target.seqNo >= f.lowest {
        CutKeepsLevels(f, target.seqNo);
      }
    }
  }

  /** Every block of the sequence fitted when it was stored. */
  ghost predicate InOrder(ops: seq<ChainOp>) {
    ops == [] ||
    var front, op := ops[..|ops| - 1], ops[|ops| - 1];
    InOrder(front) && (op.Store? && RunLog(front).Some? ==> Fits(RunLog(front).value.forest, op.block))
  }

  lemma {:induction false} InOrderRuns(k: Pool, ops: seq<ChainOp>)
    requires StoresFrom(k, ops) && PredecessorsBelow(k) && InOrder(ops)
    ensures RunLog(ops).Some? && OnePerLevel(RunLog(ops).value.forest)
  {
    hide OnePerLevel, PredecessorsBelow, ParentsBelow, GoodStore, CommitBlock, AddVertex, Fits;
    if ops == [] {
      assert OnePerLevel(EmptyForest) by { EmptyLevels(); }
    } else {
      var front, op := ops[..|ops| - 1], ops[|ops| - 1];
      InOrderRuns(k, front);
      var f := RunLog(front).value.forest;
      match op {
        case Store(b) => FitKeepsLevels(f, b);
        case Commit(id) =>
          ForestFromPool(k, front);
          StoredParentsBelow(k, f);
          CommitNeverStuck(f, id);
      }
    }
  }

  lemma EmptyLevels()
    ensures OnePerLevel(EmptyForest)
  {
  }

  // ---------- a replica that fails has a sequence that fails ----------

  lemma {:induction false} FailureStays(ops: seq<ChainOp>, more: seq<ChainOp>)
    requires RunLog(ops).None?
    ensures RunLog(ops + more).None?
  {
    if more == [] {
      assert ops + more == ops;
    } else {
      var front := more[..|more| - 1];
      FailureStays(ops, front);
      assert (ops + more)[..|ops + more| - 1] == ops + front;
    }
  }

  lemma CommitFailsOps(cfg: Config, k: Pool, r: Replica, b: HashedBlock, ops: seq<ChainOp>)
    requires GoodReplica(cfg, k, r) && GoodPool(cfg, k) && b in k.blocks
    requires Follows(r, ops) && CommitFails(cfg, r, b)
    ensures RunLog(ops + OpsOne(cfg, r, b)).None?
  {
    hide RunLog, Accepting, AddVertex, AllCommitted, AllForked, GoodReplica, GoodPool, CommitGuard, CommitTarget,
      CommitBlock, PruneWalk, GoodStore, HashLinked, Evidence;
    var g := AddVertex(r.chain.forest, VertexOf(b));
    StoreFollows(r, b, ops);
    StoreGood(cfg, k, r, b);
    GoodReplicaStore(cfg, k, StoreBlock(r, b));
    GoodStoreLinked(k, g);
    CommitEvidence(cfg, k, g, b);
    var target := CommitTarget(cfg, g, b.qc).value;
    StuckIff(EmptyChain.(forest := g), target, 0);
    RunMore(ops + [Store(b)], Commit(target.id));
    assert ops + [Store(b)] + [Commit(target.id)] == ops + ([Store(b)] + [Commit(target.id)]);
  }

  lemma {:induction false} FailingOps(cfg: Config, k: Pool, r: Replica, b: HashedBlock, ops: seq<ChainOp>)
    requires GoodReplica(cfg, k, r) && GoodPool(cfg, k) && b in k.blocks && Sound(r)
    requires OwnBlocks(k, r.id, r.pace, r.highQC) && Follows(r, ops)
    requires ProcessBlock(cfg, r, b).None?
    ensures RunLog(ops + OpsOf(cfg, r, b)).None?
    decreases |KeysFrom(r.bufferedBlocks, b.view)|
  {
    hide ProcessOne, KeysFrom, HashLinked, GoodPool, GoodReplica, Advances, CommitFails, OpsOne, RunLog, Matches;
    ProcessOneGood(cfg, k, r, b);
    OneKeepsSound(cfg, r, b);
    var one, f := OpsOne(cfg, r, b), ProcessOne(cfg, r, b);
    if f.Panic? {
      CommitFailsOps(cfg, k, r, b, ops);
      assert OpsOf(cfg, r, b) == one by { assert one + [] == one; }
    } else {
      OneFollows(cfg, r, b, ops);
      FewerKeys(r.bufferedBlocks, b.view);
      var next := f.r.bufferedBlocks[b.view];
      BufferedInPool(cfg, k, f.r, b.view);
      OwnBlocksKept(k, r, f.r);
      FailingOps(cfg, k, f.r, next, ops + one);
      assert ops + one + OpsOf(cfg, f.r, next) == ops + (one + OpsOf(cfg, f.r, next));
    }
  }

  // ---------- whole runs ----------

  /** If every proposal of a run is timely and the blocks a replica stored all fitted, then its forest has
      one container per level, at its block's level, and parents below children; and processing one more
      block that was sent never fails if the blocks this stores fit as well. */
  lemma InOrderNeverFails(cfg: Config, trace: seq<System>, steps: seq<Step>, n: nat, m: nat, b: Block)
    requires IsRun(cfg, trace, steps) && TimelyRun(cfg, trace, steps) && n <= |steps| && m < cfg.N()
    requires b in trace[n].pool.blocks
    requires InOrder(OpsOfRun(cfg, trace, steps, n, m))
    requires InOrder(OpsOfRun(cfg, trace, steps, n, m) + OpsOfStep(cfg, trace[n], OnBlock(m, b), m))
    ensures m < |trace[n].replicas| && OneViewAhead(trace[n].replicas[m].bufferedBlocks)
    ensures OnePerLevel(trace[n].replicas[m].chain.forest) && ParentsBelow(trace[n].replicas[m].chain.forest)
    ensures ProcessBlock(cfg, trace[n].replicas[m], b).Some?
  {
    hide Next, TimelyStep, RunLog, InOrder, PredecessorsBelow, StoresFrom, OnePerLevel, ParentsBelow, GoodStore,
      GoodPool, GoodReplica, OwnBlocks, VotesCast, ProcessBlock, OpsOf, HashLinked, AllCommitted, AllForked;
    var k, ops := trace[n].pool, OpsOfRun(cfg, trace, steps, n, m);
    ReplicaFollows(cfg, trace, steps, n, m);
    TimelyRunBelow(cfg, trace, steps, n);
    InOrderRuns(k, ops);
    ForestFromPool(k, ops);
    StoredParentsBelow(k, RunLog(ops).value.forest);
    RunGood(cfg, trace, steps, n);
    var r := trace[n].replicas[m];
    assert GoodNode(cfg, k, r);
    GoodIsSound(cfg, k, r);
    SeqOfID(cfg, k, b);
    OpsFromPool(cfg, k, r, b);
    StoresFromBoth(k, ops, OpsOf(cfg, r, b));
    InOrderRuns(k, ops + OpsOf(cfg, r, b));
    if ProcessBlock(cfg, r, b).None? {
      FailingOps(cfg, k, r, b, ops);
    }
  }

  lemma StoresFromBoth(k: Pool, ops: seq<ChainOp>, more: seq<ChainOp>)
    requires StoresFrom(k, ops) && StoresFrom(k, more)
    ensures StoresFrom(k, ops + more)
  {
  }

  /** The last target is an ancestor of the next at every commit. */
  ghost predicate ChainedRun(ops: seq<ChainOp>)
    requires RunLog(ops).Some?
  {
    ops == [] ||
    var log, op := RunLog(ops[..|ops| - 1]).value, ops[|ops| - 1];
    ChainedRun(ops[..|ops| - 1]) &&
    (op.Commit? && log.last.Some? && Full(log.forest, op.id) ==>
       log.last.value in Ancestors(log.forest, log.forest.vertices[op.id].vertex.value.block))
  }

  lemma {:induction false} InOrderInPlace(k: Pool, ops: seq<ChainOp>)
    requires StoresFrom(k, ops) && PredecessorsBelow(k) && InOrder(ops) && RunLog(ops).Some? && ChainedRun(ops)
    ensures InPlaceRun(ops)
  {
    hide PredecessorsBelow, Indexed, HashLinked;
    if ops == [] {
    } else {
      InOrderInPlace(k, ops[..|ops| - 1]);
      InOrderRuns(k, ops[..|ops| - 1]);
    }
  }

  /** Then the reports of a replica whose targets form a chain partition what left its forest. */
  lemma InOrderPartition(cfg: Config, trace: seq<System>, steps: seq<Step>, n: nat, m: nat, x: Block)
    requires IsRun(cfg, trace, steps) && TimelyRun(cfg, trace, steps) && n <= |steps| && m < cfg.N() && x.seqNo >= 2
    requires InOrder(OpsOfRun(cfg, trace, steps, n, m))
    requires var ops := OpsOfRun(cfg, trace, steps, n, m); RunLog(ops).Some? ==> ChainedRun(ops)
    ensures m < |trace[n].replicas|
    ensures var ops, r := OpsOfRun(cfg, trace, steps, n, m), trace[n].replicas[m];
            && RunLog(ops).Some? && Matches(r, RunLog(ops).value)
            && var pruned, last := RunLog(ops).value.pruned, RunLog(ops).value.last;
               && multiset(AllCommitted(r.reports))[x] + multiset(AllForked(r.reports))[x] ==
                  multiset(pruned)[x] + (if last == Some(x) then 1 else 0)
               && multiset(pruned)[x] <= 1
               && !(x in AllCommitted(r.reports) && x in AllForked(r.reports))
  {
    hide Next, TimelyStep, RunLog, InPlaceRun, InOrder, ChainedRun, PredecessorsBelow, StoresFrom, Matches;
    var ops := OpsOfRun(cfg, trace, steps, n, m);
    ReplicaFollows(cfg, trace, steps, n, m);
    TimelyRunBelow(cfg, trace, steps, n);
    InOrderInPlace(trace[n].pool, ops);
    ReportsPartition(cfg, trace, steps, n, m, x);
  }
}
