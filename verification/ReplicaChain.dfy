/**
 The block chain of a replica is the result of a sequence of stores and commits, so what holds of every
 such sequence holds of every replica of every run.
 */
module ReplicaChains {
  import opened Types
  import opened ForestModel
  import opened ChainModel
  import opened Pacemakers
  import opened ReplicaModel
  import opened Invariants
  import opened Handlers
  import opened ReplicaSystem
  import opened Safety
  import opened Predecessors

  function AllCommitted(reports: seq<Report>): seq<Block> {
    if reports == [] then [] else AllCommitted(reports[..|reports| - 1]) + reports[|reports| - 1].committed
  }

  function AllForked(reports: seq<Report>): seq<Block> {
    if reports == [] then [] else AllForked(reports[..|reports| - 1]) + reports[|reports| - 1].forked
  }

  /** The replica holds the forest of the log and has reported exactly its blocks. */
  predicate Matches(r: Replica, log: Log) {
    && r.chain.forest == log.forest
    && AllCommitted(r.reports) == log.committed && AllForked(r.reports) == log.forked
  }

  ghost predicate Follows(r: Replica, ops: seq<ChainOp>) {
    RunLog(ops).Some? && Matches(r, RunLog(ops).value)
  }

  // ---------- what leaves the block chain alone ----------

  /** A change to a replica that leaves its forest and reports alone. */
  predicate SameChain(r: Replica, s: Replica) {
    s.reports == r.reports && s.chain.forest == r.chain.forest
  }

  lemma CollectReports(cfg: Config, r: Replica, b: Block)
    ensures var s := CollectTCs(cfg, r, b); s.Some? ==> SameChain(r, s.value)
  {
    hide EnterView;
  }

  lemma FollowReports(cfg: Config, was: View, r: Replica, b: Block)
    ensures var s := FollowTC(cfg, was, r, b); s.Some? ==> SameChain(r, s.value)
  {
    hide EnterView;
  }

  lemma BufferedQCReports(cfg: Config, r: Replica, b: Block)
    ensures SameChain(r, UseBufferedQC(cfg, r, b))
  {
    hide ProcessCertificate;
    if b.id in r.bufferedQCs { CertificateFrame(cfg, r, r.bufferedQCs[b.id]); }
  }

  /** The other handlers report nothing. */
  lemma OtherReports(cfg: Config, s: System, step: Step, s': System)
    requires Next(cfg, s, step, s') && !step.OnBlock?
    ensures SameChain(s.replicas[step.i], s'.replicas[step.i])
  {
    hide ProcessBlock, ProcessCertificate, EnterView, MakeProposal, Sound, BuildsQC, KeepTmo;
    var r := s.replicas[step.i];
    match step
    case OnSignal(_, _) => CertificateFrame(cfg, r.(waiting := None), r.waiting.value);
    case OnTimeout(_, t) => CertificateFrame(cfg, r, t.highQC);
    case _ =>
  }

  // ---------- one block ----------

  function CommitOps(cfg: Config, f: Forest, b: Block): seq<ChainOp> {
    if CommitGuard(cfg, b) && CommitTarget(cfg, f, b.qc).Some?
    then [Commit(CommitTarget(cfg, f, b.qc).value.id)] else []
  }

  /** What processing b, without the block buffered behind it, does to the block chain. */
  function OpsOne(cfg: Config, r: Replica, b: HashedBlock): seq<ChainOp> {
    if Accepting(cfg, r, b).None? then []
    else [Store(b)] + CommitOps(cfg, AddVertex(r.chain.forest, VertexOf(b)), b)
  }

  lemma SameCommit(c: Chain, id: Identifier, seqNo: Seq)
    ensures match CommitBlock(EmptyChain.(forest := c.forest), id, 0)
            case NotFound => CommitBlock(c, id, seqNo).NotFound?
            case Stuck => CommitBlock(c, id, seqNo).Stuck?
            case Refused(_) => CommitBlock(c, id, seqNo).Refused? && CommitBlock(c, id, seqNo).chain.forest == c.forest
            case Committed(d, cs, fs) =>
              var e := CommitBlock(c, id, seqNo);
              e.Committed? && e.chain.forest == d.forest && e.committed == cs && e.forked == fs
  {
    hide Traverse, PruneUpToLevel;
  }

  lemma OneMoreForked(reports: seq<Report>, rep: Report)
    ensures AllCommitted(reports + [rep]) == AllCommitted(reports) + rep.committed
    ensures AllForked(reports + [rep]) == AllForked(reports) + rep.forked
  {
    assert (reports + [rep])[..|reports|] == reports;
  }

  lemma CommitFollows(cfg: Config, r: Replica, b: Block, ops: seq<ChainOp>)
    requires Follows(r, ops)
    ensures var f := CommitStep(cfg, r, b);
            !f.Panic? ==> Follows(f.r, ops + CommitOps(cfg, r.chain.forest, b))
  {
    hide CommitGuard, CommitTarget, CommitBlock, RunLog, AllCommitted, AllForked;
    if CommitGuard(cfg, b) && CommitTarget(cfg, r.chain.forest, b.qc).Some? {
      var target := CommitTarget(cfg, r.chain.forest, b.qc).value;
      SameCommit(r.chain, target.id, r.pace.curSeq);
      RunMore(ops, Commit(target.id));
      match CommitBlock(r.chain, target.id, r.pace.curSeq) {
        case Committed(c, cs, fs) => OneMoreForked(r.reports, Report(b, target, cs, fs));
        case _ =>
      }
    } else {
      assert ops + [] == ops;
    }
  }

  lemma StoreFollows(r: Replica, b: HashedBlock, ops: seq<ChainOp>)
    requires Follows(r, ops)
    ensures Follows(StoreBlock(r, b), ops + [Store(b)])
  {
    hide AddVertex, RunLog, AllCommitted, AllForked;
    RunMore(ops, Store(b));
  }

  lemma AcceptFollows(cfg: Config, r: Replica, b: HashedBlock, ops: seq<ChainOp>)
    requires Follows(r, ops)
    ensures var f := AcceptBlock(cfg, r, b);
            !f.Panic? ==>
              Follows(f.r, ops + ([Store(b)] + CommitOps(cfg, AddVertex(r.chain.forest, VertexOf(b)), b)))
  {
    hide CollectTCs, CommitStep, UseBufferedQC, AddVertex, VotingRule, CertificateFails, RunLog, CommitOps,
      AllCommitted, AllForked;
    var s := StoreBlock(r, b);
    StoreFollows(r, b, ops);
    CollectReports(cfg, s, b);
    match CollectTCs(cfg, s, b)
    case None =>
    case Some(t) =>
      var g := AddVertex(r.chain.forest, VertexOf(b));
      CommitFollows(cfg, t, b, ops + [Store(b)]);
      assert ops + [Store(b)] + CommitOps(cfg, g, b) == ops + ([Store(b)] + CommitOps(cfg, g, b));
      match CommitStep(cfg, t, b)
      case Panic =>
      case Return(_) =>
      case GoOn(u) => BufferedQCReports(cfg, u, b);
  }

  lemma OneFollows(cfg: Config, r: Replica, b: HashedBlock, ops: seq<ChainOp>)
    requires Follows(r, ops)
    ensures var f := ProcessOne(cfg, r, b); !f.Panic? ==> Follows(f.r, ops + OpsOne(cfg, r, b))
  {
    hide FollowTC, AcceptBlock, ProcessCertificate, CertificateFails, RunLog, CommitOps, AllCommitted, AllForked;
    assert ops + [] == ops;
    if b.view <= r.pace.curView + 1 {
      CertificateFrame(cfg, r, b.qc);
      var s := if b.proposer != r.id then ProcessCertificate(cfg, r, b.qc) else r;
      FollowReports(cfg, r.pace.curView, s, b);
      var t := FollowTC(cfg, r.pace.curView, s, b);
      if t.Some? {
        AcceptFollows(cfg, t.value, b, ops);
      }
    }
  }

  // ---------- a block and those buffered behind it ----------

  ghost function OpsOf(cfg: Config, r: Replica, b: HashedBlock): seq<ChainOp>
    requires Sound(r)
    decreases |KeysFrom(r.bufferedBlocks, b.view)|
  {
    hide ProcessOne, KeysFrom, HashLinked, OpsOne;
    OneKeepsSound(cfg, r, b);
    var f := ProcessOne(cfg, r, b);
    OpsOne(cfg, r, b) +
    if f.GoOn? && b.view in f.r.bufferedBlocks
    then FewerKeys(r.bufferedBlocks, b.view); OpsOf(cfg, f.r, f.r.bufferedBlocks[b.view])
    else []
  }

  lemma {:induction false} BlockFollows(cfg: Config, r: Replica, b: HashedBlock, ops: seq<ChainOp>)
    requires Sound(r) && Follows(r, ops)
    ensures var s := ProcessBlock(cfg, r, b); s.Some? ==> Follows(s.value, ops + OpsOf(cfg, r, b))
    decreases |KeysFrom(r.bufferedBlocks, b.view)|
  {
    hide ProcessOne, KeysFrom, HashLinked, OpsOne, RunLog, AllCommitted, AllForked;
    OneKeepsSound(cfg, r, b);
    OneFollows(cfg, r, b, ops);
    var f := ProcessOne(cfg, r, b);
    var one := OpsOne(cfg, r, b);
    if f.GoOn? && b.view in f.r.bufferedBlocks {
      FewerKeys(r.bufferedBlocks, b.view);
      var next := f.r.bufferedBlocks[b.view];
      BlockFollows(cfg, f.r, next, ops + one);
      assert ops + one + OpsOf(cfg, f.r, next) == ops + (one + OpsOf(cfg, f.r, next));
    } else {
      assert one + [] == one;
    }
  }

  /** Only blocks that were sent are stored. */
  predicate StoresFrom(k: Pool, ops: seq<ChainOp>) {
    forall op | op in ops :: op.Store? ==> op.block in k.blocks
  }

  lemma {:induction false} OpsFromPool(cfg: Config, k: Pool, r: Replica, b: HashedBlock)
    requires GoodReplica(cfg, k, r) && GoodPool(cfg, k) && b in k.blocks && Sound(r)
    requires OwnBlocks(k, r.id, r.pace, r.highQC)
    ensures StoresFrom(k, OpsOf(cfg, r, b))
    decreases |KeysFrom(r.bufferedBlocks, b.view)|
  {
    hide ProcessOne, KeysFrom, HashLinked, GoodPool, GoodReplica, Advances, PruneStuck, CommitOps, Accepting;
    OneKeepsSound(cfg, r, b);
    ProcessOneGood(cfg, k, r, b);
    var f := ProcessOne(cfg, r, b);
    OneFromPool(cfg, k, r, b);
    if f.GoOn? && b.view in f.r.bufferedBlocks {
      FewerKeys(r.bufferedBlocks, b.view);
      BufferedInPool(cfg, k, f.r, b.view);
      OwnBlocksKept(k, r, f.r);
      OpsFromPool(cfg, k, f.r, f.r.bufferedBlocks[b.view]);
    }
  }

  lemma OneFromPool(cfg: Config, k: Pool, r: Replica, b: HashedBlock)
    requires b in k.blocks
    ensures StoresFrom(k, OpsOne(cfg, r, b))
  {
    hide Accepting;
  }

  // ---------- whole runs ----------

  /** What a step does to the block chain of replica m. */
  ghost function OpsOfStep(cfg: Config, s: System, step: Step, m: nat): seq<ChainOp> {
    if step.OnBlock? && step.i == m < |s.replicas| && Sound(s.replicas[m]) && Hashed(step.block)
    then OpsOf(cfg, s.replicas[m], step.block) else []
  }

  /** What replica m did to its block chain in the first n steps. */
  ghost function OpsOfRun(cfg: Config, trace: seq<System>, steps: seq<Step>, n: nat, m: nat): seq<ChainOp>
    requires n <= |steps| && |trace| == |steps| + 1
  {
    if n == 0 then []
    else OpsOfRun(cfg, trace, steps, n - 1, m) + OpsOfStep(cfg, trace[n - 1], steps[n - 1], m)
  }

  /** Every replica of a run holds the forest, and has reported the blocks, that its own stores and commits
      lead to; and it stores only blocks that were sent. */
  lemma {:induction false} ReplicaFollows(cfg: Config, trace: seq<System>, steps: seq<Step>, n: nat, m: nat)
    requires IsRun(cfg, trace, steps) && n <= |steps| && m < cfg.N()
    ensures m < |trace[n].replicas| && Follows(trace[n].replicas[m], OpsOfRun(cfg, trace, steps, n, m))
    ensures StoresFrom(trace[n].pool, OpsOfRun(cfg, trace, steps, n, m))
  {
    hide Next, RunLog, GoodPool, GoodNode, VotesCast, Within, Sound, AllCommitted, AllForked;
    if n == 0 {
      FollowsNothing(m);
    } else {
      ReplicaFollows(cfg, trace, steps, n - 1, m);
      RunGood(cfg, trace, steps, n - 1);
      NextGood(cfg, trace[n - 1], steps[n - 1], trace[n]);
      StepFollows(cfg, trace[n - 1], steps[n - 1], trace[n], m, OpsOfRun(cfg, trace, steps, n - 1, m));
    }
  }

  lemma FollowsNothing(m: nat)
    ensures Follows(InitReplica(m + 1), [])
  {
  }

  lemma StepFollows(cfg: Config, s: System, step: Step, s': System, m: nat, ops: seq<ChainOp>)
    requires GoodSystem(cfg, s) && Next(cfg, s, step, s') && Within(s.pool, s'.pool) && m < |s.replicas|
    requires Follows(s.replicas[m], ops) && StoresFrom(s.pool, ops)
    ensures m < |s'.replicas|
    ensures var more := OpsOfStep(cfg, s, step, m);
            Follows(s'.replicas[m], ops + more) && StoresFrom(s'.pool, ops + more)
  {
    hide RunLog, GoodPool, GoodReplica, OwnBlocks, Sound, AllCommitted, AllForked, ProcessBlock, CollectVote,
      FinishVote, ReceiveTmo, MakeProposal, AfterProposal, Kickoff;
    NextFrame(cfg, s, step, s');
    assert ops + [] == ops;
    if step.OnBlock? && step.i == m {
      var k, r := s.pool, s.replicas[m];
      assert GoodNode(cfg, k, r);
      GoodIsSound(cfg, k, r);
      SeqOfID(cfg, k, step.block);
      BlockFollows(cfg, r, step.block, ops);
      OpsFromPool(cfg, k, r, step.block);
    } else {
      if step.i == m { OtherReports(cfg, s, step, s'); }
    }
  }

  lemma {:induction false} ForestFromPool(k: Pool, ops: seq<ChainOp>)
    requires StoresFrom(k, ops) && RunLog(ops).Some?
    ensures GoodStore(k, RunLog(ops).value.forest)
  {
    if ops == [] {
    } else {
      var front, op := ops[..|ops| - 1], ops[|ops| - 1];
      ForestFromPool(k, front);
      var log := RunLog(front).value;
      match op {
        case Store(b) =>
          assert op in ops;
          var g := AddVertex(log.forest, VertexOf(b));
          forall id | Full(g, id) ensures g.vertices[id].vertex.value.block in k.blocks {
            AddVertexFull(log.forest, VertexOf(b), id);
            assert Full(log.forest, id) || g.vertices[id].vertex == Some(VertexOf(b));
          }
        case Commit(id) => CommitFromStore(k, EmptyChain.(forest := log.forest), id, 0);
      }
    }
  }

  lemma {:induction false} OrderlyFromPool(k: Pool, ops: seq<ChainOp>)
    requires StoresFrom(k, ops) && RunLog(ops).Some? && PredecessorsBelow(k)
    ensures OrderlyRun(ops)
  {
    hide PredecessorsBelow, ParentsBelow, GoodStore;
    if ops == [] {
    } else {
      var front := ops[..|ops| - 1];
      OrderlyFromPool(k, front);
      ForestFromPool(k, front);
      StoredParentsBelow(k, RunLog(front).value.forest);
    }
  }

  /** If every proposal of a run is timely, then in every state every stored parent lies below its
      children, and no replica ever reports two committed blocks of one Seq, nor one block twice. */
  lemma NeverCommittedTwice(cfg: Config, trace: seq<System>, steps: seq<Step>, n: nat, m: nat)
    requires IsRun(cfg, trace, steps) && TimelyRun(cfg, trace, steps) && n <= |steps| && m < cfg.N()
    ensures m < |trace[n].replicas| && ParentsBelow(trace[n].replicas[m].chain.forest)
    ensures var all := AllCommitted(trace[n].replicas[m].reports);
            forall x, y | 0 <= x < y < |all| :: all[x].seqNo != all[y].seqNo && all[x] != all[y]
  {
    hide Next, TimelyStep, RunLog, OrderlyRun, PredecessorsBelow, StoresFrom, AllCommitted, AllForked, GoodStore,
      ParentsBelow;
    var ops := OpsOfRun(cfg, trace, steps, n, m);
    ReplicaFollows(cfg, trace, steps, n, m);
    TimelyRunBelow(cfg, trace, steps, n);
    OrderlyFromPool(trace[n].pool, ops);
    NoBlockCommittedTwice(ops);
    ForestFromPool(trace[n].pool, ops);
    StoredParentsBelow(trace[n].pool, trace[n].replicas[m].chain.forest);
  }

  /** If every proposal of a run is timely, and whenever a replica commits its containers sit one per level
      at their block's Seq and its last target is an ancestor of the new one, then every block of Seq 2
      or above that left its forest was reported exactly once, as committed or as forked, and besides
      those only the last target was reported; no block was reported both ways. */
  lemma ReportsPartition(cfg: Config, trace: seq<System>, steps: seq<Step>, n: nat, m: nat, x: Block)
    requires IsRun(cfg, trace, steps) && TimelyRun(cfg, trace, steps) && n <= |steps| && m < cfg.N() && x.seqNo >= 2
    requires var ops := OpsOfRun(cfg, trace, steps, n, m); RunLog(ops).Some? ==> InPlaceRun(ops)
    ensures m < |trace[n].replicas|
    ensures var ops, r := OpsOfRun(cfg, trace, steps, n, m), trace[n].replicas[m];
            && RunLog(ops).Some? && Matches(r, RunLog(ops).value)
            && var pruned, last := RunLog(ops).value.pruned, RunLog(ops).value.last;
               && multiset(pruned)[x] <= 1
               && multiset(AllCommitted(r.reports))[x] + multiset(AllForked(r.reports))[x] ==
                  multiset(pruned)[x] + (if last == Some(x) then 1 else 0)
               && !(x in AllCommitted(r.reports) && x in AllForked(r.reports))
  {
    hide Next, TimelyStep, RunLog, InPlaceRun, OrderlyRun, TidyRun, PredecessorsBelow, StoresFrom, AllCommitted,
      AllForked;
    var ops := OpsOfRun(cfg, trace, steps, n, m);
    ReplicaFollows(cfg, trace, steps, n, m);
    TimelyRunBelow(cfg, trace, steps, n);
    OrderlyFromPool(trace[n].pool, ops);
    OrderlyAndInPlace(ops);
    CommittedOrForkedOnce(ops);
    NeverBoth(ops, x);
    assert Accounted(RunLog(ops).value, x);
  }
}
