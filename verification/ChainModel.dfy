/** The block chain as a value: committing, and what a run of commits reports. */
module ChainModel {
  import opened Types
  import opened ForestModel
  import opened Quorums

  datatype Chain = Chain(forest: Forest, votes: Votes, highestCommitted: nat,
                         committedNo: nat, intervals: int, prunedNo: nat)

  const EmptyChain := Chain(EmptyForest, map[], 0, 0, 0, 0)

  function GetBlock(f: Forest, id: Identifier): Option<Block> {
    match GetVertex(f, id)
    case None => None
    case Some(v) => Some(v.block)
  }

  function AddBlock(c: Chain, b: Block): Chain {
    c.(forest := AddVertex(c.forest, VertexOf(b)))
  }

  /** Stored blocks are kept under their hash, and answer as BlockContainer does. */
  ghost predicate HashLinked(f: Forest) {
    forall id | Full(f, id) ::
      var v := f.vertices[id].vertex.value;
      v == VertexOf(v.block) && Hashed(v.block) && v.id == id
  }

  /** The loop of CommitBlock from b: b and its stored PrevID ancestors, down to the first at or below
      the lowest level. None when it comes back to an ID it has already followed: it then never ends. */
  function Traverse(f: Forest, b: Block, followed: set<Identifier>): Option<seq<Block>>
    decreases f.vertices.Keys - followed
  {
    if b.seqNo <= f.lowest then Some([])
    else
      match GetBlock(f, b.prevID)
      case None => Some([b])
      case Some(p) =>
        if b.prevID in followed then None
        else
          match Traverse(f, p, followed + {b.prevID})
          case None => None
          case Some(walk) => Some([b] + walk)
  }

  /** The blocks the loop passes when stored blocks are kept under their hash. */
  function CommitWalk(f: Forest, b: Block): (walk: seq<Block>)
    requires HashLinked(f) && Hashed(b)
    decreases b.id
  {
    if b.seqNo <= f.lowest then []
    else
      [b] + match GetBlock(f, b.prevID)
            case None => []
            case Some(p) => CommitWalk(f, p)
  }

  /** Hash links have no cycles, so among blocks kept under their hash the loop always ends. */
  lemma {:induction false} LinkedWalkEnds(f: Forest, b: Block, followed: set<Identifier>)
    requires HashLinked(f) && Hashed(b)
    requires forall id | id in followed :: id == b.id || b.id < id
    ensures Traverse(f, b, followed) == Some(CommitWalk(f, b))
    decreases b.id
  {
    if b.seqNo > f.lowest {
      WalkStep(f, b);
      var p := GetBlock(f, b.prevID);
      if p.Some? {
        assert Full(f, b.prevID) && b.prevID < b.id;
        LinkedWalkEnds(f, p.value, followed + {b.prevID});
      }
    }
  }

  function Intervals(walk: seq<Block>, seqNo: Seq): int {
    if walk == [] then 0 else Intervals(walk[..|walk| - 1], seqNo) + seqNo - walk[|walk| - 1].seqNo
  }

  function BlockIDs(bs: seq<Block>): set<Identifier> {
    if bs == [] then {} else BlockIDs(bs[..|bs| - 1]) + {bs[|bs| - 1].id}
  }

  lemma WalkStep(f: Forest, b: Block)
    requires HashLinked(f) && Hashed(b) && b.seqNo > f.lowest
    ensures var p := GetBlock(f, b.prevID);
            && (p.Some? ==> Hashed(p.value) && p.value.id < b.id)
            && CommitWalk(f, b) == if p.Some? then [b] + CommitWalk(f, p.value) else [b]
  {
    assert Full(f, b.prevID) || GetBlock(f, b.prevID).None?;
    assert [b] + [] == [b];
  }

  lemma TraverseEnds(f: Forest, b: Block, followed: set<Identifier>)
    requires b.seqNo <= f.lowest
    ensures Traverse(f, b, followed) == Some([])
  {
  }

  lemma TraverseStep(f: Forest, b: Block, followed: set<Identifier>, passed: seq<Block>)
    requires b.seqNo > f.lowest && Traverse(f, b, followed).Some?
    ensures var p := GetBlock(f, b.prevID); var rest := Traverse(f, b, followed).value;
            if p.None? then passed + rest == passed + [b]
            else
              && b.prevID !in followed && b.prevID in f.vertices
              && Traverse(f, p.value, followed + {b.prevID}).Some?
              && passed + [b] + Traverse(f, p.value, followed + {b.prevID}).value == passed + rest
  {
  }

  /** What the walk changes besides returning the blocks. */
  function Walked(c: Chain, walk: seq<Block>, seqNo: Seq): Chain {
    c.(votes := c.votes - BlockIDs(walk),
       committedNo := c.committedNo + |walk|,
       intervals := c.intervals + Intervals(walk, seqNo))
  }

  function Counted(c: Chain, b: Block, seqNo: Seq): Chain {
    c.(votes := c.votes - {b.id}, committedNo := c.committedNo + 1, intervals := c.intervals + seqNo - b.seqNo)
  }

  lemma NothingWalked(c: Chain, seqNo: Seq)
    ensures Walked(c, [], seqNo) == c
  {
  }

  lemma WalkedOne(c: Chain, bs: seq<Block>, b: Block, seqNo: Seq)
    ensures Counted(Walked(c, bs, seqNo), b, seqNo) == Walked(c, bs + [b], seqNo)
  {
    assert (bs + [b])[..|bs|] == bs;
  }

  datatype CommitResult =
    | NotFound
    | Stuck
    | Refused(chain: Chain)
    | Committed(chain: Chain, committed: seq<Block>, forked: seq<Block>)

  /** Stuck when the walk never ends, or pruning meets a level without a full first container. */
  function CommitBlock(c: Chain, id: Identifier, seqNo: Seq): CommitResult {
    match GetBlock(c.forest, id)
    case None => NotFound
    case Some(target) =>
      match Traverse(c.forest, target, {})
      case None => CommitResult.Stuck
      case Some(walk) =>
        var walked := Walked(c.(highestCommitted := target.seqNo), walk, seqNo);
        match PruneUpToLevel(c.forest, target.seqNo)
        case Stuck => CommitResult.Stuck
        case Refused => CommitResult.Refused(walked)
        case Pruned(f, forked, n) =>
          Committed(walked.(forest := f, prunedNo := c.prunedNo + n), walk, forked)
  }

  /** What a commit walks over among blocks kept under their hash. */
  lemma CommitWalks(f: Forest, id: Identifier)
    requires HashLinked(f) && GetBlock(f, id).Some?
    ensures var target := GetBlock(f, id).value;
            Full(f, id) && Hashed(target) && target.id == id && Traverse(f, target, {}) == Some(CommitWalk(f, target))
  {
    assert Full(f, id);
    LinkedWalkEnds(f, GetBlock(f, id).value, {});
  }

  // ---------- what the walk returns ----------

  /** b and all its stored PrevID ancestors. */
  function Ancestors(f: Forest, b: Block): (path: seq<Block>)
    requires HashLinked(f) && Hashed(b)
    decreases b.id
  {
    [b] + match GetBlock(f, b.prevID)
          case None => []
          case Some(p) => assert Full(f, b.prevID); Ancestors(f, p)
  }

  predicate Descending(bs: seq<Block>) {
    forall i, j | 0 <= i < j < |bs| :: bs[i].seqNo > bs[j].seqNo
  }

  /** The documented contract of the forest for stored blocks: a stored parent has a smaller Seq. */
  ghost predicate ParentsBelow(f: Forest) {
    forall id | Full(f, id) ::
      var b := f.vertices[id].vertex.value.block;
      var p := GetBlock(f, b.prevID);
      p.Some? ==> p.value.seqNo < b.seqNo
  }

  lemma {:induction false} AncestorsDescend(f: Forest, b: Block)
    requires HashLinked(f) && ParentsBelow(f) && GetBlock(f, b.id) == Some(b) && Hashed(b)
    ensures Descending(Ancestors(f, b))
    ensures forall x | x in Ancestors(f, b) :: x.seqNo <= b.seqNo && GetBlock(f, x.id) == Some(x)
    decreases b.id
  {
    assert Full(f, b.id);
    var p := GetBlock(f, b.prevID);
    if p.Some? {
      assert Full(f, b.prevID);
      AncestorsDescend(f, p.value);
      var rest := Ancestors(f, p.value);
      assert Ancestors(f, b) == [b] + rest;
    }
  }

  /** The blocks a commit reports are exactly the stored PrevID ancestors of its target above the
      lowest level, from the target down, in strictly falling Seq. */
  lemma {:induction false} WalkIsPath(f: Forest, b: Block)
    requires HashLinked(f) && ParentsBelow(f) && GetBlock(f, b.id) == Some(b) && Hashed(b)
    ensures var walk := CommitWalk(f, b);
            && walk <= Ancestors(f, b) && Descending(walk)
            && (forall x :: x in walk <==> x in Ancestors(f, b) && x.seqNo > f.lowest)
            && (forall x | x in walk :: f.lowest < x.seqNo <= b.seqNo)
    decreases b.id
  {
    AncestorsDescend(f, b);
    assert Full(f, b.id);
    var p := GetBlock(f, b.prevID);
    if b.seqNo > f.lowest && p.Some? {
      assert Full(f, b.prevID);
      WalkIsPath(f, p.value);
    }
  }

  // ---------- whole runs ----------

  type HashedBlock = b: Block | Hashed(b) witness MakeBlock(0, 0, GenesisQC, None, [], NoID, [], 0)

  datatype ChainOp = Store(block: HashedBlock) | Commit(id: Identifier)

  /** The forest together with everything reported and pruned so far and the last target. */
  datatype Log = Log(forest: Forest, committed: seq<Block>, forked: seq<Block>, pruned: seq<Block>,
                     last: Option<Block>)

  lemma AddVertexFull(f: Forest, v: Vertex, id: Identifier)
    ensures GetVertex(AddVertex(f, v), id) ==
            if id == v.id && v.level >= f.lowest && !Full(f, id) then Some(v) else GetVertex(f, id)
  {
  }

  lemma AddKeepsHashLinks(f: Forest, b: Block)
    requires HashLinked(f) && Hashed(b)
    ensures HashLinked(AddVertex(f, VertexOf(b)))
  {
    var g := AddVertex(f, VertexOf(b));
    forall id | Full(g, id)
      ensures var v := g.vertices[id].vertex.value; v == VertexOf(v.block) && Hashed(v.block) && v.id == id
    {
      AddVertexFull(f, VertexOf(b), id);
      assert Full(f, id) || g.vertices[id].vertex == Some(VertexOf(b));
    }
  }

  lemma CutKeepsHashLinks(f: Forest, level: nat)
    requires HashLinked(f)
    ensures HashLinked(Cut(f, level))
  {
    assert forall id | Full(Cut(f, level), id) :: Full(f, id);
  }

  /** One call of AddBlock or CommitBlock; None when pruning gets stuck. A call that returns an error
      reports nothing and leaves the forest as it was. */
  function ExecOp(log: Log, op: ChainOp): (r: Option<Log>)
    requires HashLinked(log.forest)
    ensures r.Some? ==> HashLinked(r.value.forest)
  {
    match op
    case Store(b) =>
      AddKeepsHashLinks(log.forest, b);
      Some(log.(forest := AddVertex(log.forest, VertexOf(b))))
    case Commit(id) =>
      match CommitBlock(EmptyChain.(forest := log.forest), id, 0)
      case NotFound => Some(log)
      case Refused(_) => Some(log)
      case Stuck => None
      case Committed(c, committed, forked) =>
        CutKeepsHashLinks(log.forest, c.forest.lowest);
        Some(Log(c.forest, log.committed + committed, log.forked + forked,
                 log.pruned + Forked(log.forest, {}, log.forest.lowest, c.forest.lowest),
                 GetBlock(log.forest, id)))
  }

  function RunLog(ops: seq<ChainOp>): (r: Option<Log>)
    ensures r.Some? ==> HashLinked(r.value.forest)
  {
    if ops == [] then Some(Log(EmptyForest, [], [], [], None))
    else
      match RunLog(ops[..|ops| - 1])
      case None => None
      case Some(log) => ExecOp(log, ops[|ops| - 1])
  }

  lemma RunMore(ops: seq<ChainOp>, op: ChainOp)
    ensures RunLog(ops + [op]) ==
            match RunLog(ops) { case None => None case Some(log) => ExecOp(log, op) }
  {
    assert (ops + [op])[..|ops|] == ops;
  }

  /** No level holds two containers, containers sit at the level of their block, and the last target is
      an ancestor of the new one. */
  ghost predicate InPlace(log: Log, id: Identifier)
    requires HashLinked(log.forest)
  {
    var f := log.forest;
    && (forall l | l in f.atLevel :: |f.atLevel[l]| <= 1)
    && (forall i | Full(f, i) :: f.vertices[i].level == f.vertices[i].vertex.value.block.seqNo)
    && (log.last.Some? && Full(f, id) ==> log.last.value in Ancestors(f, f.vertices[id].vertex.value.block))
  }

  /** What a commit relies on: its forest in place, and stored parents below their children. */
  ghost predicate Tidy(log: Log, id: Identifier)
    requires HashLinked(log.forest)
  {
    ParentsBelow(log.forest) && InPlace(log, id)
  }

  /** Every commit of the run found stored parents below their children. */
  ghost predicate OrderlyRun(ops: seq<ChainOp>)
    requires RunLog(ops).Some?
  {
    ops == [] ||
    var log := RunLog(ops[..|ops| - 1]).value;
    OrderlyRun(ops[..|ops| - 1]) && (ops[|ops| - 1].Commit? ==> ParentsBelow(log.forest))
  }

  ghost predicate InPlaceRun(ops: seq<ChainOp>)
    requires RunLog(ops).Some?
  {
    ops == [] ||
    var log := RunLog(ops[..|ops| - 1]).value;
    InPlaceRun(ops[..|ops| - 1]) && (ops[|ops| - 1].Commit? ==> InPlace(log, ops[|ops| - 1].id))
  }

  ghost predicate TidyRun(ops: seq<ChainOp>)
    requires RunLog(ops).Some?
  {
    ops == [] ||
    var log := RunLog(ops[..|ops| - 1]).value;
    TidyRun(ops[..|ops| - 1]) && (ops[|ops| - 1].Commit? ==> Tidy(log, ops[|ops| - 1].id))
  }

  lemma {:induction false} OrderlyAndInPlace(ops: seq<ChainOp>)
    requires RunLog(ops).Some? && OrderlyRun(ops) && InPlaceRun(ops)
    ensures TidyRun(ops)
  {
    if ops == [] {
    } else {
      OrderlyAndInPlace(ops[..|ops| - 1]);
    }
  }

  /** Committed blocks have pairwise different Seqs, none above the lowest level. */
  ghost predicate CommittedOnce(log: Log) {
    && (forall i, j | 0 <= i < j < |log.committed| :: log.committed[i].seqNo != log.committed[j].seqNo)
    && (forall i | 0 <= i < |log.committed| :: log.committed[i].seqNo <= log.forest.lowest)
  }

  /** Over any run in which stored parents lie below their children, successive commits report
      disjoint ranges of Seqs: no block is committed twice, nor two blocks at one Seq. */
  lemma {:induction false} NoBlockCommittedTwice(ops: seq<ChainOp>)
    requires RunLog(ops).Some? && OrderlyRun(ops)
    ensures CommittedOnce(RunLog(ops).value)
  {
    if ops == [] {
    } else {
      var front, op := ops[..|ops| - 1], ops[|ops| - 1];
      NoBlockCommittedTwice(front);
      if op.Commit? {
        CommitOnce(RunLog(front).value, op.id);
      } else {
        AddVertexLowest(RunLog(front).value.forest, VertexOf(op.block));
      }
    }
  }

  lemma AddVertexLowest(f: Forest, v: Vertex)
    ensures AddVertex(f, v).lowest == f.lowest
  {
  }

  lemma CommitOnce(log: Log, id: Identifier)
    requires HashLinked(log.forest) && ParentsBelow(log.forest) && CommittedOnce(log)
    requires ExecOp(log, Commit(id)).Some?
    ensures CommittedOnce(ExecOp(log, Commit(id)).value)
  {
    if Full(log.forest, id) {
      CommitWalks(log.forest, id);
      WalkIsPath(log.forest, GetBlock(log.forest, id).value);
    }
  }

  // ---------- committed or forked, once ----------

  predicate StoredBlock(f: Forest, x: Block) {
    GetBlock(f, x.id) == Some(x)
  }

  ghost predicate OnePerLevel(f: Forest) {
    && Indexed(f) && HashLinked(f)
    && (forall l | l in f.atLevel :: |f.atLevel[l]| <= 1)
    && (forall i | Full(f, i) :: f.vertices[i].level == f.vertices[i].vertex.value.block.seqNo)
  }

  lemma LevelOfBlock(f: Forest, x: Block)
    requires OnePerLevel(f) && StoredBlock(f, x)
    ensures AtLevel(f, x.seqNo) == [x.id] && x.seqNo >= f.lowest && Hashed(x)
  {
    assert Full(f, x.id) && Placed(f, x.id);
  }

  lemma LevelBlocks(f: Forest, l: nat, x: Block)
    requires OnePerLevel(f)
    ensures multiset(FullBlocks(f, AtLevel(f, l)))[x] == if StoredBlock(f, x) && x.seqNo == l then 1 else 0
  {
    if StoredBlock(f, x) {
      LevelOfBlock(f, x);
    }
    var list := AtLevel(f, l);
    if list != [] {
      var id := list[0];
      assert list == [id] && list[..0] == [];
      assert WellListed(f, l) && id in list;
      assert FullBlocks(f, []) == [];
      if Full(f, id) {
        assert FullBlocks(f, list) == [f.vertices[id].vertex.value.block];
      }
    }
  }

  lemma {:induction false} ForkedCount(f: Forest, committed: set<nat>, lo: nat, hi: nat, x: Block)
    requires OnePerLevel(f)
    ensures multiset(Forked(f, committed, lo, hi))[x] ==
            if StoredBlock(f, x) && lo <= x.seqNo < hi && x.seqNo > 1 && x.seqNo !in committed then 1 else 0
    decreases hi
  {
    if hi > lo {
      ForkedCount(f, committed, lo, hi - 1, x);
      LevelBlocks(f, hi - 1, x);
    }
  }

  predicate HasSeq(bs: seq<Block>, l: nat) {
    exists y | y in bs :: y.seqNo == l
  }

  /** The levels the pruning walk marks are those of the proper ancestors of the target. */
  lemma {:induction false} WalkMarksAncestors(f: Forest, b: Block, visited: set<nat>)
    requires OnePerLevel(f) && ParentsBelow(f) && StoredBlock(f, b) && Hashed(b)
    requires PruneWalk(f, b.seqNo, visited).Some?
    ensures forall l | l >= 2 :: l in PruneWalk(f, b.seqNo, visited).value <==> HasSeq(Ancestors(f, b)[1..], l)
    decreases b.id
  {
    LevelOfBlock(f, b);
    AncestorsDescend(f, b);
    assert Full(f, b.id);
    var p := GetBlock(f, b.prevID);
    var path := Ancestors(f, b);
    if p.None? {
      assert path[1..] == [];
    } else {
      assert Full(f, b.prevID);
      LevelOfBlock(f, p.value);
      var rest := Ancestors(f, p.value);
      assert path[1..] == rest && rest == [p.value] + rest[1..];
      if b.seqNo > 1 {
        WalkMarksAncestors(f, p.value, visited + {b.seqNo});
        forall l ensures HasSeq(rest, l) <==> l == p.value.seqNo || HasSeq(rest[1..], l) {
        }
      } else {
        assert forall y | y in rest :: y in path;
      }
    }
  }

  /** If no level holds two containers, containers sit at the level of their block and stored parents
      lie below, the pruning walk from a stored block meets a full container at every level and ends. */
  lemma {:induction false} PruneWalkEnds(f: Forest, b: Block, visited: set<nat>)
    requires OnePerLevel(f) && ParentsBelow(f) && StoredBlock(f, b)
    requires forall l | l in visited :: l > b.seqNo
    ensures PruneWalk(f, b.seqNo, visited).Some?
    decreases b.seqNo
  {
    LevelOfBlock(f, b);
    assert Full(f, b.id);
    var p := GetBlock(f, b.prevID);
    if p.Some? && b.seqNo > 1 {
      assert Full(f, b.prevID);
      PruneWalkEnds(f, p.value, visited + {b.seqNo});
    }
  }

  lemma {:induction false} DescendingCount(bs: seq<Block>, x: Block)
    requires Descending(bs)
    ensures multiset(bs)[x] == if x in bs then 1 else 0
  {
    if bs == [] {
    } else {
      DescendingCount(bs[1..], x);
      assert bs == [bs[0]] + bs[1..];
      assert multiset(bs) == multiset{bs[0]} + multiset(bs[1..]);
    }
  }

  /** Of the blocks at level 2 and above: each pruned one was reported exactly once, as committed or
      as forked; and nothing else was reported, except the last target, which is still stored. */
  ghost predicate Accounted(log: Log, x: Block) {
    && multiset(log.pruned)[x] <= 1
    && multiset(log.committed)[x] + multiset(log.forked)[x] ==
       multiset(log.pruned)[x] + if log.last == Some(x) then 1 else 0
  }

  ghost predicate Bounded(log: Log) {
    && Indexed(log.forest)
    && (forall x | x in log.pruned :: x.seqNo < log.forest.lowest)
    && (forall x | x in log.committed || x in log.forked :: x.seqNo <= log.forest.lowest)
    && (if log.last.Some? then log.last.value.seqNo == log.forest.lowest else log.forest.lowest == 0)
  }

  lemma CommitAccounts(log: Log, id: Identifier, x: Block)
    requires HashLinked(log.forest) && Tidy(log, id) && Bounded(log)
    requires x.seqNo >= 2 && Accounted(log, x)
    requires ExecOp(log, Commit(id)).Some?
    ensures Accounted(ExecOp(log, Commit(id)).value, x)
  {
    var f := log.forest;
    if Full(f, id) {
      var target := GetBlock(f, id).value;
      if target.seqNo >= f.lowest {
        CommitShape(log, target);
        AccountCommit(log, target, x);
      }
    }
  }

  /** What one call reports and prunes of a block x. */
  lemma CallReports(f: Forest, target: Block, x: Block)
    requires OnePerLevel(f) && ParentsBelow(f) && StoredBlock(f, target) && Hashed(target)
    requires x.seqNo >= 2 && PruneWalk(f, target.seqNo, {}).Some?
    ensures var path := Ancestors(f, target); var levels := PruneWalk(f, target.seqNo, {}).value;
            var dropped := StoredBlock(f, x) && f.lowest <= x.seqNo < target.seqNo;
            && (x in path ==> StoredBlock(f, x) && (x.seqNo < target.seqNo || x == target))
            && multiset(CommitWalk(f, target))[x] == (if x in path && x.seqNo > f.lowest then 1 else 0)
            && multiset(Forked(f, levels, f.lowest, target.seqNo))[x] == (if dropped && x !in path then 1 else 0)
            && multiset(Forked(f, {}, f.lowest, target.seqNo))[x] == (if dropped then 1 else 0)
  {
    WalkIsPath(f, target);
    AncestorsDescend(f, target);
    WalkMarksAncestors(f, target, {});
    ForkedCount(f, PruneWalk(f, target.seqNo, {}).value, f.lowest, target.seqNo, x);
    ForkedCount(f, {}, f.lowest, target.seqNo, x);
    DescendingCount(CommitWalk(f, target), x);
    if StoredBlock(f, x) {
      OnPathIff(f, target, x);
      if x in Ancestors(f, target) && x.seqNo == target.seqNo {
        LevelOfBlock(f, x);
        LevelOfBlock(f, target);
      }
    }
  }

  function Reported(log: Log, target: Block, levels: set<nat>): Log
    requires HashLinked(log.forest) && Hashed(target)
  {
    var f := log.forest;
    Log(Cut(f, target.seqNo),
        log.committed + CommitWalk(f, target),
        log.forked + Forked(f, levels, f.lowest, target.seqNo),
        log.pruned + Forked(f, {}, f.lowest, target.seqNo),
        Some(target))
  }

  lemma CommitShape(log: Log, target: Block)
    requires HashLinked(log.forest) && Full(log.forest, target.id) && StoredBlock(log.forest, target)
    requires target.seqNo >= log.forest.lowest && PruneWalk(log.forest, target.seqNo, {}).Some?
    ensures Hashed(target)
    ensures ExecOp(log, Commit(target.id)) ==
            Some(Reported(log, target, PruneWalk(log.forest, target.seqNo, {}).value))
  {
    CommitWalks(log.forest, target.id);
  }

  lemma ReportedBounded(log: Log, target: Block, levels: set<nat>)
    requires HashLinked(log.forest) && Tidy(log, target.id) && Bounded(log)
    requires StoredBlock(log.forest, target) && Hashed(target) && target.seqNo >= log.forest.lowest
    ensures Bounded(Reported(log, target, levels))
  {
    hide Tidy, Forked, CommitWalk, StoredBlock;
    var f := log.forest;
    WalkBounded(log, target);
    CutIndexed(f, target.seqNo);
    forall x ensures x in Forked(f, levels, f.lowest, target.seqNo) ==> x.seqNo < target.seqNo {
      ForkedBounded(log, target, levels, x);
    }
    forall x ensures x in Forked(f, {}, f.lowest, target.seqNo) ==> x.seqNo < target.seqNo {
      ForkedBounded(log, target, {}, x);
    }
  }

  lemma WalkBounded(log: Log, target: Block)
    requires HashLinked(log.forest) && Tidy(log, target.id)
    requires StoredBlock(log.forest, target) && Hashed(target)
    ensures forall x | x in CommitWalk(log.forest, target) :: x.seqNo <= target.seqNo
  {
    WalkIsPath(log.forest, target);
  }

  lemma ForkedBounded(log: Log, target: Block, levels: set<nat>, x: Block)
    requires HashLinked(log.forest) && Tidy(log, target.id) && Indexed(log.forest)
    ensures x in Forked(log.forest, levels, log.forest.lowest, target.seqNo) ==> x.seqNo < target.seqNo
  {
    ForkedCount(log.forest, levels, log.forest.lowest, target.seqNo, x);
  }

  lemma CommitBounded(log: Log, id: Identifier)
    requires HashLinked(log.forest) && Tidy(log, id) && Bounded(log)
    requires ExecOp(log, Commit(id)).Some?
    ensures Bounded(ExecOp(log, Commit(id)).value)
  {
    hide Tidy, Bounded, Reported;
    var f := log.forest;
    if Full(f, id) {
      var target := GetBlock(f, id).value;
      if target.seqNo >= f.lowest {
        CommitShape(log, target);
        ReportedBounded(log, target, PruneWalk(f, target.seqNo, {}).value);
      }
    }
  }

  lemma AccountCommit(log: Log, target: Block, x: Block)
    requires HashLinked(log.forest) && Full(log.forest, target.id) && Tidy(log, target.id) && Bounded(log)
    requires x.seqNo >= 2 && Accounted(log, x) && StoredBlock(log.forest, target)
    requires target.seqNo >= log.forest.lowest && PruneWalk(log.forest, target.seqNo, {}).Some?
    requires Hashed(target)
    ensures Accounted(Reported(log, target, PruneWalk(log.forest, target.seqNo, {}).value), x)
  {
    var f := log.forest;
    CallReports(f, target, x);
    AncestorsDescend(f, target);
    if StoredBlock(f, x) && x.seqNo == f.lowest {
      LevelOfBlock(f, x);
      LevelOfBlock(f, log.last.value);
    }
    if log.last == Some(x) {
      assert x !in log.pruned;
    }
  }

  lemma OnPathIff(f: Forest, target: Block, x: Block)
    requires OnePerLevel(f) && ParentsBelow(f) && StoredBlock(f, target) && Hashed(target) && StoredBlock(f, x)
    ensures x.seqNo < target.seqNo ==> (x in Ancestors(f, target) <==> HasSeq(Ancestors(f, target)[1..], x.seqNo))
  {
    var path := Ancestors(f, target);
    AncestorsDescend(f, target);
    LevelOfBlock(f, x);
    assert path == [target] + path[1..];
    if HasSeq(path[1..], x.seqNo) {
      var y :| y in path[1..] && y.seqNo == x.seqNo;
      LevelOfBlock(f, y);
    }
  }

  /** In every tidy run, each block of level 2 or above that was pruned was reported exactly once, as
      committed or as forked, and beyond those only the last target was reported: as committed. */
  lemma {:induction false} CommittedOrForkedOnce(ops: seq<ChainOp>)
    requires RunLog(ops).Some? && TidyRun(ops)
    ensures Bounded(RunLog(ops).value)
    ensures forall x: Block | x.seqNo >= 2 :: Accounted(RunLog(ops).value, x)
  {
    if ops == [] {
    } else {
      var front, op := ops[..|ops| - 1], ops[|ops| - 1];
      CommittedOrForkedOnce(front);
      var log := RunLog(front).value;
      match op {
        case Store(b) =>
          AddVertexIndexed(log.forest, VertexOf(b));
          forall x: Block | x.seqNo >= 2 ensures Accounted(RunLog(ops).value, x) {
            assert Accounted(log, x);
          }
        case Commit(id) =>
          CommitBounded(log, id);
          forall x: Block | x.seqNo >= 2 ensures Accounted(RunLog(ops).value, x) {
            CommitAccounts(log, id, x);
          }
      }
    }
  }

  /** Hence no block of level 2 or above is reported both committed and forked. */
  lemma NeverBoth(ops: seq<ChainOp>, x: Block)
    requires RunLog(ops).Some? && TidyRun(ops) && x.seqNo >= 2
    ensures !(x in RunLog(ops).value.committed && x in RunLog(ops).value.forked)
  {
    CommittedOrForkedOnce(ops);
    var log := RunLog(ops).value;
    assert Accounted(log, x);
    if log.last == Some(x) {
      assert x !in log.pruned;
    }
  }
}
