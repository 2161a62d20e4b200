/** Where a block that arrives after its child is filed, and what committing it does. */
module LateParents {
  import opened Types
  import opened ForestModel
  import opened ChainModel

  /** A parent added after its child sits at the level of the QC the child carries, not at its own
      Seq: the two agree exactly when the child's QC has the parent's Seq. Added first, it sits at
      its own Seq. */
  lemma FilingLevel(f: Forest, parent: Block, child: Block)
    requires Hashed(parent) && Hashed(child) && child.prevID == parent.id
    requires parent.id !in f.vertices && child.id !in f.vertices
    requires parent.seqNo >= f.lowest && child.seqNo > f.lowest && child.qc.seqNo >= f.lowest
    ensures var late := AddVertex(AddVertex(f, VertexOf(child)), VertexOf(parent));
            && GetBlock(late, parent.id) == Some(parent)
            && (late.vertices[parent.id].level == parent.seqNo <==> child.qc.seqNo == parent.seqNo)
    ensures var timely := AddVertex(AddVertex(f, VertexOf(parent)), VertexOf(child));
            && GetBlock(timely, parent.id) == Some(parent)
            && timely.vertices[parent.id].level == parent.seqNo
  {
    hide AddVertex;
    var first := AddVertex(f, VertexOf(child));
    AddVertexShape(f, VertexOf(child));
    assert first.vertices[parent.id] == Container(child.qc.seqNo, None, [VertexOf(child)]);
    AddVertexShape(first, VertexOf(parent));
    var second := AddVertex(f, VertexOf(parent));
    AddVertexShape(f, VertexOf(parent));
    assert second.vertices[parent.id] == Container(parent.seqNo, Some(VertexOf(parent)), []);
    AddVertexShape(second, VertexOf(child));
  }

  lemma LevelsAfterAdd(f: Forest, v: Vertex, l: nat)
    ensures (v.id in f.vertices || v.level != l) && (v.parentID in f.vertices || v.parentLevel != l) ==>
              AtLevel(AddVertex(f, v), l) == AtLevel(f, l)
    ensures AtLevel(f, l) != [] ==>
              AtLevel(AddVertex(f, v), l) != [] && AtLevel(AddVertex(f, v), l)[0] == AtLevel(f, l)[0]
    ensures v.id !in f.vertices && v.level == l >= f.lowest && AtLevel(f, l) == [] ==>
              AtLevel(AddVertex(f, v), l) != [] && AtLevel(AddVertex(f, v), l)[0] == v.id
    ensures (&& v.id !in f.vertices && v.parentID !in f.vertices && v.id != v.parentID
             && f.lowest < v.level && f.lowest <= l && v.level != l && l == v.parentLevel) ==>
              AtLevel(AddVertex(f, v), l) == AtLevel(f, l) + [v.parentID]
    ensures v.parentLevel < f.lowest && v.level != l ==> AtLevel(AddVertex(f, v), l) == AtLevel(f, l)
  {
  }

  // ---------- stored on top ----------

  /** f after storing more blocks. */
  function AddAll(f: Forest, more: seq<HashedBlock>): Forest {
    if more == [] then f else AddVertex(AddAll(f, more[..|more| - 1]), VertexOf(more[|more| - 1]))
  }

  /** x lies above the block and neither fills nor creates a container at its level. */
  ghost predicate OnTop(f: Forest, x: Block, b: Block) {
    && x.seqNo > b.seqNo && x.id !in AtLevel(f, b.seqNo)
    && (x.qc.seqNo == b.seqNo ==> x.prevID in f.vertices)
  }

  ghost predicate AllOnTop(f: Forest, more: seq<HashedBlock>, b: Block) {
    more == [] ||
    (AllOnTop(f, more[..|more| - 1], b) && OnTop(AddAll(f, more[..|more| - 1]), more[|more| - 1], b))
  }

  /** g keeps the full vertices of f and the first containers of the levels in use below a limit; what is
      full in g only lies above the limit. */
  ghost predicate Grown(f: Forest, g: Forest, limit: nat) {
    && g.lowest == f.lowest
    && (forall id | Full(f, id) :: GetVertex(g, id) == GetVertex(f, id))
    && (forall id | Full(g, id) && !Full(f, id) :: g.vertices[id].vertex.value.block.seqNo >= limit)
    && forall l: nat | l < limit && AtLevel(f, l) != [] :: AtLevel(g, l) != [] && AtLevel(g, l)[0] == AtLevel(f, l)[0]
  }

  lemma GrownByOne(f: Forest, g: Forest, x: Block, limit: nat)
    requires Grown(f, g, limit) && x.seqNo >= limit
    ensures Grown(f, AddVertex(g, VertexOf(x)), limit)
  {
    hide AddVertex;
    var h := AddVertex(g, VertexOf(x));
    AddVertexLowest(g, VertexOf(x));
    forall id | Full(f, id) ensures GetVertex(h, id) == GetVertex(f, id) {
      AddVertexFull(g, VertexOf(x), id);
    }
    forall id | Full(h, id) && !Full(f, id) ensures h.vertices[id].vertex.value.block.seqNo >= limit {
      AddVertexFull(g, VertexOf(x), id);
      assert Full(g, id) || GetVertex(h, id) == Some(VertexOf(x));
    }
    forall l: nat | l < limit && AtLevel(f, l) != []
      ensures AtLevel(h, l) != [] && AtLevel(h, l)[0] == AtLevel(f, l)[0]
    {
      LevelsAfterAdd(g, VertexOf(x), l);
    }
  }

  /** Storing blocks on top of b leaves b and its level alone. */
  lemma {:induction false} StoredOnTop(f: Forest, more: seq<HashedBlock>, b: Block)
    requires HashLinked(f) && AllOnTop(f, more, b)
    ensures var g := AddAll(f, more);
            && HashLinked(g) && AtLevel(g, b.seqNo) == AtLevel(f, b.seqNo) && Grown(f, g, b.seqNo)
            && forall id | id in AtLevel(f, b.seqNo) :: GetVertex(g, id) == GetVertex(f, id)
  {
    hide AddVertex, HashLinked, Grown;
    if more == [] {
      assert Grown(f, f, b.seqNo) by { GrownSelf(f, b.seqNo); }
    } else {
      var front, x := more[..|more| - 1], more[|more| - 1];
      StoredOnTop(f, front, b);
      var g := AddAll(f, front);
      AddKeepsHashLinks(g, x);
      GrownByOne(f, g, x, b.seqNo);
      LevelsAfterAdd(g, VertexOf(x), b.seqNo);
      forall id | id in AtLevel(f, b.seqNo) ensures GetVertex(AddVertex(g, VertexOf(x)), id) == GetVertex(f, id) {
        AddVertexFull(g, VertexOf(x), id);
      }
    }
  }

  lemma GrownSelf(f: Forest, limit: nat)
    ensures Grown(f, f, limit)
  {
  }

  /** The pruning walk from the first container of its level gets stuck only further down. */
  lemma FirstStep(g: Forest, b: Block, visited: set<nat>)
    requires HashLinked(g) && GetBlock(g, b.id) == Some(b) && b.seqNo !in visited
    requires AtLevel(g, b.seqNo) != [] && AtLevel(g, b.seqNo)[0] == b.id
    requires var p := GetBlock(g, b.prevID); p.Some? ==> PruneWalk(g, p.value.seqNo, visited + {b.seqNo}).Some?
    ensures PruneWalk(g, b.seqNo, visited).Some?
  {
    assert Full(g, b.id);
    assert GetBlock(g, b.prevID).Some? ==> Full(g, b.prevID);
  }

  /** From a block stored in f below the limit, the pruning walk ends in g because it does in f. */
  lemma {:induction false} SameWalkBelow(f: Forest, g: Forest, b: Block, visited: set<nat>, limit: nat)
    requires OnePerLevel(f) && ParentsBelow(f) && StoredBlock(f, b) && b.seqNo < limit
    requires Grown(f, g, limit) && HashLinked(g) && ParentsBelow(g)
    requires forall l | l in visited :: l > b.seqNo
    ensures PruneWalk(g, b.seqNo, visited).Some?
    decreases b.seqNo
  {
    LevelOfBlock(f, b);
    AncestorKept(f, g, b, limit);
    hide OnePerLevel, ParentsBelow, Grown, HashLinked, PruneWalk;
    var p := GetBlock(g, b.prevID);
    if p.Some? {
      SameWalkBelow(f, g, p.value, visited + {b.seqNo}, limit);
    }
    FirstStep(g, b, visited);
  }

  lemma AncestorKept(f: Forest, g: Forest, b: Block, limit: nat)
    requires StoredBlock(f, b) && b.seqNo < limit && AtLevel(f, b.seqNo) == [b.id]
    requires Grown(f, g, limit) && HashLinked(g) && ParentsBelow(g)
    ensures StoredBlock(g, b) && AtLevel(g, b.seqNo) != [] && AtLevel(g, b.seqNo)[0] == b.id
    ensures var p := GetBlock(g, b.prevID); p.Some? ==> StoredBlock(f, p.value) && p.value.seqNo < b.seqNo
  {
    assert Full(f, b.id) && GetVertex(g, b.id) == GetVertex(f, b.id) && Full(g, b.id);
    if GetBlock(g, b.prevID).Some? {
      assert Full(g, b.prevID);
      assert Full(f, b.prevID);
    }
  }

  // ---------- committing a block that arrived after its child ----------

  /** What a block added after its child finds at its own level. */
  ghost predicate Misfiled(f: Forest, parent: Block, child: Block) {
    AtLevel(f, parent.seqNo) != [] || (child.qc.seqNo >= f.lowest && child.qc.seqNo != parent.seqNo)
  }

  /** The forest that stores child, then parent, then more blocks on top. */
  function Late(f: Forest, parent: HashedBlock, child: HashedBlock, more: seq<HashedBlock>): Forest {
    AddAll(AddVertex(AddVertex(f, VertexOf(child)), VertexOf(parent)), more)
  }

  /** The block arrives after its child in a forest with one container per level, at its block's level,
      that holds no other block of its Seq. */
  ghost predicate ArrivesLate(f: Forest, parent: Block, child: Block) {
    && OnePerLevel(f) && ParentsBelow(f)
    && Hashed(parent) && Hashed(child) && child.prevID == parent.id
    && parent.id !in f.vertices && child.id !in f.vertices
    && (forall id | id in AtLevel(f, parent.seqNo) :: !Full(f, id))
    && parent.seqNo > 1 && parent.seqNo >= f.lowest && child.seqNo > parent.seqNo > parent.qc.seqNo
  }

  /** A block that arrived after its child, with whatever was stored on top of it since, and parents below
      children throughout, cannot be committed without failing in the pruning walk exactly if its child
      filed it at the level of another Seq, or an empty container held its level. */
  lemma LateParentStuckIff(f: Forest, parent: HashedBlock, child: HashedBlock, more: seq<HashedBlock>, seqNo: Seq)
    requires ArrivesLate(f, parent, child)
    requires AllOnTop(AddVertex(AddVertex(f, VertexOf(child)), VertexOf(parent)), more, parent)
    requires ParentsBelow(Late(f, parent, child, more))
    ensures var late := Late(f, parent, child, more);
            && HashLinked(late) && GetBlock(late, parent.id) == Some(parent)
            && (CommitBlock(EmptyChain.(forest := late), parent.id, seqNo).Stuck? <==> Misfiled(f, parent, child))
  {
    hide AddVertex, CommitWalk, HashLinked, ParentsBelow, PruneWalk, Traverse, Grown;
    var second := AddVertex(AddVertex(f, VertexOf(child)), VertexOf(parent));
    LateStored(f, parent, child);
    StoredOnTop(second, more, parent);
    GrownLowest(second, Late(f, parent, child, more), parent);
    CommitWalks(Late(f, parent, child, more), parent.id);
    if Misfiled(f, parent, child) {
      MisfiledStuck(f, parent, child, more);
    } else {
      FiledNotStuck(f, parent, child, more);
    }
  }

  lemma GrownLowest(f: Forest, g: Forest, b: Block)
    requires Grown(f, g, b.seqNo) && GetBlock(f, b.id) == Some(b)
    ensures g.lowest == f.lowest && GetBlock(g, b.id) == Some(b)
  {
    assert Full(f, b.id);
  }

  lemma LateStored(f: Forest, parent: Block, child: Block)
    requires HashLinked(f) && Hashed(parent) && Hashed(child) && child.prevID == parent.id
    requires parent.id !in f.vertices && child.id !in f.vertices && f.lowest <= parent.seqNo < child.seqNo
    ensures var second := AddVertex(AddVertex(f, VertexOf(child)), VertexOf(parent));
            && HashLinked(second) && GetBlock(second, parent.id) == Some(parent)
            && second.lowest == f.lowest && Grown(f, second, parent.seqNo)
            && forall id | id in f.vertices :: GetVertex(second, id) == GetVertex(f, id)
  {
    hide AddVertex, HashLinked, Grown;
    var first := AddVertex(f, VertexOf(child));
    AddKeepsHashLinks(f, child);
    AddKeepsHashLinks(first, parent);
    AddVertexLowest(f, VertexOf(child));
    AddVertexLowest(first, VertexOf(parent));
    assert parent.id < child.id;
    AddVertexFull(f, VertexOf(child), parent.id);
    AddVertexFull(first, VertexOf(parent), parent.id);
    GrownSelf(f, parent.seqNo);
    GrownByOne(f, f, child, parent.seqNo);
    GrownByOne(f, first, parent, parent.seqNo);
    forall id | id in f.vertices ensures GetVertex(AddVertex(first, VertexOf(parent)), id) == GetVertex(f, id) {
      AddVertexFull(f, VertexOf(child), id);
      AddVertexFull(first, VertexOf(parent), id);
    }
  }

  // The level of a misfiled block holds no container, or an empty one first.
  lemma MisfiledStuck(f: Forest, parent: HashedBlock, child: HashedBlock, more: seq<HashedBlock>)
    requires ArrivesLate(f, parent, child) && Misfiled(f, parent, child)
    requires AllOnTop(AddVertex(AddVertex(f, VertexOf(child)), VertexOf(parent)), more, parent)
    ensures PruneWalk(Late(f, parent, child, more), parent.seqNo, {}).None?
  {
    hide AddVertex, HashLinked, ParentsBelow;
    var first := AddVertex(f, VertexOf(child));
    var second := AddVertex(first, VertexOf(parent));
    LateStored(f, parent, child);
    StoredOnTop(second, more, parent);
    LevelsAfterAdd(f, VertexOf(child), parent.seqNo);
    LevelsAfterAdd(first, VertexOf(parent), parent.seqNo);
    AddVertexShape(f, VertexOf(child));
    if AtLevel(f, parent.seqNo) != [] {
      var x := AtLevel(f, parent.seqNo)[0];
      assert WellListed(f, parent.seqNo) && x in AtLevel(f, parent.seqNo);
      assert AtLevel(second, parent.seqNo)[0] == x && x in AtLevel(second, parent.seqNo);
    }
  }

  lemma FiledNotStuck(f: Forest, parent: HashedBlock, child: HashedBlock, more: seq<HashedBlock>)
    requires ArrivesLate(f, parent, child) && !Misfiled(f, parent, child)
    requires AllOnTop(AddVertex(AddVertex(f, VertexOf(child)), VertexOf(parent)), more, parent)
    requires ParentsBelow(Late(f, parent, child, more))
    ensures PruneWalk(Late(f, parent, child, more), parent.seqNo, {}).Some?
  {
    hide AddVertex, Grown, PruneWalk;
    var first := AddVertex(f, VertexOf(child));
    var second := AddVertex(first, VertexOf(parent));
    var late := Late(f, parent, child, more);
    LateStored(f, parent, child);
    StoredOnTop(second, more, parent);
    GrownTrans(f, second, late, parent.seqNo);
    GrownLowest(second, late, parent);
    FiledFirst(f, parent, child);
    PredecessorKept(f, late, parent);
    var p := GetBlock(late, parent.prevID);
    if p.Some? {
      SameWalkBelow(f, late, p.value, {parent.seqNo}, parent.seqNo);
    }
    hide OnePerLevel, ParentsBelow, HashLinked;
    assert {} + {parent.seqNo} == {parent.seqNo};
    FirstStep(late, parent, {});
  }

  lemma FiledFirst(f: Forest, parent: Block, child: Block)
    requires ArrivesLate(f, parent, child) && !Misfiled(f, parent, child)
    ensures var second := AddVertex(AddVertex(f, VertexOf(child)), VertexOf(parent));
            AtLevel(second, parent.seqNo) != [] && AtLevel(second, parent.seqNo)[0] == parent.id
  {
    hide AddVertex, ParentsBelow, HashLinked;
    var first := AddVertex(f, VertexOf(child));
    AddVertexShape(f, VertexOf(child));
    LevelsAfterAdd(f, VertexOf(child), parent.seqNo);
    LevelsAfterAdd(first, VertexOf(parent), parent.seqNo);
  }

  lemma GrownTrans(f: Forest, g: Forest, h: Forest, limit: nat)
    requires Grown(f, g, limit) && Grown(g, h, limit)
    ensures Grown(f, h, limit)
  {
    forall id | Full(f, id) ensures GetVertex(h, id) == GetVertex(f, id) {
      assert GetVertex(g, id) == GetVertex(f, id) && Full(g, id);
    }
    forall id | Full(h, id) && !Full(f, id) ensures h.vertices[id].vertex.value.block.seqNo >= limit {
      if Full(g, id) { assert GetVertex(h, id) == GetVertex(g, id); }
    }
  }

  /** The stored predecessor of a block below the limit was stored before. */
  lemma PredecessorKept(f: Forest, g: Forest, b: Block)
    requires Grown(f, g, b.seqNo) && ParentsBelow(g) && HashLinked(g) && GetBlock(g, b.id) == Some(b)
    ensures var p := GetBlock(g, b.prevID);
            p.Some? ==>
              Full(f, b.prevID) && p.value.id == b.prevID && StoredBlock(f, p.value) && p.value.seqNo < b.seqNo
  {
    assert Full(g, b.id);
    if GetBlock(g, b.prevID).Some? {
      assert Full(g, b.prevID);
    }
  }
}
