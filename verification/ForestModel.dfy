/**
 The levelled forest as a value, and what every sequence of its operations keeps.

 A container is listed under its ID and in the list of its own level. Children are recorded as the
 vertices they hold: a container is registered with its parent only once it is full, and a full
 container never changes its vertex again.
 */
module ForestModel {
  import opened Types
  import opened Collections

  /** What a vertex answers through the Vertex interface. */
  datatype Vertex = Vertex(id: Identifier, level: nat, parentID: Identifier, parentLevel: nat, block: Block)

  /** BlockContainer: the vertex of a block pairs PrevID with the Seq of the block's QC. */
  function VertexOf(b: Block): Vertex {
    Vertex(b.id, b.seqNo, b.prevID, b.qc.seqNo, b)
  }

  datatype Container = Container(level: nat, vertex: Option<Vertex>, children: seq<Vertex>)

  datatype Forest = Forest(vertices: map<Identifier, Container>,
                           atLevel: map<nat, seq<Identifier>>,
                           lowest: nat)

  const EmptyForest := Forest(map[], map[], 0)

  function AtLevel(f: Forest, l: nat): seq<Identifier> {
    if l in f.atLevel then f.atLevel[l] else []
  }

  function GetVertex(f: Forest, id: Identifier): Option<Vertex> {
    if id in f.vertices then f.vertices[id].vertex else None
  }

  predicate Full(f: Forest, id: Identifier) {
    id in f.vertices && f.vertices[id].vertex.Some?
  }

  // ---------- operations ----------

  function GetOrCreate(f: Forest, id: Identifier, level: nat): Forest {
    if id in f.vertices then f
    else f.(vertices := f.vertices[id := Container(level, None, [])],
            atLevel := f.atLevel[level := AtLevel(f, level) + [id]])
  }

  function RegisterWithParent(f: Forest, v: Vertex): Forest
    requires v.id in f.vertices
  {
    if f.vertices[v.id].level <= f.lowest || v.parentLevel < f.lowest then f
    else
      var g := GetOrCreate(f, v.parentID, v.parentLevel);
      var p := g.vertices[v.parentID];
      g.(vertices := g.vertices[v.parentID := p.(children := p.children + [v])])
  }

  /** The container of v filled with v. */
  function Filled(f: Forest, v: Vertex): Forest
    requires v.id in f.vertices
  {
    f.(vertices := f.vertices[v.id := f.vertices[v.id].(vertex := Some(v))])
  }

  function AddVertex(f: Forest, v: Vertex): Forest {
    if v.level < f.lowest then f
    else
      var g := GetOrCreate(f, v.id, v.level);
      var c := g.vertices[v.id];
      if c.vertex.Some? then g
      else RegisterWithParent(Filled(g, v), v)
  }

  /** The walk of PruneUpToLevel from level l: the levels of the vertices it passes. None when it
      meets a level without a full first container, or a level it has already left: it then never ends. */
  function PruneWalk(f: Forest, l: nat, visited: set<nat>): (r: Option<set<nat>>)
    decreases f.atLevel.Keys - visited
  {
    if l < f.lowest || l <= 1 then Some({})
    else if l in visited || AtLevel(f, l) == [] || !Full(f, AtLevel(f, l)[0]) then None
    else
      var parent := GetVertex(f, f.vertices[AtLevel(f, l)[0]].vertex.value.parentID);
      if parent.None? || parent.value.level < f.lowest then Some({})
      else
        match PruneWalk(f, parent.value.level, visited + {l})
        case None => None
        case Some(levels) => Some(levels + {parent.value.level})
  }

  /** The blocks of the full containers among ids, in order. */
  function FullBlocks(f: Forest, ids: seq<Identifier>): seq<Block> {
    if ids == [] then []
    else
      var front := FullBlocks(f, ids[..|ids| - 1]);
      var last := GetVertex(f, ids[|ids| - 1]);
      if last.Some? then front + [last.value.block] else front
  }

  /** The blocks reported forked when the levels lo..hi-1 are dropped. */
  function Forked(f: Forest, committed: set<nat>, lo: nat, hi: nat): seq<Block>
    decreases hi
  {
    if hi <= lo then []
    else
      var l := hi - 1;
      Forked(f, committed, lo, l) + if l !in committed && l > 1 then FullBlocks(f, AtLevel(f, l)) else []
  }

  /** How many containers the levels lo..hi-1 hold. */
  function Listed(f: Forest, lo: nat, hi: nat): nat
    decreases hi
  {
    if hi <= lo then 0 else Listed(f, lo, hi - 1) + |AtLevel(f, hi - 1)|
  }

  /** The forest without its levels below `level`. */
  function Cut(f: Forest, level: nat): Forest {
    Forest(map id | id in f.vertices && f.vertices[id].level >= level :: f.vertices[id],
           map l | l in f.atLevel && l >= level :: f.atLevel[l],
           level)
  }

  datatype PruneResult =
    | Refused
    | Stuck
    | Pruned(forest: Forest, forked: seq<Block>, count: nat)

  function PruneUpToLevel(f: Forest, level: nat): PruneResult {
    if level < f.lowest then Refused
    else
      match PruneWalk(f, level, {})
      case None => Stuck
      case Some(committed) =>
        Pruned(Cut(f, level), Forked(f, committed, f.lowest, level), Listed(f, f.lowest, level))
  }

  // ---------- the unconditional invariant ----------

  /** The list of level l holds containers of level l only, each once. */
  ghost predicate WellListed(f: Forest, l: nat) {
    && NoDup(AtLevel(f, l))
    && forall id | id in AtLevel(f, l) :: id in f.vertices && f.vertices[id].level == l
  }

  /** A stored ID is listed at the level of its container; a full container holds the vertex of its ID. */
  ghost predicate Placed(f: Forest, id: Identifier)
    requires id in f.vertices
  {
    && f.vertices[id].level >= f.lowest
    && id in AtLevel(f, f.vertices[id].level)
    && (f.vertices[id].vertex.Some? ==> f.vertices[id].vertex.value.id == id)
  }

  /** Every stored ID is listed exactly once, at the level of its container and nowhere else, and no
      container lies below the lowest retained level. */
  ghost predicate Indexed(f: Forest) {
    && (forall id | id in f.vertices :: Placed(f, id))
    && (forall l | l in f.atLevel :: l >= f.lowest && f.atLevel[l] != [] && WellListed(f, l))
  }

  lemma GetOrCreateIndexed(f: Forest, id: Identifier, level: nat)
    requires Indexed(f) && level >= f.lowest
    ensures Indexed(GetOrCreate(f, id, level))
  {
    var g := GetOrCreate(f, id, level);
    if id !in f.vertices {
      assert id !in AtLevel(f, level) by {
        if level in f.atLevel { assert WellListed(f, level); }
      }
      forall i | i in g.vertices ensures Placed(g, i) {
        if i != id { assert Placed(f, i); }
      }
      forall l | l in g.atLevel ensures l >= g.lowest && g.atLevel[l] != [] && WellListed(g, l) {
        if l in f.atLevel { assert WellListed(f, l); }
      }
    }
  }

  /** Changing only the vertex of a container to one with its ID, or only its children, keeps the index. */
  lemma SameLevelsIndexed(f: Forest, g: Forest)
    requires Indexed(f) && g.atLevel == f.atLevel && g.lowest == f.lowest && g.vertices.Keys == f.vertices.Keys
    requires forall id | id in f.vertices :: g.vertices[id].level == f.vertices[id].level
    requires forall id | Full(g, id) :: g.vertices[id].vertex.value.id == id
    ensures Indexed(g)
  {
    forall i | i in g.vertices ensures Placed(g, i) {
      assert Placed(f, i);
      assert g.vertices[i].vertex.Some? ==> Full(g, i);
    }
    forall l | l in g.atLevel ensures WellListed(g, l) {
      assert WellListed(f, l);
    }
  }

  lemma FilledIndexed(f: Forest, v: Vertex)
    requires Indexed(f) && v.id in f.vertices
    ensures Indexed(Filled(f, v))
  {
    hide WellListed;
    var h := Filled(f, v);
    forall id | Full(h, id) ensures h.vertices[id].vertex.value.id == id {
      if id != v.id { assert Placed(f, id); }
    }
    SameLevelsIndexed(f, h);
  }

  lemma AddVertexIndexed(f: Forest, v: Vertex)
    requires Indexed(f)
    ensures Indexed(AddVertex(f, v)) && AddVertex(f, v).lowest == f.lowest
  {
    hide Indexed, RegisterWithParent;
    if v.level >= f.lowest {
      GetOrCreateIndexed(f, v.id, v.level);
      var g := GetOrCreate(f, v.id, v.level);
      if g.vertices[v.id].vertex.None? {
        FilledIndexed(g, v);
        RegisterIndexed(Filled(g, v), v);
      }
    }
  }

  lemma RegisterIndexed(h: Forest, v: Vertex)
    requires Indexed(h) && v.id in h.vertices
    ensures Indexed(RegisterWithParent(h, v)) && RegisterWithParent(h, v).lowest == h.lowest
  {
    if h.vertices[v.id].level > h.lowest && v.parentLevel >= h.lowest {
      GetOrCreateIndexed(h, v.parentID, v.parentLevel);
      var g := GetOrCreate(h, v.parentID, v.parentLevel);
      var r := RegisterWithParent(h, v);
      forall id | Full(r, id) ensures r.vertices[id].vertex.value.id == id {
        assert Placed(g, id);
      }
      SameLevelsIndexed(g, r);
    }
  }

  lemma CutIndexed(f: Forest, level: nat)
    requires Indexed(f) && level >= f.lowest
    ensures Indexed(Cut(f, level))
  {
    var g := Cut(f, level);
    forall i | i in g.vertices ensures Placed(g, i) {
      assert Placed(f, i);
    }
    forall l | l in g.atLevel ensures l >= g.lowest && g.atLevel[l] != [] && WellListed(g, l) {
      assert WellListed(f, l);
    }
  }

  // ---------- conservation of containers ----------

  function IDsBetween(f: Forest, lo: nat, hi: nat): (ids: set<Identifier>)
    ensures forall id :: id in ids <==> id in f.vertices && lo <= f.vertices[id].level < hi
  {
    set id | id in f.vertices && lo <= f.vertices[id].level < hi
  }

  lemma LevelIDs(f: Forest, l: nat)
    requires Indexed(f)
    ensures |IDsBetween(f, l, l + 1)| == |AtLevel(f, l)|
    ensures forall id :: id in IDsBetween(f, l, l + 1) <==> id in AtLevel(f, l)
  {
    var here := IDsBetween(f, l, l + 1);
    forall id ensures id in here <==> id in AtLevel(f, l) {
      if l in f.atLevel { assert WellListed(f, l); }
      if id in here { assert Placed(f, id); }
    }
    var list := AtLevel(f, l);
    assert NoDup(list) by { if l in f.atLevel { assert WellListed(f, l); } }
    SetOfNoDup(list);
    assert here == set x | x in list;
  }

  lemma OneLevelMore(f: Forest, lo: nat, l: nat)
    requires Indexed(f) && lo <= l
    ensures |IDsBetween(f, lo, l + 1)| == |IDsBetween(f, lo, l)| + |AtLevel(f, l)|
  {
    LevelIDs(f, l);
    DisjointSum(IDsBetween(f, lo, l + 1), IDsBetween(f, lo, l), IDsBetween(f, l, l + 1));
  }

  lemma {:induction false} ListedCounts(f: Forest, lo: nat, hi: nat)
    requires Indexed(f)
    ensures Listed(f, lo, hi) == |IDsBetween(f, lo, hi)|
    decreases hi
  {
    if hi <= lo {
      assert IDsBetween(f, lo, hi) == {};
    } else {
      ListedCounts(f, lo, hi - 1);
      OneLevelMore(f, lo, hi - 1);
    }
  }

  lemma CutSplits(f: Forest, level: nat)
    requires Indexed(f)
    ensures f.vertices.Keys == Cut(f, level).vertices.Keys + IDsBetween(f, f.lowest, level)
    ensures Cut(f, level).vertices.Keys !! IDsBetween(f, f.lowest, level)
  {
    forall id | id in f.vertices ensures id in Cut(f, level).vertices || id in IDsBetween(f, f.lowest, level) {
      assert Placed(f, id);
    }
  }

  lemma CutCounts(f: Forest, level: nat)
    requires Indexed(f)
    ensures |Cut(f, level).vertices| + Listed(f, f.lowest, level) == |f.vertices|
  {
    CutSplits(f, level);
    ListedCounts(f, f.lowest, level);
    DisjointSum(f.vertices.Keys, Cut(f, level).vertices.Keys, IDsBetween(f, f.lowest, level));
    MapSize(f.vertices);
    MapSize(Cut(f, level).vertices);
  }

  /** Pruning neither loses nor invents a container: what stays and what was counted add up. */
  lemma PruneConserves(f: Forest, level: nat)
    requires Indexed(f)
    ensures var r := PruneUpToLevel(f, level);
            r.Pruned? ==>
              && |r.forest.vertices| + r.count == |f.vertices|
              && Indexed(r.forest) && r.forest.lowest == level
  {
    if level >= f.lowest {
      CutCounts(f, level);
      CutIndexed(f, level);
    }
  }

  // ---------- the documented contract and confluence ----------

  /** What two vertices claim about levels fits together. */
  predicate Agree(v: Vertex, w: Vertex) {
    && (v.id == w.id ==> v == w)
    && (w.level > 0 && v.id == w.parentID ==> v.level == w.parentLevel)
    && (v.level > 0 && w.level > 0 && v.parentID == w.parentID ==> v.parentLevel == w.parentLevel)
  }

  /** The documented contract of the forest: one vertex per ID; a parent lies strictly below its
      child (the root at level 0 excepted); and all claims about a level agree. */
  ghost predicate Contract(s: set<Vertex>) {
    && (forall v | v in s :: v.level == 0 || v.parentLevel < v.level)
    && (forall v, w {:trigger Agree(v, w)} | v in s && w in s :: Agree(v, w))
  }

  ghost predicate Stored(s: set<Vertex>, lowest: nat, id: Identifier) {
    exists v | v in s :: v.id == id && v.level >= lowest
  }

  ghost predicate IsChild(s: set<Vertex>, v: Vertex, id: Identifier) {
    v in s && v.level > 0 && v.parentID == id
  }

  ghost predicate Referenced(s: set<Vertex>, lowest: nat, id: Identifier) {
    exists v :: IsChild(s, v, id) && v.parentLevel >= lowest
  }

  /** What the container of id holds when s was offered. */
  ghost predicate Faithful(f: Forest, s: set<Vertex>, id: Identifier)
    requires id in f.vertices
  {
    var c := f.vertices[id];
    && (c.vertex.Some? <==> Stored(s, f.lowest, id))
    && (c.vertex.Some? ==> c.vertex.value in s)
    && NoDup(c.children)
    && (forall v :: v in c.children <==> IsChild(s, v, id))
  }

  ghost predicate AtClaimedLevel(f: Forest, v: Vertex) {
    && (v.id in f.vertices ==> f.vertices[v.id].level == v.level)
    && (v.level > 0 && v.parentID in f.vertices ==> f.vertices[v.parentID].level == v.parentLevel)
  }

  /** The forest is exactly what the offered vertices and the lowest retained level determine. */
  ghost predicate Represents(f: Forest, s: set<Vertex>) {
    && Indexed(f)
    && (forall id :: id in f.vertices <==> Stored(s, f.lowest, id) || Referenced(s, f.lowest, id))
    && (forall id | id in f.vertices :: Faithful(f, s, id))
    && (forall v | v in s :: AtClaimedLevel(f, v))
  }

  lemma CutRepresents(f: Forest, s: set<Vertex>, level: nat)
    requires Represents(f, s) && Contract(s) && level >= f.lowest
    ensures Represents(Cut(f, level), s)
  {
    var g := Cut(f, level);
    CutIndexed(f, level);
    forall v | v in s ensures AtClaimedLevel(g, v) {
      assert AtClaimedLevel(f, v);
    }
    forall id ensures id in g.vertices <==> Stored(s, level, id) || Referenced(s, level, id) {
      if id in g.vertices {
        CutKeeps(f, s, level, id);
      } else if Stored(s, level, id) {
        var v :| v in s && v.id == id && v.level >= level;
        assert Stored(s, f.lowest, id) && AtClaimedLevel(f, v);
      } else if Referenced(s, level, id) {
        var v :| IsChild(s, v, id) && v.parentLevel >= level;
        assert Referenced(s, f.lowest, id) && AtClaimedLevel(f, v);
      }
    }
    forall id | id in g.vertices ensures Faithful(g, s, id) {
      CutKeeps(f, s, level, id);
    }
  }

  lemma CutKeeps(f: Forest, s: set<Vertex>, level: nat, id: Identifier)
    requires Represents(f, s) && id in f.vertices && level >= f.lowest && f.vertices[id].level >= level
    ensures Stored(s, f.lowest, id) ==> Stored(s, level, id)
    ensures Stored(s, level, id) ==> Stored(s, f.lowest, id)
    ensures Stored(s, level, id) || Referenced(s, level, id)
    ensures Faithful(f, s, id)
  {
    assert Stored(s, f.lowest, id) || Referenced(s, f.lowest, id);
    if Stored(s, f.lowest, id) {
      var v :| v in s && v.id == id && v.level >= f.lowest;
      assert AtClaimedLevel(f, v);
    } else {
      var v :| IsChild(s, v, id) && v.parentLevel >= f.lowest;
      assert AtClaimedLevel(f, v);
    }
  }

  // Whether adding v registers it with its parent.
  ghost predicate Registers(f: Forest, v: Vertex) {
    (if v.id in f.vertices then f.vertices[v.id].level else v.level) > f.lowest && v.parentLevel >= f.lowest
  }

  ghost function ContainerOr(f: Forest, id: Identifier, level: nat): Container {
    if id in f.vertices then f.vertices[id] else Container(level, None, [])
  }

  /** What adding a new vertex changes: its own container, and the child list of its parent's. */
  lemma AddVertexShape(f: Forest, v: Vertex)
    requires v.level >= f.lowest && !Full(f, v.id) && (Registers(f, v) ==> v.id != v.parentID)
    ensures var g := AddVertex(f, v); var reg := Registers(f, v);
            && g.lowest == f.lowest
            && g.vertices.Keys == f.vertices.Keys + {v.id} + (if reg then {v.parentID} else {})
            && g.vertices[v.id] == ContainerOr(f, v.id, v.level).(vertex := Some(v))
            && (reg ==> var p := ContainerOr(f, v.parentID, v.parentLevel);
                        g.vertices[v.parentID] == p.(children := p.children + [v]))
            && (forall id | id in f.vertices && id != v.id && !(reg && id == v.parentID) ::
                  g.vertices[id] == f.vertices[id])
  {
  }

  // A vertex below the lowest level leaves no trace, not even one it could have left earlier.
  lemma BelowLowest(f: Forest, s: set<Vertex>, v: Vertex)
    requires Represents(f, s) && Contract(s + {v}) && v.level < f.lowest
    ensures v.id !in f.vertices
    ensures v.level > 0 ==> v.parentID !in f.vertices
  {
    if v.id in f.vertices {
      assert Placed(f, v.id);
      PresentLevel(f, s, v.id, s + {v}, v);
    }
    if v.level > 0 && v.parentID in f.vertices {
      assert Placed(f, v.parentID);
      PresentLevel(f, s, v.parentID, s + {v}, v);
    }
  }

  lemma OfferedAgain(f: Forest, s: set<Vertex>, v: Vertex)
    requires Represents(f, s) && Contract(s + {v}) && (v.level < f.lowest || Full(f, v.id))
    ensures Represents(f, s + {v})
  {
    if Full(f, v.id) {
      hide AddVertex;
      assert Faithful(f, s, v.id) && Placed(f, v.id);
      assert Agree(f.vertices[v.id].vertex.value, v);
      assert s + {v} == s;
    } else {
      OfferedTooLate(f, s, v);
    }
  }

  lemma OfferedTooLate(f: Forest, s: set<Vertex>, v: Vertex)
    requires Represents(f, s) && Contract(s + {v}) && v.level < f.lowest
    ensures Represents(f, s + {v})
  {
    var t := s + {v};
    BelowLowest(f, s, v);
    forall id ensures id in f.vertices <==> Stored(t, f.lowest, id) || Referenced(t, f.lowest, id) {
      StoredIn(s, v, f.lowest, id);
      ReferencedIn(s, v, f.lowest, id);
    }
    forall id | id in f.vertices ensures Faithful(f, t, id) {
      assert Faithful(f, s, id);
      StoredIn(s, v, f.lowest, id);
      forall w ensures w in f.vertices[id].children <==> IsChild(t, w, id) {
        assert w != v ==> (IsChild(t, w, id) <==> IsChild(s, w, id));
      }
    }
    forall w | w in t ensures AtClaimedLevel(f, w) {
    }
  }

  lemma StoredIn(s: set<Vertex>, v: Vertex, lowest: nat, id: Identifier)
    ensures Stored(s + {v}, lowest, id) <==> Stored(s, lowest, id) || (v.id == id && v.level >= lowest)
  {
    if Stored(s, lowest, id) {
      var w :| w in s && w.id == id && w.level >= lowest;
      assert w in s + {v};
    }
    if v.id == id && v.level >= lowest {
      assert v in s + {v};
    }
  }

  lemma ReferencedIn(s: set<Vertex>, v: Vertex, lowest: nat, id: Identifier)
    ensures Referenced(s + {v}, lowest, id) <==>
            Referenced(s, lowest, id) || (v.level > 0 && v.parentID == id && v.parentLevel >= lowest)
  {
    if Referenced(s, lowest, id) {
      var w :| IsChild(s, w, id) && w.parentLevel >= lowest;
      assert IsChild(s + {v}, w, id);
    }
    if v.level > 0 && v.parentID == id && v.parentLevel >= lowest {
      assert IsChild(s + {v}, v, id);
    }
    if Referenced(s + {v}, lowest, id) {
      var w :| IsChild(s + {v}, w, id) && w.parentLevel >= lowest;
      assert w != v ==> IsChild(s, w, id);
    }
  }

  // A stored ID sits at the level every offered vertex, also one offered later, claims for it.
  lemma PresentLevel(f: Forest, s: set<Vertex>, id: Identifier, t: set<Vertex>, v: Vertex)
    requires Represents(f, s) && s <= t && Contract(t) && v in t && id in f.vertices
    ensures v.id == id ==> f.vertices[id].level == v.level
    ensures v.level > 0 && v.parentID == id ==> f.vertices[id].level == v.parentLevel
  {
    assert Stored(s, f.lowest, id) || Referenced(s, f.lowest, id);
    if Stored(s, f.lowest, id) {
      var w :| w in s && w.id == id && w.level >= f.lowest;
      assert AtClaimedLevel(f, w) && w in t && Agree(w, v);
    } else {
      var w :| IsChild(s, w, id) && w.parentLevel >= f.lowest;
      assert AtClaimedLevel(f, w) && w in t && Agree(v, w);
    }
  }

  lemma AddRepresents(f: Forest, s: set<Vertex>, v: Vertex)
    requires Represents(f, s) && Contract(s + {v})
    ensures Represents(AddVertex(f, v), s + {v})
  {
    if v.level < f.lowest || Full(f, v.id) {
      OfferedAgain(f, s, v);
    } else {
      AddVertexIndexed(f, v);
      AddedKeys(f, s, v);
      AddedLevels(f, s, v);
      var g := AddVertex(f, v);
      forall id | id in g.vertices ensures Faithful(g, s + {v}, id) {
        AddedFaithful(f, s, v, id);
      }
    }
  }

  // A new vertex registers with its parent exactly when it refers to it at a retained level.
  lemma RegistersIff(f: Forest, s: set<Vertex>, v: Vertex)
    requires Represents(f, s) && Contract(s + {v}) && v.level >= f.lowest
    ensures Registers(f, v) <==> v.level > 0 && v.parentLevel >= f.lowest
    ensures Registers(f, v) ==> v.id != v.parentID
    ensures ContainerOr(f, v.id, v.level).level == v.level
    ensures Registers(f, v) ==> ContainerOr(f, v.parentID, v.parentLevel).level == v.parentLevel
  {
    if v.id in f.vertices { PresentLevel(f, s, v.id, s + {v}, v); }
    if v.level > 0 && v.parentID in f.vertices { PresentLevel(f, s, v.parentID, s + {v}, v); }
    assert Agree(v, v);
  }

  lemma AddedKeys(f: Forest, s: set<Vertex>, v: Vertex)
    requires Represents(f, s) && Contract(s + {v}) && v.level >= f.lowest && !Full(f, v.id)
    ensures var g := AddVertex(f, v);
            forall id :: id in g.vertices <==> Stored(s + {v}, g.lowest, id) || Referenced(s + {v}, g.lowest, id)
  {
    RegistersIff(f, s, v);
    AddVertexShape(f, v);
    var g := AddVertex(f, v);
    forall id ensures id in g.vertices <==> Stored(s + {v}, f.lowest, id) || Referenced(s + {v}, f.lowest, id) {
      StoredIn(s, v, f.lowest, id);
      ReferencedIn(s, v, f.lowest, id);
    }
  }

  lemma AddedLevel(f: Forest, s: set<Vertex>, v: Vertex, id: Identifier, w: Vertex)
    requires Represents(f, s) && Contract(s + {v}) && v.level >= f.lowest && !Full(f, v.id)
    requires w in s + {v} && id in AddVertex(f, v).vertices
    ensures w.id == id ==> AddVertex(f, v).vertices[id].level == w.level
    ensures w.level > 0 && w.parentID == id ==> AddVertex(f, v).vertices[id].level == w.parentLevel
  {
    RegistersIff(f, s, v);
    AddVertexShape(f, v);
    if id in f.vertices {
      PresentLevel(f, s, id, s + {v}, w);
    } else {
      assert Agree(v, w) && Agree(w, v);
    }
  }

  lemma AddedLevels(f: Forest, s: set<Vertex>, v: Vertex)
    requires Represents(f, s) && Contract(s + {v}) && v.level >= f.lowest && !Full(f, v.id)
    ensures forall w | w in s + {v} :: AtClaimedLevel(AddVertex(f, v), w)
  {
    var g := AddVertex(f, v);
    forall w | w in s + {v} ensures AtClaimedLevel(g, w) {
      if w.id in g.vertices { AddedLevel(f, s, v, w.id, w); }
      if w.parentID in g.vertices { AddedLevel(f, s, v, w.parentID, w); }
    }
  }

  // The children recorded before v are those of s; an ID without a container has none.
  lemma ChildrenBefore(f: Forest, s: set<Vertex>, id: Identifier, level: nat)
    requires Represents(f, s) && Contract(s) && level >= f.lowest
    requires forall w | IsChild(s, w, id) :: w.parentLevel == level
    ensures NoDup(ContainerOr(f, id, level).children)
    ensures forall w :: w in ContainerOr(f, id, level).children <==> IsChild(s, w, id)
  {
    if id in f.vertices {
      assert Faithful(f, s, id);
    } else if w :| IsChild(s, w, id) {
      assert Referenced(s, f.lowest, id);
    }
  }

  lemma AddedFaithful(f: Forest, s: set<Vertex>, v: Vertex, id: Identifier)
    requires Represents(f, s) && Contract(s + {v})
    requires v.level >= f.lowest && !Full(f, v.id) && id in AddVertex(f, v).vertices
    ensures Faithful(AddVertex(f, v), s + {v}, id)
  {
    var g, t := AddVertex(f, v), s + {v};
    RegistersIff(f, s, v);
    AddVertexShape(f, v);
    StoredIn(s, v, f.lowest, id);
    NotYetOffered(f, s, v);
    var level := g.vertices[id].level;
    AddVertexIndexed(f, v);
    assert Placed(g, id);
    forall w | IsChild(t, w, id) ensures w.parentLevel == level {
      AddedLevel(f, s, v, id, w);
    }
    ChildrenAfter(f, s, v, id, level);
    if id in f.vertices {
      assert Faithful(f, s, id);
    }
  }

  lemma ChildrenAfter(f: Forest, s: set<Vertex>, v: Vertex, id: Identifier, level: nat)
    requires Represents(f, s) && Contract(s) && v !in s && level >= f.lowest
    requires forall w | IsChild(s + {v}, w, id) :: w.parentLevel == level
    ensures var c := ContainerOr(f, id, level).children;
            var d := if IsChild(s + {v}, v, id) then c + [v] else c;
            NoDup(d) && forall w :: w in d <==> IsChild(s + {v}, w, id)
  {
    var t := s + {v};
    forall w ensures IsChild(t, w, id) <==> IsChild(s, w, id) || (w == v && IsChild(t, v, id)) {
    }
    hide Represents, Contract;
    ChildrenBefore(f, s, id, level);
    if IsChild(t, v, id) {
      OneMore(ContainerOr(f, id, level).children, v);
    }
  }

  lemma NotYetOffered(f: Forest, s: set<Vertex>, v: Vertex)
    requires Represents(f, s) && Contract(s + {v}) && v.level >= f.lowest && !Full(f, v.id)
    ensures Contract(s) && v !in s
  {
    if v.id in f.vertices {
      assert Faithful(f, s, v.id);
    }
    assert v in s ==> Stored(s, f.lowest, v.id);
  }

  // ---------- whole runs ----------

  datatype Op = Add(vertex: Vertex) | Prune(level: nat)

  /** None when PruneUpToLevel refuses the level or its walk gets stuck. */
  function Exec(f: Forest, op: Op): Option<Forest> {
    match op
    case Add(v) => Some(AddVertex(f, v))
    case Prune(level) =>
      var r := PruneUpToLevel(f, level);
      if r.Pruned? then Some(r.forest) else None
  }

  function Run(ops: seq<Op>): Option<Forest> {
    if ops == [] then Some(EmptyForest)
    else
      match Run(ops[..|ops| - 1])
      case None => None
      case Some(f) => Exec(f, ops[|ops| - 1])
  }

  function Offered(ops: seq<Op>): (s: set<Vertex>)
    ensures forall v :: v in s <==> Add(v) in ops
  {
    set op | op in ops && op.Add? :: op.vertex
  }

  lemma {:induction false} RunRepresents(ops: seq<Op>)
    requires Run(ops).Some? && Contract(Offered(ops))
    ensures Represents(Run(ops).value, Offered(ops))
  {
    if ops == [] {
    } else {
      var before, op := ops[..|ops| - 1], ops[|ops| - 1];
      assert ops == before + [op];
      RunRepresents(before);
      OfferedStep(before, op);
      StepRepresents(Run(before).value, Offered(before), op);
    }
  }

  lemma OfferedStep(before: seq<Op>, op: Op)
    ensures Offered(before + [op]) == if op.Add? then Offered(before) + {op.vertex} else Offered(before)
  {
  }

  lemma StepRepresents(f: Forest, s: set<Vertex>, op: Op)
    requires Represents(f, s) && Exec(f, op).Some?
    requires Contract(if op.Add? then s + {op.vertex} else s)
    ensures Represents(Exec(f, op).value, if op.Add? then s + {op.vertex} else s)
  {
    if op.Add? {
      AddRepresents(f, s, op.vertex);
    } else {
      CutRepresents(f, s, op.level);
    }
  }

  /** What a reader of the forest can see of a container. */
  datatype Entry = Entry(level: nat, vertex: Option<Vertex>, children: set<Vertex>)

  function EntryOf(c: Container): Entry {
    Entry(c.level, c.vertex, set v | v in c.children)
  }

  function Contents(f: Forest): map<Identifier, Entry> {
    map id | id in f.vertices :: EntryOf(f.vertices[id])
  }

  lemma SameLevel(f: Forest, g: Forest, s: set<Vertex>, id: Identifier)
    requires Represents(f, s) && Represents(g, s) && Contract(s)
    requires id in f.vertices && id in g.vertices
    ensures f.vertices[id].level == g.vertices[id].level
  {
    if v :| v in s && v.id == id && v.level >= f.lowest {
      PresentLevel(f, s, id, s, v);
      PresentLevel(g, s, id, s, v);
    } else {
      assert Referenced(s, f.lowest, id);
      var v :| IsChild(s, v, id) && v.parentLevel >= f.lowest;
      PresentLevel(f, s, id, s, v);
      PresentLevel(g, s, id, s, v);
    }
  }

  lemma SameEntry(f: Forest, g: Forest, s: set<Vertex>, id: Identifier)
    requires Represents(f, s) && Represents(g, s) && Contract(s) && f.lowest == g.lowest
    requires id in f.vertices && id in g.vertices
    ensures EntryOf(f.vertices[id]) == EntryOf(g.vertices[id])
  {
    SameLevel(f, g, s, id);
    assert Faithful(f, s, id) && Faithful(g, s, id) && Placed(f, id) && Placed(g, id);
    if Stored(s, f.lowest, id) {
      assert Agree(f.vertices[id].vertex.value, g.vertices[id].vertex.value);
    }
    hide Represents, Contract, Stored, Referenced;
    assert EntryOf(f.vertices[id]).children == EntryOf(g.vertices[id]).children;
  }

  lemma SameLevelIDs(f: Forest, g: Forest, s: set<Vertex>, l: nat)
    requires Represents(f, s) && Represents(g, s) && Contract(s) && f.lowest == g.lowest
    ensures forall id | id in AtLevel(f, l) :: id in AtLevel(g, l)
  {
    forall id | id in AtLevel(f, l) ensures id in AtLevel(g, l) {
      assert WellListed(f, l);
      assert Placed(g, id);
      SameLevel(f, g, s, id);
    }
  }

  /** Confluence: any two interleavings of adds and successful prunes that offered the same vertices
      and dropped the same levels end in the same containers, level lists and children. */
  lemma Confluence(ops: seq<Op>, ops': seq<Op>)
    requires Run(ops).Some? && Run(ops').Some?
    requires Offered(ops) == Offered(ops') && Contract(Offered(ops))
    requires Run(ops).value.lowest == Run(ops').value.lowest
    ensures Contents(Run(ops).value) == Contents(Run(ops').value)
    ensures forall l :: multiset(AtLevel(Run(ops).value, l)) == multiset(AtLevel(Run(ops').value, l))
  {
    RunRepresents(ops);
    RunRepresents(ops');
    SameContents(Run(ops).value, Run(ops').value, Offered(ops));
    forall l ensures multiset(AtLevel(Run(ops).value, l)) == multiset(AtLevel(Run(ops').value, l)) {
      SameLists(Run(ops).value, Run(ops').value, Offered(ops), l);
    }
  }

  lemma SameKeys(f: Forest, g: Forest, s: set<Vertex>)
    requires Represents(f, s) && Represents(g, s) && f.lowest == g.lowest
    ensures f.vertices.Keys == g.vertices.Keys
  {
  }

  lemma SameContents(f: Forest, g: Forest, s: set<Vertex>)
    requires Represents(f, s) && Represents(g, s) && Contract(s) && f.lowest == g.lowest
    ensures Contents(f) == Contents(g)
  {
    SameKeys(f, g, s);
    forall id | id in f.vertices ensures EntryOf(f.vertices[id]) == EntryOf(g.vertices[id]) {
      SameEntry(f, g, s, id);
    }
  }

  lemma SameLists(f: Forest, g: Forest, s: set<Vertex>, l: nat)
    requires Represents(f, s) && Represents(g, s) && Contract(s) && f.lowest == g.lowest
    ensures multiset(AtLevel(f, l)) == multiset(AtLevel(g, l))
  {
    SameLevelIDs(f, g, s, l);
    SameLevelIDs(g, f, s, l);
    if l in f.atLevel { assert WellListed(f, l); }
    if l in g.atLevel { assert WellListed(g, l); }
    NoDupMultiset(AtLevel(f, l), AtLevel(g, l));
  }

  /** The children kept for a container are exactly the stored full vertices naming it as parent, each once. */
  lemma ChildrenAreStored(ops: seq<Op>, id: Identifier)
    requires Run(ops).Some? && Contract(Offered(ops)) && id in Run(ops).value.vertices
    ensures var f := Run(ops).value;
            && NoDup(f.vertices[id].children)
            && forall v :: v in f.vertices[id].children <==>
                           v.level > 0 && v.parentID == id && GetVertex(f, v.id) == Some(v)
  {
    var f, s := Run(ops).value, Offered(ops);
    RunRepresents(ops);
    assert Faithful(f, s, id) && Placed(f, id);
    forall v
      ensures v in f.vertices[id].children <==> v.level > 0 && v.parentID == id && GetVertex(f, v.id) == Some(v)
    {
      if GetVertex(f, v.id) == Some(v) {
        assert Faithful(f, s, v.id);
      }
      if IsChild(s, v, id) {
        assert AtClaimedLevel(f, v);
        assert Stored(s, f.lowest, v.id);
        assert Faithful(f, s, v.id) && Placed(f, v.id);
        assert Agree(f.vertices[v.id].vertex.value, v);
      }
    }
  }

  // ---------- conservation over a run ----------

  /** The IDs for which adding v creates a container. */
  function CreatedBy(f: Forest, v: Vertex): set<Identifier> {
    if v.level < f.lowest then {}
    else if Full(f, v.id) then {}
    else
      var level := if v.id in f.vertices then f.vertices[v.id].level else v.level;
      {v.id} + (if level > f.lowest && v.parentLevel >= f.lowest then {v.parentID} else {}) - f.vertices.Keys
  }

  lemma AddKeys(f: Forest, v: Vertex)
    ensures AddVertex(f, v).vertices.Keys == f.vertices.Keys + CreatedBy(f, v)
  {
  }

  lemma AddCreates(f: Forest, v: Vertex)
    ensures |AddVertex(f, v).vertices| == |f.vertices| + |CreatedBy(f, v)|
  {
    var keys, created := f.vertices.Keys, CreatedBy(f, v);
    AddKeys(f, v);
    DisjointSum(keys + created, keys, created);
    MapSize(f.vertices);
    MapSize(AddVertex(f, v).vertices);
  }

  function Created(ops: seq<Op>): nat
    requires Run(ops).Some?
  {
    if ops == [] then 0
    else
      var before, op := ops[..|ops| - 1], ops[|ops| - 1];
      Created(before) + if op.Add? then |CreatedBy(Run(before).value, op.vertex)| else 0
  }

  function PrunedCounts(ops: seq<Op>): nat
    requires Run(ops).Some?
  {
    if ops == [] then 0
    else
      var before, op := ops[..|ops| - 1], ops[|ops| - 1];
      PrunedCounts(before) + if op.Prune? then PruneUpToLevel(Run(before).value, op.level).count else 0
  }

  /** In every run, whatever levels the vertices claim: the index stays exact and every container
      ever created is either still stored or was counted by the prune that dropped it. */
  lemma {:induction false} RunIndexedAndConserved(ops: seq<Op>)
    requires Run(ops).Some?
    ensures Indexed(Run(ops).value)
    ensures |Run(ops).value.vertices| + PrunedCounts(ops) == Created(ops)
  {
    if ops == [] {
    } else {
      var before, op := ops[..|ops| - 1], ops[|ops| - 1];
      RunIndexedAndConserved(before);
      match op {
        case Add(v) =>
          AddVertexIndexed(Run(before).value, v);
          AddCreates(Run(before).value, v);
        case Prune(level) =>
          PruneConserves(Run(before).value, level);
      }
    }
  }
}
