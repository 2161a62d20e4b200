/** The levelled forest as the program keeps it: containers on the heap, indexed by ID and by level. */
module LevelledForests {
  import opened Types
  import opened ForestModel

  class VertexContainer {
    const id: Identifier
    const level: nat
    var children: seq<VertexContainer>
    var vertex: Option<Vertex>

    constructor (id: Identifier, level: nat)
      ensures this.id == id && this.level == level && children == [] && vertex == None
    {
      this.id, this.level, children, vertex := id, level, [], None;
    }

    /** The container against its value. */
    ghost predicate Holds(value: Container)
      reads this, children
    {
      && level == value.level
      && vertex == value.vertex
      && |children| == |value.children|
      && forall i | 0 <= i < |children| :: children[i].vertex == Some(value.children[i])
    }
  }

  function ListIn(atLevel: map<nat, seq<VertexContainer>>, l: nat): seq<VertexContainer> {
    if l in atLevel then atLevel[l] else []
  }

  /** A level list against its value: the live containers of ids, in order. */
  ghost predicate Lists(live: map<Identifier, VertexContainer>, list: seq<VertexContainer>, ids: seq<Identifier>) {
    && |list| == |ids|
    && forall i | 0 <= i < |ids| :: ids[i] in live && live[ids[i]] == list[i]
  }

  /** The vertices of the full containers of data from index i on, in order. */
  ghost function FullFrom(data: seq<VertexContainer>, i: nat): seq<Vertex>
    reads data
    decreases |data| - i
  {
    if i >= |data| then []
    else (if data[i].vertex.Some? then [data[i].vertex.value] else []) + FullFrom(data, i + 1)
  }

  /** Reads a container list with one vertex of look-ahead, skipping empty containers. */
  class VertexIterator {
    var data: seq<VertexContainer>
    var idx: nat
    var next: Option<Vertex>

    /** The vertices still to come. */
    ghost function Rest(): seq<Vertex>
      reads this, data
    {
      (if next.Some? then [next.value] else []) + FullFrom(data, idx)
    }

    /** Without a next vertex there is nothing left. */
    ghost predicate Valid()
      reads this, data
    {
      next.None? ==> FullFrom(data, idx) == []
    }

    constructor (list: seq<VertexContainer>)
      ensures Valid() && Rest() == FullFrom(list, 0) && data == list
    {
      data, idx, next := list, 0, None;
      new;
      PreLoad();
    }

    method PreLoad()
      modifies this`idx, this`next
      ensures Valid() && Rest() == old(FullFrom(data, idx))
    {
      while idx < |data|
        invariant FullFrom(data, idx) == old(FullFrom(data, idx))
        decreases |data| - idx
      {
        var v := data[idx].vertex;
        idx := idx + 1;
        if v.Some? {
          next := v;
          return;
        }
      }
      next := None;
    }

    method NextVertex() returns (v: Option<Vertex>)
      requires Valid()
      modifies this`idx, this`next
      ensures Valid()
      ensures old(Rest()) == [] ==> v == None && Rest() == []
      ensures old(Rest()) != [] ==> v == Some(old(Rest())[0]) && Rest() == old(Rest())[1..]
    {
      v := next;
      PreLoad();
    }

    predicate HasNext()
      requires Valid()
      reads this, data
      ensures HasNext() <==> Rest() != []
    {
      next.Some?
    }
  }

  class LevelledForest {
    var vertices: map<Identifier, VertexContainer>
    var verticesAtLevel: map<nat, seq<VertexContainer>>
    var lowestLevel: nat
    // The forest as a value, and every container ever created: child lists may hold pruned ones.
    ghost var state: Forest
    ghost var containers: set<VertexContainer>

    /** The heap holds what state says. */
    ghost predicate Valid()
      reads this, containers
    {
      && lowestLevel == state.lowest
      && vertices.Keys == state.vertices.Keys
      && verticesAtLevel.Keys == state.atLevel.Keys
      && (forall c | c in containers :: ChildrenKnown(c))
      && (forall id | id in vertices :: EntryHolds(id))
      && (forall l | l in verticesAtLevel :: ListHolds(l))
    }

    ghost predicate ChildrenKnown(c: VertexContainer)
      reads this, c
    {
      forall k | k in c.children :: k in containers
    }

    ghost predicate EntryHolds(id: Identifier)
      reads this, containers
      requires id in vertices
    {
      && vertices[id] in containers
      && vertices[id].id == id
      && ChildrenKnown(vertices[id])
      && id in state.vertices
      && vertices[id].Holds(state.vertices[id])
    }

    ghost predicate ListHolds(l: nat)
      reads this
      requires l in verticesAtLevel
    {
      l in state.atLevel && Lists(vertices, verticesAtLevel[l], state.atLevel[l])
    }

    constructor ()
      ensures Valid() && state == EmptyForest && containers == {}
    {
      vertices, verticesAtLevel, lowestLevel := map[], map[], 0;
      state, containers := EmptyForest, {};
    }

    method GetVertex(id: Identifier) returns (v: Option<Vertex>)
      requires Valid()
      ensures v == ForestModel.GetVertex(state, id)
    {
      if id !in vertices || vertices[id].vertex.None? {
        return None;
      }
      return vertices[id].vertex;
    }

    /** What a valid forest says about the container of id, and about its lowest level. */
    lemma EntryFacts(id: Identifier)
      requires Valid()
      ensures lowestLevel == state.lowest && (id in vertices <==> id in state.vertices)
      ensures id in vertices ==>
                && vertices[id] in containers && vertices[id].id == id
                && vertices[id].level == state.vertices[id].level && vertices[id].vertex == state.vertices[id].vertex
    {
      if id in vertices { assert EntryHolds(id); }
    }

    method GetOrCreateVertexContainer(id: Identifier, level: nat) returns (c: VertexContainer)
      requires Valid()
      modifies this
      ensures Valid() && state == GetOrCreate(old(state), id, level)
      ensures id in vertices && c == vertices[id]
      ensures containers == old(containers) + {c} && fresh(containers - old(containers))
    {
      hide EntryHolds, ListHolds, ChildrenKnown;
      EntryFacts(id);
      if id in vertices {
        return vertices[id];
      }
      c := Insert(id, level);
    }

    method Insert(id: Identifier, level: nat) returns (c: VertexContainer)
      requires Valid() && id !in vertices
      modifies this
      ensures Valid() && state == GetOrCreate(old(state), id, level)
      ensures id in vertices && c == vertices[id]
      ensures containers == old(containers) + {c} && fresh(c)
    {
      hide EntryHolds, ListHolds, ChildrenKnown, Lists;
      c := new VertexContainer(id, level);
      var vtcs := ListIn(verticesAtLevel, level);
      vertices := vertices[id := c];
      verticesAtLevel := verticesAtLevel[level := vtcs + [c]];
      containers := containers + {c};
      state := GetOrCreate(state, id, level);
      Inserted(id);
    }

    /** Indexing a new empty container under its ID and appending it to the list of its level. */
    twostate lemma Inserted(id: Identifier)
      requires old(Valid()) && id !in old(vertices)
      requires id in vertices && vertices == old(vertices)[id := vertices[id]]
      requires var c := vertices[id];
               && c !in old(containers) && containers == old(containers) + {c}
               && c.id == id && c.children == [] && c.vertex == None
               && state == GetOrCreate(old(state), id, c.level)
               && verticesAtLevel == old(verticesAtLevel)[c.level := ListIn(old(verticesAtLevel), c.level) + [c]]
      requires forall k | k in old(containers) :: unchanged(k)
      requires lowestLevel == old(lowestLevel)
      ensures Valid()
    {
      hide VertexContainer.Holds, Lists, ListIn;
      var level := vertices[id].level;
      forall l | l in verticesAtLevel ensures ListHolds(l) {
        if l == level { ListGrown(id); } else { ListStillHolds(l); }
      }
      EmptyHolds(vertices[id]);
      forall i | i in vertices ensures EntryHolds(i) {
        if i != id { EntryStillHolds(i); }
      }
      forall k | k in containers ensures ChildrenKnown(k) {
        if k != vertices[id] { assert old(ChildrenKnown(k)); }
      }
    }

    lemma EmptyHolds(c: VertexContainer)
      requires c.children == [] && c.vertex == None
      ensures c.Holds(Container(c.level, None, []))
    {
    }

    /** The list of a level to which the new container of id was appended. */
    twostate lemma ListGrown(id: Identifier)
      requires old(Valid()) && id !in old(vertices) && id in vertices && vertices == old(vertices)[id := vertices[id]]
      requires var level := vertices[id].level;
               && level in verticesAtLevel && level in state.atLevel
               && verticesAtLevel[level] == ListIn(old(verticesAtLevel), level) + [vertices[id]]
               && state.atLevel[level] == AtLevel(old(state), level) + [id]
      ensures ListHolds(vertices[id].level)
    {
      var level := vertices[id].level;
      if level in old(verticesAtLevel) { assert old(ListHolds(level)); }
    }

    /** A list that was not changed still holds if no container it lists was replaced. */
    twostate lemma ListStillHolds(l: nat)
      requires l in old(verticesAtLevel) && old(ListHolds(l)) && l in verticesAtLevel && l in state.atLevel
      requires verticesAtLevel[l] == old(verticesAtLevel)[l] && state.atLevel[l] == old(state).atLevel[l]
      requires forall i | i in old(vertices) :: i in vertices && vertices[i] == old(vertices)[i]
      ensures ListHolds(l)
    {
    }

    method RegisterWithParent(c: VertexContainer)
      requires Valid() && c.vertex.Some? && c.id == c.vertex.value.id && c.id in vertices && vertices[c.id] == c
      modifies this, containers
      ensures Valid() && state == ForestModel.RegisterWithParent(old(state), old(c.vertex.value))
      ensures containers >= old(containers) && fresh(containers - old(containers))
    {
      hide EntryHolds, ListHolds, ChildrenKnown;
      EntryFacts(c.id);
      if c.level <= lowestLevel {
        return;
      }
      var v := c.vertex.value;
      if v.parentLevel < lowestLevel {
        return;
      }
      var parent := GetOrCreateVertexContainer(v.parentID, v.parentLevel);
      EntryFacts(v.parentID);
      AppendChild(parent, c);
    }

    method AddVertex(v: Vertex)
      requires Valid()
      modifies this, containers
      ensures Valid() && state == ForestModel.AddVertex(old(state), v)
      ensures containers >= old(containers) && fresh(containers - old(containers))
    {
      hide EntryHolds, ListHolds, ChildrenKnown, ForestModel.RegisterWithParent;
      EntryFacts(v.id);
      if v.level < lowestLevel {
        return;
      }
      var c := GetOrCreateVertexContainer(v.id, v.level);
      EntryFacts(v.id);
      if c.vertex.Some? {
        return;
      }
      Fill(c, v);
      RegisterWithParent(c);
    }

    method Fill(c: VertexContainer, v: Vertex)
      requires Valid() && c.id == v.id && v.id in vertices && vertices[v.id] == c && c.vertex.None?
      modifies this, c
      ensures Valid() && containers == old(containers) && vertices == old(vertices) && c.vertex == Some(v)
      ensures v.id in old(state).vertices && state == Filled(old(state), v)
    {
      assert EntryHolds(v.id);
      c.vertex := Some(v);
      state := Filled(state, v);
      forall l | l in verticesAtLevel ensures ListHolds(l) {
        ListStillHolds(l);
      }
      forall i | i in vertices ensures EntryHolds(i) {
        assert old(EntryHolds(i));
      }
      forall k | k in containers ensures ChildrenKnown(k) {
        assert old(ChildrenKnown(k));
      }
    }

    method AppendChild(parent: VertexContainer, c: VertexContainer)
      requires Valid() && parent.id in vertices && vertices[parent.id] == parent
      requires c in containers && c.vertex.Some?
      modifies this, containers
      ensures Valid() && containers == old(containers)
      ensures var p := old(state).vertices[parent.id];
              state == old(state).(vertices :=
                old(state).vertices[parent.id := p.(children := p.children + [old(c.vertex.value)])])
    {
      hide Lists;
      var p := state.vertices[parent.id];
      assert EntryHolds(parent.id);
      parent.children := parent.children + [c];
      state := state.(vertices := state.vertices[parent.id := p.(children := p.children + [c.vertex.value])]);
      assert EntryHolds(parent.id);
      EntryGrown(parent.id);
    }

    /** Changing the entry of id alone, to one that holds again, keeps the forest valid. */
    twostate lemma EntryGrown(id: Identifier)
      requires old(Valid()) && id in old(vertices) && vertices == old(vertices)
      requires EntryHolds(id)
      requires verticesAtLevel == old(verticesAtLevel) && lowestLevel == old(lowestLevel)
      requires containers == old(containers) && state == old(state).(vertices := state.vertices)
      requires forall i | i in old(state).vertices && i != id ::
                 i in state.vertices && state.vertices[i] == old(state).vertices[i]
      requires state.vertices.Keys == old(state).vertices.Keys
      requires forall c | c in containers :: c.vertex == old(c.vertex) && (c != vertices[id] ==> unchanged(c))
      ensures Valid()
    {
      hide VertexContainer.Holds, Lists;
      forall l | l in verticesAtLevel ensures ListHolds(l) {
        ListStillHolds(l);
      }
      forall i | i in vertices ensures EntryHolds(i) {
        assert old(EntryHolds(i));
        if i != id { EntryStillHolds(i); }
      }
      forall k | k in containers ensures ChildrenKnown(k) {
        if k != vertices[id] { assert old(ChildrenKnown(k)); }
      }
    }

    lemma ChildrenFrom(id: Identifier, i: nat)
      requires Valid() && id in vertices && i <= |vertices[id].children|
      ensures EntryHolds(id) && FullFrom(vertices[id].children, i) == state.vertices[id].children[i..]
      decreases |vertices[id].children| - i
    {
      assert EntryHolds(id);
      if i < |vertices[id].children| {
        ChildrenFrom(id, i + 1);
      }
    }

    /** The source dereferences the container of id: it must exist. */
    method GetChildren(id: Identifier) returns (it: VertexIterator)
      requires Valid() && id in vertices
      ensures fresh(it) && it.Valid() && it.data == vertices[id].children
      ensures it.Rest() == state.vertices[id].children
    {
      ChildrenFrom(id, 0);
      it := new VertexIterator(vertices[id].children);
    }

    method GetNumberOfChildren(id: Identifier) returns (num: nat)
      requires Valid() && id in vertices
      ensures num == |state.vertices[id].children|
    {
      num := 0;
      var children := vertices[id].children;
      assert EntryHolds(id);
      for i := 0 to |children|
        invariant num == i
      {
        if children[i].vertex.Some? {
          num := num + 1;
        }
      }
    }

    /** The levels of the target's stored ancestors. The source indexes the first container of every
        level it visits and reads its vertex; the precondition is that it finds one and gets to an end. */
    method CommittedLevels(level: nat) returns (levels: set<nat>)
      requires Valid() && PruneWalk(state, level, {}).Some?
      ensures Some(levels) == PruneWalk(state, level, {})
    {
      levels := {};
      var l: nat := level;
      ghost var visited: set<nat> := {};
      while l >= lowestLevel && l > 1
        invariant PruneWalk(state, l, visited).Some?
        invariant levels + PruneWalk(state, l, visited).value == PruneWalk(state, level, {}).value
        decreases state.atLevel.Keys - visited
      {
        assert ListHolds(l);
        var vertex := verticesAtLevel[l][0].vertex.value;
        var parent := GetVertex(vertex.parentID);
        if parent.None? || parent.value.level < lowestLevel {
          break;
        }
        levels := levels + {parent.value.level};
        visited := visited + {l};
        l := parent.value.level;
      }
    }

    /** Deletes the containers of a level list from the ID index, and returns the blocks of the full ones. */
    method DeleteVertices(list: seq<VertexContainer>, ghost ids: seq<Identifier>)
      returns (blocks: seq<Block>)
      requires ListedAs(list, ids, state)
      modifies this`vertices
      ensures vertices == old(vertices) - IDSet(ids)
      ensures blocks == FullBlocks(state, ids)
    {
      blocks := [];
      for i := 0 to |list|
        invariant vertices == old(vertices) - IDSet(ids[..i])
        invariant blocks == FullBlocks(state, ids[..i])
      {
        assert ids[..i + 1][..i] == ids[..i];
        var v := list[i];
        if v.vertex.Some? {
          blocks := blocks + [v.vertex.value.block];
        }
        vertices := vertices - {v.id};
      }
      assert ids[..|ids|] == ids;
    }

    lemma ListIsListed(l: nat)
      requires Valid() && l in verticesAtLevel
      ensures l in state.atLevel && ListedAs(verticesAtLevel[l], state.atLevel[l], state)
    {
      assert ListHolds(l);
      forall i | 0 <= i < |verticesAtLevel[l]| ensures EntryHolds(state.atLevel[l][i]) {
      }
    }

    twostate lemma EntryStillHolds(id: Identifier)
      requires id in old(vertices) && old(EntryHolds(id)) && id in vertices && id in state.vertices
      requires containers >= old(containers) && forall c | c in old(containers) :: c.vertex == old(c.vertex)
      requires vertices[id] == old(vertices)[id] && vertices[id].children == old(vertices[id].children)
      requires state.vertices[id] == old(state).vertices[id]
      ensures EntryHolds(id)
    {
      var c := vertices[id];
      forall i | 0 <= i < |c.children|
        ensures c.children[i].vertex == Some(state.vertices[id].children[i])
      {
        assert c.children[i] in old(c.children);
      }
    }

    /** Dropping the list of level l and its IDs leaves the rest as it was. */
    twostate lemma StillValid(l: nat)
      requires old(Valid()) && Indexed(old(state))
      requires containers == old(containers) && forall c | c in containers :: unchanged(c)
      requires lowestLevel == old(lowestLevel) && state == Without(old(state), l)
      requires vertices == old(vertices) - IDSet(AtLevel(old(state), l))
      requires verticesAtLevel == old(verticesAtLevel) - {l}
      ensures Valid()
    {
      forall i | i in vertices ensures EntryHolds(i) {
        EntryStillHolds(i);
      }
      forall k | k in verticesAtLevel ensures ListHolds(k) {
        assert old(ListHolds(k));
        KeptIDs(old(state), l, k);
      }
      forall c | c in containers ensures ChildrenKnown(c) {
        assert old(ChildrenKnown(c));
      }
    }

    /** Drops the containers of level l. */
    method PruneLevel(l: nat) returns (blocks: seq<Block>, prunedNo: nat)
      requires Valid() && Indexed(state)
      modifies this
      ensures Valid() && containers == old(containers) && lowestLevel == old(lowestLevel)
      ensures state == Without(old(state), l)
      ensures blocks == FullBlocks(old(state), AtLevel(old(state), l))
      ensures prunedNo == |AtLevel(old(state), l)|
    {
      var list := if l in verticesAtLevel then verticesAtLevel[l] else [];
      if l in verticesAtLevel { ListIsListed(l); }
      blocks := DeleteVertices(list, AtLevel(state, l));
      prunedNo := |list|;
      verticesAtLevel := verticesAtLevel - {l};
      state := Without(state, l);
      StillValid(l);
    }

    /** Drops every level below `level`, and returns the blocks of the levels that are not committed. */
    method PruneLevels(level: nat, committedLevels: set<nat>) returns (forked: seq<Block>, prunedNo: nat)
      requires Valid() && Indexed(state) && level >= lowestLevel
      modifies this
      ensures Valid() && containers == old(containers)
      ensures state == Dropped(old(state), level)
      ensures forked == Forked(old(state), committedLevels, old(state).lowest, level)
      ensures prunedNo == Listed(old(state), old(state).lowest, level)
    {
      hide Valid, Indexed, Dropped, Without, Forked, Listed, FullBlocks, AtLevel;
      EntryFacts(NoID);
      forked, prunedNo := [], 0;
      ghost var was := state;
      NothingCounted(was, committedLevels);
      NothingDropped(was);
      for l := lowestLevel to level
        invariant Valid() && containers == old(containers) && lowestLevel == was.lowest
        invariant state == Dropped(was, l)
        invariant forked == Forked(was, committedLevels, was.lowest, l)
        invariant prunedNo == Listed(was, was.lowest, l)
      {
        DroppedIndexed(was, l);
        DropOne(was, l);
        DroppedBlocks(was, l);
        OneMoreLevel(was, committedLevels, was.lowest, l);
        var blocks, n := PruneLevel(l);
        if l !in committedLevels && l > 1 {
          forked := forked + blocks;
        }
        prunedNo := prunedNo + n;
      }
    }

    /** Prunes the levels below `level`, and returns the blocks off the path of the target's ancestors. */
    method PruneUpToLevel(level: nat) returns (forked: seq<Block>, prunedNo: nat, ok: bool)
      requires Valid() && Indexed(state)
      requires !ForestModel.PruneUpToLevel(state, level).Stuck?
      modifies this
      ensures Valid() && containers == old(containers)
      ensures ok <==> level >= old(state).lowest
      ensures ok ==> ForestModel.PruneUpToLevel(old(state), level) == Pruned(state, forked, prunedNo)
      ensures !ok ==> state == old(state) && forked == [] && prunedNo == 0
    {
      hide EntryHolds, ListHolds, ChildrenKnown, PruneWalk;
      EntryFacts(NoID);
      if level < lowestLevel {
        return [], 0, false;
      }
      var committedLevels := CommittedLevels(level);
      forked, prunedNo := PruneLevels(level, committedLevels);
      RaiseLowest(level);
      ok := true;
    }

    method RaiseLowest(level: nat)
      requires Valid()
      modifies this
      ensures Valid() && containers == old(containers) && state == old(state).(lowest := level)
    {
      lowestLevel, state := level, state.(lowest := level);
      forall i | i in vertices ensures EntryHolds(i) {
        EntryStillHolds(i);
      }
      forall k | k in verticesAtLevel ensures ListHolds(k) {
        assert old(ListHolds(k));
      }
      forall c | c in containers ensures ChildrenKnown(c) {
        assert old(ChildrenKnown(c));
      }
    }
  }

  /** The forest without its levels below l, before the lowest level is raised. */
  ghost function Dropped(f: Forest, l: nat): Forest {
    Cut(f, l).(lowest := f.lowest)
  }

  lemma NothingDropped(f: Forest)
    requires Indexed(f)
    ensures Dropped(f, f.lowest) == f
  {
    assert forall id | id in f.vertices :: Placed(f, id);
  }

  lemma DroppedIndexed(f: Forest, l: nat)
    requires Indexed(f) && l >= f.lowest
    ensures Indexed(Dropped(f, l))
  {
    var g := Dropped(f, l);
    forall i | i in g.vertices ensures Placed(g, i) {
      assert Placed(f, i);
    }
    forall k | k in g.atLevel ensures WellListed(g, k) {
      assert WellListed(f, k);
    }
  }

  lemma ListedAtOneLevel(f: Forest, l: nat, id: Identifier)
    requires Indexed(f) && id in f.vertices
    ensures id in AtLevel(f, l) <==> f.vertices[id].level == l
  {
    assert Placed(f, id);
    if l in f.atLevel { assert WellListed(f, l); }
  }

  lemma DropOneFromIndex(f: Forest, l: nat)
    requires Indexed(f) && l >= f.lowest
    ensures Without(Dropped(f, l), l).vertices == Dropped(f, l + 1).vertices
  {
    forall id | id in f.vertices ensures id in AtLevel(f, l) <==> f.vertices[id].level == l {
      ListedAtOneLevel(f, l, id);
    }
    assert AtLevel(Dropped(f, l), l) == AtLevel(f, l);
  }

  lemma DropOne(f: Forest, l: nat)
    requires Indexed(f) && l >= f.lowest
    ensures Without(Dropped(f, l), l) == Dropped(f, l + 1)
  {
    DropOneFromIndex(f, l);
    assert Without(Dropped(f, l), l).atLevel == Dropped(f, l + 1).atLevel;
  }

  lemma NothingCounted(f: Forest, committed: set<nat>)
    ensures Forked(f, committed, f.lowest, f.lowest) == [] && Listed(f, f.lowest, f.lowest) == 0
  {
  }

  lemma OneMoreLevel(f: Forest, committed: set<nat>, lo: nat, l: nat)
    requires lo <= l
    ensures Forked(f, committed, lo, l + 1) ==
            Forked(f, committed, lo, l) + if l !in committed && l > 1 then FullBlocks(f, AtLevel(f, l)) else []
    ensures Listed(f, lo, l + 1) == Listed(f, lo, l) + |AtLevel(f, l)|
  {
  }

  lemma DroppedBlocks(f: Forest, l: nat)
    requires Indexed(f) && l >= f.lowest
    ensures AtLevel(Dropped(f, l), l) == AtLevel(f, l)
    ensures FullBlocks(Dropped(f, l), AtLevel(f, l)) == FullBlocks(f, AtLevel(f, l))
  {
    if l in f.atLevel {
      assert WellListed(f, l);
    }
    SameFullBlocks(Dropped(f, l), f, AtLevel(f, l));
  }

  lemma {:induction false} SameFullBlocks(f: Forest, g: Forest, ids: seq<Identifier>)
    requires forall id | id in ids :: GetVertex(f, id) == GetVertex(g, id)
    ensures FullBlocks(f, ids) == FullBlocks(g, ids)
  {
    if ids == [] {
    } else {
      SameFullBlocks(f, g, ids[..|ids| - 1]);
    }
  }

  /** A level list with the IDs and vertices that f records for it. */
  ghost predicate ListedAs(list: seq<VertexContainer>, ids: seq<Identifier>, f: Forest)
    reads list
  {
    && |list| == |ids|
    && forall i | 0 <= i < |list| ::
         list[i].id == ids[i] && ids[i] in f.vertices && list[i].vertex == f.vertices[ids[i]].vertex
  }

  function IDSet(ids: seq<Identifier>): (s: set<Identifier>)
    ensures forall id :: id in s <==> id in ids
  {
    if ids == [] then {} else IDSet(ids[..|ids| - 1]) + {ids[|ids| - 1]}
  }

  /** The forest with the list of level l dropped. */
  ghost function Without(f: Forest, l: nat): Forest {
    f.(vertices := f.vertices - IDSet(AtLevel(f, l)), atLevel := f.atLevel - {l})
  }

  lemma KeptIDs(f: Forest, l: nat, k: nat)
    requires Indexed(f) && k in f.atLevel && k != l
    ensures forall id | id in f.atLevel[k] :: id in f.vertices && id !in AtLevel(f, l)
  {
    assert WellListed(f, k);
    if l in f.atLevel { assert WellListed(f, l); }
  }
}
