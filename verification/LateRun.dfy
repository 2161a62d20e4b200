/**
 A run of two nodes in which a proposal lies below the block it names as its predecessor: a node keeps
 the announcement of view 1 until it has processed the block of view 5.
 */
module LateRuns {
  import opened Types
  import opened Election
  import opened ForestModel
  import opened ChainModel
  import opened Pacemakers
  import opened ReplicaModel
  import opened Invariants
  import opened ReplicaSystem
  import opened Reachability

  /** Two nodes; node 2 leads views 0..3, node 1 every later one. */
  const TWO_NODES: Config := Config(Rotation(2, (v: nat) => 0), MTchs)

  // ---------- both nodes time out in a view ----------

  /** The timeout node i sends in view v, once started. */
  function Tmo(i: NodeID, v: View): TMO {
    TMO(v + 1, v + 1, v + 2, i, GenesisQC)
  }

  /** A started node that has seen no certificate and no timeout of view v or later. */
  predicate Waits(r: Replica, v: View) {
    && v >= 1 && r.pace.curView == v && r.pace.curSeq == v + 1 && r.highQC == GenesisQC
    && v + 1 !in r.pace.timeouts
  }

  function WithTmo(r: Replica, v: View): Replica {
    r.(pace := r.pace.(timeouts := r.pace.timeouts[v + 1 := map[1 := Tmo(1, v)]]))
  }

  /** r once both nodes' timeouts of view v reached it. */
  function TimedOut(r: Replica, v: View): Replica {
    r.(pace := Pace(v + 2, v + 3, r.pace.newViews + [NewView(v + 2, v + 3, TimeoutF)],
                    r.pace.timeouts[v + 1 := map[1 := Tmo(1, v), 2 := Tmo(2, v)]]),
       secHighTC := Some(TC(v + 1, v + 1)), highTC := Some(TC(v + 2, v + 2)), voteType := TimeoutF)
  }

  /** The certificate of these timeouts is of a view already left. */
  lemma OnlyTmoCounts(r: Replica, t: TMO)
    requires r.pace.curView >= 1 && t.highQC == GenesisQC
    ensures ProcessCertificate(TWO_NODES, r, t.highQC) == r
  {
  }

  lemma FirstTmo(r: Replica, v: View)
    requires Waits(r, v)
    ensures ReceiveTmo(TWO_NODES, r, Tmo(1, v)) == WithTmo(r, v)
  {
    OnlyTmoCounts(r, Tmo(1, v));
    hide ProcessCertificate;
    var ts := r.pace.timeouts;
    assert PutTmo(ts, Tmo(1, v)) == ts[v + 1 := map[1 := Tmo(1, v)]];
    assert |map[1 := Tmo(1, v)]| == 1;
  }

  lemma SecondTmo(r: Replica, v: View)
    requires Waits(r, v)
    ensures ReceiveTmo(TWO_NODES, WithTmo(r, v), Tmo(2, v)) == TimedOut(r, v)
  {
    hide ProcessCertificate, PutTmo, TimeoutsFor;
    var s, both := WithTmo(r, v), map[1 := Tmo(1, v), 2 := Tmo(2, v)];
    OnlyTmoCounts(s, Tmo(2, v));
    TwoTmos(r, v);
    assert BuiltTCs(2, s.pace, Tmo(2, v)) == Some((TC(v + 1, v + 1), TC(v + 2, v + 2)));
  }

  lemma TwoTmos(r: Replica, v: View)
    ensures var ts, both := WithTmo(r, v).pace.timeouts, map[1 := Tmo(1, v), 2 := Tmo(2, v)];
            && |TimeoutsFor(ts, v + 1)| == 1 && PutTmo(ts, Tmo(2, v)) == r.pace.timeouts[v + 1 := both]
            && |TimeoutsFor(PutTmo(ts, Tmo(2, v)), v + 1)| == 2
  {
    var ts, both := WithTmo(r, v).pace.timeouts, map[1 := Tmo(1, v), 2 := Tmo(2, v)];
    assert TimeoutsFor(ts, v + 1) == map[1 := Tmo(1, v)] && |map[1 := Tmo(1, v)]| == 1;
    assert PutTmo(ts, Tmo(2, v)) == ts[v + 1 := both] == r.pace.timeouts[v + 1 := both];
    assert both.Keys == {1, 2} && |both| == |both.Keys| == 2;
  }

  lemma BothTimeOut(a: Replica, b: Replica, k: Pool, v: View)
    requires Have(TWO_NODES, [a, b], k) && a.id == 1 && b.id == 2 && Waits(a, v) && Waits(b, v)
    ensures Have(TWO_NODES, [TimedOut(a, v), TimedOut(b, v)], k)
  {
    hide Have, ReceiveTmo, TimedOut, WithTmo;
    FirstTmo(a, v);
    FirstTmo(b, v);
    SecondTmo(a, v);
    SecondTmo(b, v);
    var l := k.(tmos := k.tmos + {Tmo(1, v)} + {Tmo(2, v)});
    TimerFires(TWO_NODES, [a, b], k, 0);
    TimerFires(TWO_NODES, [a, b], k.(tmos := k.tmos + {Tmo(1, v)}), 1);
    TmoArrives(TWO_NODES, [a, b], l, 0, Tmo(1, v));
    assert [a, b][0 := WithTmo(a, v)] == [WithTmo(a, v), b];
    TmoArrives(TWO_NODES, [WithTmo(a, v), b], l, 0, Tmo(2, v));
    assert [WithTmo(a, v), b][0 := TimedOut(a, v)] == [TimedOut(a, v), b];
    TmoArrives(TWO_NODES, [TimedOut(a, v), b], l, 1, Tmo(1, v));
    assert [TimedOut(a, v), b][1 := WithTmo(b, v)] == [TimedOut(a, v), WithTmo(b, v)];
    TmoArrives(TWO_NODES, [TimedOut(a, v), WithTmo(b, v)], l, 1, Tmo(2, v));
    assert [TimedOut(a, v), WithTmo(b, v)][1 := TimedOut(b, v)] == [TimedOut(a, v), TimedOut(b, v)];
    Forget(TWO_NODES, [TimedOut(a, v), TimedOut(b, v)], l, k);
  }

  // ---------- the run ----------

  /** Node 1 receives the timeout it sent in view 0, whose certificate lets it enter view 1. */
  const EARLY: TMO := TMO(1, 0, 1, 1, GenesisQC)
  const FIRST := NewView(1, 2, NoTimeout)
  const NODE1 := InitReplica(1).(pace := Pace(1, 2, [FIRST], map[1 := map[1 := EARLY]]))
  const NODE2 := InitReplica(2).(pace := Pace(1, 2, [FIRST], map[]))

  lemma BothStart()
    ensures Have(TWO_NODES, [NODE1, NODE2], Pool({}, {}, {}))
  {
    hide Have, ReceiveTmo, Kickoff;
    Initially(TWO_NODES);
    var i1, i2, none := InitReplica(1), InitReplica(2), Pool({}, {}, {});
    assert Init(TWO_NODES).replicas == [i1, i2];
    TimerFires(TWO_NODES, [i1, i2], none, 0);
    EarlyEnters();
    var k := none.(tmos := none.tmos + {EARLY});
    TmoArrives(TWO_NODES, [i1, i2], k, 0, EARLY);
    assert [i1, i2][0 := NODE1] == [NODE1, i2];
    NodeStarts(TWO_NODES, [NODE1, i2], k, 1);
    assert [NODE1, i2][1 := NODE2] == [NODE1, NODE2];
    Forget(TWO_NODES, [NODE1, NODE2], k.(votes := k.votes + {KickoffVote(2)}), none);
  }

  lemma EarlyEnters()
    ensures LocalTmo(InitReplica(1)) == EARLY && ReceiveTmo(TWO_NODES, InitReplica(1), EARLY) == NODE1
    ensures Kickoff(InitReplica(2)) == NODE2
  {
    assert PutTmo(map[], EARLY) == map[1 := map[1 := EARLY]] && |map[1 := EARLY]| == 1;
    assert [] + [FIRST] == [FIRST];
  }

  /** The block of view 5, proposed after both nodes timed out in views 1 and 3. */
  const LATE5 := NewView(5, 6, TimeoutF)
  const BLOCK5: Block := MakeBlock(5, 6, GenesisQC, Some(TC(4, 4)), [Some(TC(4, 4)), Some(TC(5, 5))], NoID, [], 1)
  const BLOCK1: Block := MakeBlock(1, 2, GenesisQC, None, [], BLOCK5.id, [], 2)

  function Later(r: Replica): Replica {
    TimedOut(TimedOut(r, 1), 3)
  }

  lemma BothReachView5()
    ensures Have(TWO_NODES, [Later(NODE1), Later(NODE2)], Pool({}, {}, {}))
    ensures Later(NODE1).pace.newViews == Later(NODE2).pace.newViews == [FIRST, NewView(3, 4, TimeoutF), LATE5]
  {
    hide Have;
    BothStart();
    BothTimeOut(NODE1, NODE2, Pool({}, {}, {}), 1);
    BothTimeOut(TimedOut(NODE1, 1), TimedOut(NODE2, 1), Pool({}, {}, {}), 3);
  }

  function Announced(r: Replica, views: seq<NewView>): Replica {
    r.(pace := r.pace.(newViews := views))
  }

  /** Node 2 after storing the block of view 5, with an empty container for the block before it. */
  function Stored5(r: Replica): Replica {
    StoreBlock(r, BLOCK5)
  }

  lemma Node2Stores5()
    ensures ProcessBlock(TWO_NODES, Later(NODE2), BLOCK5) == Some(Stored5(Later(NODE2)))
  {
    var r := Later(NODE2);
    AddVertexFull(EmptyForest, VertexOf(BLOCK5), NoID);
    hide AddVertex;
    assert !CommitGuard(TWO_NODES, BLOCK5);
    assert GetBlock(Stored5(r).chain.forest, NoID) == None;
    assert ProcessOne(TWO_NODES, r, BLOCK5) == Return(Stored5(r));
  }

  lemma Stored5Frame(r: Replica)
    ensures Stored5(r) == r.(chain := Stored5(r).chain, highBlock := Stored5(r).highBlock)
    ensures r.highBlock == GenesisBlock ==> Stored5(r).highBlock == BLOCK5
  {
  }

  lemma TakesFirst(r: Replica, nv: NewView, views: seq<NewView>)
    requires r.pace.newViews == [nv] + views
    ensures DropNewView(r) == Announced(r, views)
  {
    assert r.pace.newViews[1..] == views;
  }

  lemma Announces(r: Replica, views: seq<NewView>, more: seq<NewView>)
    ensures Announced(r, views).pace.newViews == views && Announced(r, views).id == r.id
    ensures Announced(Announced(r, views), more) == Announced(r, more)
    ensures AfterProposal(Announced(r, views), LATE5) == Announced(r, views)
  {
  }

  lemma LateProposal()
    ensures MakeProposal(Announced(Later(NODE1), []), LATE5, []) == BLOCK5 && Later(NODE1).id == 1
  {
  }

  /** Node 1 proposes in view 5, once it has taken the two views before off its channel. */
  lemma Node1Proposes()
    ensures Have(TWO_NODES, [Announced(Later(NODE1), []), Later(NODE2)], Pool({BLOCK5}, {}, {}))
  {
    hide Have, Later, Announced, MakeProposal, AfterProposal;
    BothReachView5();
    LateProposal();
    var a, b, none, mid := Later(NODE1), Later(NODE2), Pool({}, {}, {}), NewView(3, 4, TimeoutF);
    TakesFirst(a, FIRST, [mid, LATE5]);
    DropsView(TWO_NODES, [a, b], none, 0);
    var a1 := Announced(a, [mid, LATE5]);
    assert [a, b][0 := a1] == [a1, b];
    Announces(a, [mid, LATE5], [LATE5]);
    TakesFirst(a1, mid, [LATE5]);
    DropsView(TWO_NODES, [a1, b], none, 0);
    var a2 := Announced(a, [LATE5]);
    assert [a1, b][0 := a2] == [a2, b];
    Announces(a, [LATE5], []);
    TakesFirst(a2, LATE5, []);
    Proposes(TWO_NODES, [a2, b], none, 0);
    var a3 := Announced(a, []);
    Announces(a, [], []);
    assert [a2, b][0 := a3] == [a3, b] && {} + {BLOCK5} == {BLOCK5};
  }

  /** In this run a block of Seq 2 names a block of Seq 6 as its predecessor: node 2 stores the block of
      view 5 and only then takes the announcement of view 1. */
  lemma BelowPredecessor()
    ensures exists trace: seq<System>, steps: seq<Step> ::
              && IsRun(TWO_NODES, trace, steps)
              && BLOCK1 in trace[|steps|].pool.blocks && BLOCK5 in trace[|steps|].pool.blocks
    ensures BLOCK1.prevID == BLOCK5.id && BLOCK1.seqNo == 2 < BLOCK5.seqNo == 6
  {
    hide Have, Next, ProcessBlock, StoreBlock;
    Node1Proposes();
    BothReachView5();
    Node2Stores5();
    var a, b, k := Announced(Later(NODE1), []), Later(NODE2), Pool({BLOCK5}, {}, {});
    var c := Stored5(b);
    Stored5Frame(b);
    BlockArrives(TWO_NODES, [a, b], k, 1, BLOCK5, c);
    assert [a, b][1 := c] == [a, c];
    var l := k.(votes := k.votes + VoteSet(c.sentVotes));
    Proposes(TWO_NODES, [a, c], l, 1);
    assert MakeProposal(DropNewView(c), FIRST, []) == BLOCK1;
    var trace, steps := RunTo(TWO_NODES, [a, c][1 := AfterProposal(DropNewView(c), FIRST)],
                              l.(blocks := l.blocks + {BLOCK1}));
  }
}
