/**
 A run in which a replica fails. Four nodes; node 4 leads every view and nodes 2, 3 and 4 make every
 certificate. Node 1 misses the block of view 1 and gets the block of view 3 before that of view 2: the
 certificate in the former waits for the missing block, so node 1 stays in view 2 and accepts the latter,
 which is then filed at the wrong level. The block of view 6 triggers its commit.
 */
module FailingRuns {
  import opened Types
  import opened Election
  import opened ForestModel
  import opened ChainModel
  import opened Quorums
  import opened Pacemakers
  import opened ReplicaModel
  import opened Invariants
  import opened ReplicaSystem
  import opened LateParents
  import opened Reachability

  const FOUR: Config := Config(Rotation(4, (v: nat) => 3), MTchs)

  const KICK: QC := KickoffQC.(leader := 4)

  function Certify(b: Block): QC {
    QC(4, b.seqNo, b.seqNo, b.id, [2, 3, 4], [PrivSign(b.id, 2), PrivSign(b.id, 3), PrivSign(b.id, 4)])
  }

  function Propose(view: View, qc: QC, prevID: Identifier): Block {
    MakeBlock(view, view + 1, qc, None, [], prevID, [], 4)
  }

  const B1: Block := Propose(1, GenesisQC, NoID)
  const B2: Block := Propose(2, KICK, B1.id)
  const B3: Block := Propose(3, Certify(B1), B2.id)
  const B4: Block := Propose(4, Certify(B2), B2.id)
  const B6: Block := Propose(6, Certify(B4), B4.id)

  function Ballot(i: NodeID, b: Block): Vote {
    MakeVote(b.view, b.seqNo, i, b.id)
  }

  // ---------- what is known of a node ----------

  /** A node in some view, with its highest certificate and lock, nothing buffered, and blocks stored. */
  ghost predicate Node(r: Replica, id: NodeID, view: View, high: QC, lock: Seq, blocks: set<Block>) {
    && r.id == id && r.pace.curView == view && r.highQC == high && r.preferredSeq == lock && r.lastVotedSeq == 0
    && r.voteType == NoTimeout && r.bufferedBlocks == map[] && r.waiting == None && r.chain.forest.lowest == 0
    && (forall b | b in blocks :: FindBlock(r, b.id) == Some(b))
    && (forall i | FindBlock(r, i).Some? :: exists b | b in blocks :: b.id == i)
  }

  /** A block without timeout certificates, by node 4. */
  predicate Plain(b: Block) {
    b.tc.None? && b.proposer == 4 && Hashed(b) && !CommitGuard(FOUR, b)
  }

  lemma PlainAccept(r: Replica, b: Block)
    requires Plain(b) && b.id !in r.bufferedQCs
    ensures var s := StoreBlock(r, b);
            AcceptBlock(FOUR, r, b) ==
            if VotingRule(FOUR, s.chain.forest, ContextOf(s), b)
            then GoOn(SendVote(s, b, Lock(FOUR, ContextOf(s)))) else Return(s)
  {
    hide AddVertex, VotingRule, CertificateFails;
  }

  /** What b's certificate makes of r, at the proposer and elsewhere. */
  function Certified(r: Replica, b: Block): Replica {
    if b.proposer != r.id then ProcessCertificate(FOUR, r, b.qc) else r
  }

  lemma PlainBlock(r: Replica, b: Block)
    requires Plain(b) && r.voteType == NoTimeout && !CertificateFails(r, b.qc)
    requires var s := Certified(r, b);
             s.voteType == NoTimeout && s.pace.curView <= b.view && b.id !in s.bufferedQCs && s.bufferedBlocks == map[]
    requires b.view <= r.pace.curView + 1
    ensures OneViewAhead(map[])
    ensures var s := StoreBlock(Certified(r, b), b);
            r.bufferedBlocks == map[] ==>
              ProcessBlock(FOUR, r, b) ==
              Some(if VotingRule(FOUR, s.chain.forest, ContextOf(s), b)
                   then SendVote(s, b, Lock(FOUR, ContextOf(s))) else s)
  {
    hide AddVertex, VotingRule, CertificateFails, ProcessCertificate, AcceptBlock, ContextOf;
    var s := Certified(r, b);
    assert s.(voteType := NoTimeout) == s;
    PlainAccept(s, b);
    assert ProcessOne(FOUR, r, b) == AcceptBlock(FOUR, s, b);
  }

  lemma Stores(r: Replica, b: Block, id: Identifier)
    requires r.chain.forest.lowest == 0
    ensures var s := StoreBlock(r, b);
            && s.chain.forest.lowest == 0 && s.chain.votes == r.chain.votes
            && FindBlock(s, id) == if id == b.id && FindBlock(r, id).None? then Some(b) else FindBlock(r, id)
  {
    hide AddVertex;
    AddVertexFull(r.chain.forest, VertexOf(b), id);
    AddVertexLowest(r.chain.forest, VertexOf(b));
  }

  /** Storing a block a node did not know. */
  lemma NodeStores(r: Replica, id: NodeID, view: View, high: QC, lock: Seq, blocks: set<Block>, b: Block)
    requires Node(r, id, view, high, lock, blocks) && forall a | a in blocks :: a.id != b.id
    ensures Node(StoreBlock(r, b), id, view, high, lock, blocks + {b})
    ensures StoreBlock(r, b).chain.votes == r.chain.votes && StoreBlock(r, b).bufferedQCs == r.bufferedQCs
  {
    hide AddVertex, FindBlock, StoreBlock;
    StoreFrame(r, b);
    var s := StoreBlock(r, b);
    forall i ensures FindBlock(s, i) == if i == b.id && FindBlock(r, i).None? then Some(b) else FindBlock(r, i) {
      Stores(r, b, i);
    }
    assert FindBlock(r, b.id).None?;
  }

  lemma StoreFrame(r: Replica, b: Block)
    ensures var s := StoreBlock(r, b);
            s == r.(chain := s.chain, highBlock := if b.view > r.highBlock.view then b else r.highBlock)
    ensures StoreBlock(r, b).chain.votes == r.chain.votes
    ensures StoreBlock(r, b).chain.forest.lowest == r.chain.forest.lowest
  {
    hide AddVertex;
    AddVertexLowest(r.chain.forest, VertexOf(b));
  }

  // ---------- certificates ----------

  predicate Verifiable(qc: QC) {
    qc.view == qc.seqNo && |qc.aggSig| == |qc.signers| && VerifiesQuorum(qc.aggSig, qc.blockID, qc.signers)
  }

  /** A certificate of the current view or later whose block is stored moves the node on. */
  lemma Advances(r: Replica, id: NodeID, view: View, high: QC, lock: Seq, blocks: set<Block>, qc: QC)
    requires Node(r, id, view, high, lock, blocks) && Verifiable(qc) && qc.view >= view && qc.view > high.view
    requires qc.seqNo < 2 || (FindBlock(r, qc.blockID).Some? && qc.seqNo > lock)
    ensures var s := ProcessCertificate(FOUR, r, qc);
            && Node(s, id, qc.view + 1, qc, if qc.seqNo < 2 then lock else qc.seqNo, blocks)
            && s == r.(pace := EnterView(r.pace, qc.view, qc.seqNo, NoTimeout), highQC := qc, secHighQC := high,
                       preferredSeq := s.preferredSeq, secPreferredSeq := s.secPreferredSeq)
            && s.chain == r.chain
    ensures !CertificateFails(r, qc)
  {
    hide VerifiesQuorum, FindBlock;
    var s := ProcessCertificate(FOUR, r, qc);
    assert s.chain == r.chain;
    assert forall i :: FindBlock(s, i) == FindBlock(r, i) by { SameFinds(r, s); }
  }

  lemma SameFinds(r: Replica, s: Replica)
    requires s.chain == r.chain
    ensures forall i :: FindBlock(s, i) == FindBlock(r, i)
  {
  }

  lemma Ignored(r: Replica, qc: QC)
    requires qc.view < r.pace.curView
    ensures ProcessCertificate(FOUR, r, qc) == r && !CertificateFails(r, qc)
  {
  }

  lemma Genesis(r: Replica, id: NodeID)
    requires r == InitReplica(id) && id >= 1
    ensures var s := ProcessCertificate(FOUR, r, GenesisQC);
            && Node(s, id, 1, GenesisQC, 0, {}) && !CertificateFails(r, GenesisQC)
            && s == r.(pace := EnterView(r.pace, 0, 0, NoTimeout))
  {
  }

  // ---------- nodes 2 and 3 ----------

  /** Votes for a block whose certificate, of its current view, lets the node enter the view of the block. */
  lemma FollowerVotes(r: Replica, id: NodeID, view: View, high: QC, lock: Seq, blocks: set<Block>, b: Block)
    returns (s: Replica)
    requires Node(r, id, view, high, lock, blocks) && id != 4 && r.bufferedQCs == map[]
    requires Plain(b) && b.view == view + 1 && b.seqNo == view + 2 && forall a | a in blocks :: a.id != b.id
    requires Verifiable(b.qc) && b.qc.view == view > high.view
    requires if view < 2 then b.view < 3
             else FindBlock(r, b.qc.blockID).Some? && FindBlock(r, b.qc.blockID).value.seqNo == b.qc.seqNo > lock
    ensures OneViewAhead(r.bufferedBlocks) && ProcessBlock(FOUR, r, b) == Some(s)
    ensures Node(s, id, view + 1, b.qc, if view < 2 then lock else view, blocks + {b})
    ensures s.bufferedQCs == map[] && Ballot(id, b) in VoteSet(s.sentVotes)
  {
    hide ProcessBlock, ProcessCertificate, CertificateFails, StoreBlock, FindBlock, VerifiesQuorum, GetBlock, EnterView;
    Advances(r, id, view, high, lock, blocks, b.qc);
    var t := ProcessCertificate(FOUR, r, b.qc);
    NodeStores(t, id, view + 1, b.qc, t.preferredSeq, blocks, b);
    PlainBlock(r, b);
    SameFinds(r, t);
    s := AfterVote(StoreBlock(t, b), id, b, t.preferredSeq);
    if view >= 2 {
      Stores(t, b, b.qc.blockID);
    }
    RuleAccepts(StoreBlock(t, b), b);
    VoteKeeps(StoreBlock(t, b), id, view + 1, b.qc, t.preferredSeq, blocks + {b}, b);
  }

  function AfterVote(r: Replica, id: NodeID, b: Block, lock: Seq): Replica {
    r.(sentVotes := r.sentVotes + [Cast(Ballot(id, b), lock)])
  }

  lemma RuleAccepts(r: Replica, b: Block)
    requires r.lastVotedSeq == 0 < b.seqNo && r.voteType == NoTimeout
    requires b.view < 3 ||
             (FindBlock(r, b.qc.blockID).Some? && FindBlock(r, b.qc.blockID).value.seqNo >= r.preferredSeq)
    ensures VotingRule(FOUR, r.chain.forest, ContextOf(r), b)
    ensures SendVote(r, b, Lock(FOUR, ContextOf(r))) == AfterVote(r, r.id, b, r.preferredSeq)
  {
  }

  lemma VoteKeeps(r: Replica, id: NodeID, view: View, high: QC, lock: Seq, blocks: set<Block>, b: Block)
    requires Node(r, id, view, high, lock, blocks)
    ensures var s := AfterVote(r, id, b, r.preferredSeq);
            && Node(s, id, view, high, lock, blocks) && s.bufferedQCs == r.bufferedQCs
            && Ballot(id, b) in VoteSet(s.sentVotes)
  {
    hide FindBlock;
    var s, c := AfterVote(r, id, b, r.preferredSeq), Cast(Ballot(id, b), r.preferredSeq);
    SameFinds(r, s);
    assert s.sentVotes[|r.sentVotes|] == c;
  }

  /** The first block, received before the node started. */
  lemma FollowerStarts(id: NodeID) returns (s: Replica)
    requires 1 <= id < 4
    ensures OneViewAhead(InitReplica(id).bufferedBlocks) && ProcessBlock(FOUR, InitReplica(id), B1) == Some(s)
    ensures Node(s, id, 1, GenesisQC, 0, {B1}) && s.bufferedQCs == map[] && Ballot(id, B1) in VoteSet(s.sentVotes)
  {
    hide ProcessBlock, ProcessCertificate, CertificateFails, StoreBlock, FindBlock, GetBlock, EnterView;
    var r := InitReplica(id);
    Genesis(r, id);
    var t := ProcessCertificate(FOUR, r, GenesisQC);
    NodeStores(t, id, 1, GenesisQC, 0, {}, B1);
    assert {} + {B1} == {B1};
    PlainBlock(r, B1);
    s := AfterVote(StoreBlock(t, B1), id, B1, 0);
    RuleAccepts(StoreBlock(t, B1), B1);
    VoteKeeps(StoreBlock(t, B1), id, 1, GenesisQC, 0, {B1}, B1);
  }

  // ---------- node 4 ----------

  /** What else is known of the leader. */
  predicate Leads(r: Replica, views: seq<NewView>, top: Block, voted: set<Identifier>) {
    && r.pace.curSeq == r.pace.curView + 1 && r.pace.newViews == views && r.highBlock == top
    && r.chain.votes.Keys == voted && r.bufferedQCs == map[]
  }

  lemma LeaderVotes(r: Replica, view: View, high: QC, lock: Seq, blocks: set<Block>, views: seq<NewView>, top: Block,
                    voted: set<Identifier>, b: Block)
    returns (s: Replica)
    requires Node(r, 4, view, high, lock, blocks) && Leads(r, views, top, voted)
    requires Plain(b) && b.view == view > top.view && b.seqNo > 0 && forall a | a in blocks :: a.id != b.id
    requires b.view < 3 || (FindBlock(r, b.qc.blockID).Some? && FindBlock(r, b.qc.blockID).value.seqNo >= lock)
    requires b.qc.leader == 4 || b.qc == GenesisQC
    ensures OneViewAhead(r.bufferedBlocks) && ProcessBlock(FOUR, r, b) == Some(s)
    ensures Node(s, 4, view, high, lock, blocks + {b}) && Leads(s, views, b, voted)
    ensures Ballot(4, b) in VoteSet(s.sentVotes)
  {
    hide ProcessBlock, ProcessCertificate, StoreBlock, FindBlock, GetBlock;
    NodeStores(r, 4, view, high, lock, blocks, b);
    StoreFrame(r, b);
    PlainBlock(r, b);
    Stores(r, b, b.qc.blockID);
    s := AfterVote(StoreBlock(r, b), 4, b, lock);
    RuleAccepts(StoreBlock(r, b), b);
    VoteKeeps(StoreBlock(r, b), 4, view, high, lock, blocks + {b}, b);
  }

  function Collected(r: Replica, b: Block, n: nat): Replica
    requires n <= 2
  {
    if n == 0 then r
    else r.(chain := r.chain.(votes := r.chain.votes[b.id := if n == 1 then map[2 := Ballot(2, b)]
                                                             else map[2 := Ballot(2, b), 3 := Ballot(3, b)]]))
  }

  /** With the third vote node 4 holds the certificate and waits. */
  function Complete(r: Replica, b: Block): Replica {
    r.(chain := r.chain.(votes := r.chain.votes[b.id := AllThree(b)]), waiting := Some(Certify(b)))
  }

  function AllThree(b: Block): map<NodeID, Vote> {
    map[2 := Ballot(2, b), 3 := Ballot(3, b), 4 := Ballot(4, b)]
  }

  lemma Sizes(b: Block)
    ensures |map[2 := Ballot(2, b)]| == 1 && |map[2 := Ballot(2, b), 3 := Ballot(3, b)]| == 2
    ensures |AllThree(b)| == 3
  {
    var two, three := map[2 := Ballot(2, b), 3 := Ballot(3, b)], AllThree(b);
    assert two.Keys == {2, 3} && |two| == |two.Keys|;
    assert three.Keys == {2, 3, 4} && |three| == |three.Keys|;
  }

  lemma FirstVote(r: Replica, b: Block, qc: QC)
    requires b.view > 0 && b.id !in r.chain.votes
    ensures !BuildsQC(FOUR, r, Ballot(2, b)) && CollectVote(FOUR, r, Ballot(2, b), qc) == Collected(r, b, 1)
  {
    Sizes(b);
    assert Put(r.chain.votes, Ballot(2, b)) == r.chain.votes[b.id := map[2 := Ballot(2, b)]];
  }

  lemma SecondVote(r: Replica, b: Block, qc: QC)
    requires b.view > 0 && b.id !in r.chain.votes
    ensures var s := Collected(r, b, 1);
            !BuildsQC(FOUR, s, Ballot(3, b)) && CollectVote(FOUR, s, Ballot(3, b), qc) == Collected(r, b, 2)
  {
    Sizes(b);
    var s, two := Collected(r, b, 1), map[2 := Ballot(2, b), 3 := Ballot(3, b)];
    assert Put(s.chain.votes, Ballot(3, b)) == s.chain.votes[b.id := two] == r.chain.votes[b.id := two];
  }

  lemma ThreeListed(b: Block)
    ensures ListsVotes(AllThree(b), [2, 3, 4], Certify(b).aggSig)
  {
    var all: seq<NodeID> := [2, 3, 4];
    assert all[..2] == [2, 3] && [2, 3][..1] == [2] && [2][..0] == [];
    assert SignerSet([2]) == {2} && SignerSet([2, 3]) == {2, 3} && SignerSet(all) == {2, 3, 4};
  }

  lemma ThirdVote(r: Replica, b: Block)
    requires b.view > 0 && b.id !in r.chain.votes && r.id == 4
    ensures var s := Collected(r, b, 2);
            && Certificate(4, s.chain.votes, Ballot(4, b), Certify(b).(leader := 0))
            && CollectVote(FOUR, s, Ballot(4, b), Certify(b).(leader := 0)) == Complete(r, b)
  {
    hide ListsVotes;
    Sizes(b);
    ThreeListed(b);
    var s, three := Collected(r, b, 2), AllThree(b);
    assert s.chain.votes[b.id][4 := Ballot(4, b)] == three;
    assert Put(s.chain.votes, Ballot(4, b)) == s.chain.votes[b.id := three] == r.chain.votes[b.id := three];
  }

  /** Node 4 collects the votes of nodes 2, 3 and itself and uses the certificate. */
  lemma LeaderCollects(rs: seq<Replica>, k: Pool, view: View, high: QC, lock: Seq, blocks: set<Block>,
                       views: seq<NewView>, top: Block, voted: set<Identifier>, b: Block)
    returns (s: Replica)
    requires |rs| == 4 && Have(FOUR, rs, k)
    requires Node(rs[3], 4, view, high, lock, blocks) && Leads(rs[3], views, top, voted)
    requires b in blocks && b.id !in voted && b.view > 0
    requires b.seqNo >= 2 && b.seqNo >= view && b.seqNo > high.view && b.seqNo > lock
    requires Ballot(2, b) in k.votes && Ballot(3, b) in k.votes && Ballot(4, b) in k.votes
    ensures Have(FOUR, rs[3 := s], k) && Node(s, 4, b.seqNo + 1, Certify(b), b.seqNo, blocks)
    ensures Leads(s, views + [NewView(b.seqNo + 1, b.seqNo + 2, NoTimeout)], top, voted + {b.id})
  {
    hide Have, CollectVote, BuildsQC, Certificate, FindBlock, ProcessCertificate;
    var r := rs[3];
    FirstVote(r, b, GenesisQC);
    VoteArrives(FOUR, rs, k, 3, Ballot(2, b), GenesisQC);
    var rs1 := rs[3 := Collected(r, b, 1)];
    SecondVote(r, b, GenesisQC);
    VoteArrives(FOUR, rs1, k, 3, Ballot(3, b), GenesisQC);
    var rs2 := rs[3 := Collected(r, b, 2)];
    assert rs1[3 := Collected(r, b, 2)] == rs2;
    ThirdVote(r, b);
    VoteArrives(FOUR, rs2, k, 3, Ballot(4, b), Certify(b).(leader := 0));
    var rs3 := rs[3 := Complete(r, b)];
    assert rs2[3 := Complete(r, b)] == rs3;
    SignalArrives(FOUR, rs3, k, 3);
    s := FinishVote(FOUR, Complete(r, b), true);
    assert rs3[3 := s] == rs[3 := s];
    UsesCertificate(r, view, high, lock, blocks, views, top, voted, b);
  }

  lemma UsesCertificate(r: Replica, view: View, high: QC, lock: Seq, blocks: set<Block>, views: seq<NewView>,
                        top: Block, voted: set<Identifier>, b: Block)
    requires Node(r, 4, view, high, lock, blocks) && Leads(r, views, top, voted)
    requires b in blocks && b.seqNo >= 2 && b.seqNo >= view && b.seqNo > high.view && b.seqNo > lock
    ensures var s := FinishVote(FOUR, Complete(r, b), true);
            && Node(s, 4, b.seqNo + 1, Certify(b), b.seqNo, blocks)
            && Leads(s, views + [NewView(b.seqNo + 1, b.seqNo + 2, NoTimeout)], top, voted + {b.id})
  {
    hide ProcessCertificate;
    var t := Complete(r, b).(waiting := None);
    assert forall i :: FindBlock(t, i) == FindBlock(r, i);
    assert Verifiable(Certify(b));
    assert Node(t, 4, view, high, lock, blocks);
    hide FindBlock;
    Advances(t, 4, view, high, lock, blocks, Certify(b));
  }

  // ---------- node 1 ----------

  /** Node 1 in a view: the certificate of the missing block is buffered, nothing sits at level 3. */
  ghost predicate Misses(r: Replica, view: View, high: QC, lock: Seq, blocks: set<Block>) {
    && Node(r, 1, view, high, lock, blocks) && r.bufferedQCs.Keys <= {B1.id}
    && AtLevel(r.chain.forest, 3) == []
  }

  /** A timeout that is alone in its view only delivers its certificate. */
  lemma Hears(r: Replica, view: View, high: QC, lock: Seq, blocks: set<Block>, t: TMO) returns (s: Replica)
    requires Misses(r, view, high, lock, blocks) && t.view !in r.pace.timeouts
    requires Verifiable(t.highQC) && t.highQC.view >= view && t.highQC.view > high.view
    requires t.highQC.seqNo < 2 || (FindBlock(r, t.highQC.blockID).Some? && t.highQC.seqNo > lock)
    ensures s == ReceiveTmo(FOUR, r, t)
    ensures Misses(s, t.highQC.view + 1, t.highQC, if t.highQC.seqNo < 2 then lock else t.highQC.seqNo, blocks)
    ensures s.pace.timeouts.Keys <= r.pace.timeouts.Keys + {t.view} && s.chain == r.chain
  {
    hide ProcessCertificate, FindBlock, VerifiesQuorum, ReceiveTmo;
    Advances(r, 1, view, high, lock, blocks, t.highQC);
    var c := ProcessCertificate(FOUR, r, t.highQC);
    OnlyTimeout(r, t);
    s := ReceiveTmo(FOUR, r, t);
    SameFinds(c, s);
  }

  lemma OnlyTimeout(r: Replica, t: TMO)
    requires var c := ProcessCertificate(FOUR, r, t.highQC); t.view !in c.pace.timeouts
    ensures var c, s := ProcessCertificate(FOUR, r, t.highQC), ReceiveTmo(FOUR, r, t);
            && s == c.(pace := c.pace.(timeouts := s.pace.timeouts))
            && s.pace.timeouts.Keys <= c.pace.timeouts.Keys + {t.view}
  {
    hide ProcessCertificate;
    var c := ProcessCertificate(FOUR, r, t.highQC);
    assert |map[t.nodeID := t]| == 1;
    assert BuiltTCs(4, c.pace, t) == None;
  }

  /** Storing a plain block that makes no container at level 3. */
  lemma StoresAside(r: Replica, view: View, high: QC, lock: Seq, blocks: set<Block>, b: Block)
    requires Misses(r, view, high, lock, blocks) && forall a | a in blocks :: a.id != b.id
    requires b.id in r.chain.forest.vertices || b.seqNo != 3
    requires b.prevID in r.chain.forest.vertices || b.qc.seqNo != 3
    ensures Misses(StoreBlock(r, b), view, high, lock, blocks + {b})
    ensures StoreBlock(r, b).pace == r.pace && StoreBlock(r, b).bufferedQCs == r.bufferedQCs
  {
    hide AddVertex, FindBlock;
    NodeStores(r, 1, view, high, lock, blocks, b);
    LevelsAfterAdd(r.chain.forest, VertexOf(b), 3);
  }

  lemma Filed(r: Replica, b: Block)
    requires FindBlock(r, b.id) == Some(b)
    ensures b.id in r.chain.forest.vertices
  {
  }

  /** Processes a plain block of its view or the next whose certificate changes nothing but the buffer. */
  lemma Takes(r: Replica, view: View, high: QC, lock: Seq, blocks: set<Block>, b: Block) returns (s: Replica)
    requires Misses(r, view, high, lock, blocks) && Plain(b) && view <= b.view <= view + 1 && b.seqNo > 0
    requires b.qc.view < view || (b.qc == Certify(B1) && view == 2 && FindBlock(r, B1.id).None?)
    requires b.id != B1.id && forall a | a in blocks :: a.id != b.id
    requires b.id in r.chain.forest.vertices || b.seqNo != 3
    requires b.prevID in r.chain.forest.vertices || b.qc.seqNo != 3
    ensures OneViewAhead(r.bufferedBlocks) && ProcessBlock(FOUR, r, b) == Some(s)
    ensures Misses(s, view, high, lock, blocks + {b}) && s.pace == r.pace
    ensures s.chain.forest == AddVertex(r.chain.forest, VertexOf(b))
  {
    hide ProcessBlock, ProcessCertificate, CertificateFails, StoreBlock, FindBlock, GetBlock, EnterView, VotingRule,
      AddVertex;
    KeepsCertificate(r, view, high, lock, blocks, b.qc);
    var t := ProcessCertificate(FOUR, r, b.qc);
    StoresAside(t, view, high, lock, blocks, b);
    PlainBlock(r, b);
    var u := StoreBlock(t, b);
    StoresForest(t, b);
    s := if VotingRule(FOUR, u.chain.forest, ContextOf(u), b) then SendVote(u, b, Lock(FOUR, ContextOf(u))) else u;
    SameFinds(u, s);
  }

  lemma StoresForest(r: Replica, b: Block)
    ensures StoreBlock(r, b).chain.forest == AddVertex(r.chain.forest, VertexOf(b))
  {
  }

  lemma KeepsCertificate(r: Replica, view: View, high: QC, lock: Seq, blocks: set<Block>, qc: QC)
    requires Misses(r, view, high, lock, blocks)
    requires qc.view < view || (qc == Certify(B1) && view == 2 && FindBlock(r, B1.id).None?)
    ensures var s := ProcessCertificate(FOUR, r, qc);
            && Misses(s, view, high, lock, blocks) && s.pace == r.pace && s.chain == r.chain
    ensures !CertificateFails(r, qc)
  {
    hide FindBlock;
    var s := ProcessCertificate(FOUR, r, qc);
    if qc.view >= view {
      assert VerifiesQuorum(qc.aggSig, qc.blockID, qc.signers);
      assert s == r.(bufferedQCs := r.bufferedQCs[B1.id := qc]);
    }
    SameFinds(r, s);
  }

  /** The block of view 6 triggers the commit of the block of view 2, whose level is empty. */
  lemma LastBlockFails(r: Replica, view: View, high: QC, lock: Seq, blocks: set<Block>)
    requires Misses(r, view, high, lock, blocks) && view == 6 && blocks == {B2, B3, B4}
    ensures OneViewAhead(r.bufferedBlocks) && ProcessBlock(FOUR, r, B6).None?
  {
    hide ProcessCertificate, StoreBlock, FindBlock, GetBlock, EnterView, AddVertex, CommitBlock, CollectTCs;
    Ignored(r, B6.qc);
    Filed(r, B4);
    StoresAside(r, view, high, lock, blocks, B6);
    var s := StoreBlock(r, B6);
    StuckAtLevel3(s);
    assert s.(voteType := NoTimeout) == s;
    assert CollectTCs(FOUR, s, B6) == Some(s) by { NothingToCollect(s, B6); }
    assert AcceptBlock(FOUR, r, B6).Panic?;
    assert r.(voteType := NoTimeout) == r;
    assert ProcessOne(FOUR, r, B6).Panic?;
  }

  lemma NothingToCollect(r: Replica, b: Block)
    requires b.tc.None?
    ensures CollectTCs(FOUR, r, b) == Some(r)
  {
  }

  lemma StuckAtLevel3(r: Replica)
    requires FindBlock(r, B4.id) == Some(B4) && FindBlock(r, B2.id) == Some(B2)
    requires AtLevel(r.chain.forest, 3) == [] && r.chain.forest.lowest == 0
    ensures CommitStep(FOUR, r, B6).Panic?
  {
    hide Traverse, Forked, Listed, Cut;
    assert CommitTarget(FOUR, r.chain.forest, B6.qc) == Some(B2);
  }

  // ---------- the run ----------

  /** The timeout node 4 sends in a view. */
  function Timeout4(view: View, high: QC): TMO {
    TMO(view + 1, view + 1, view + 2, 4, high)
  }

  function Entered(view: View): NewView {
    NewView(view, view + 1, NoTimeout)
  }

  lemma LeaderProposes(rs: seq<Replica>, k: Pool, view: View, high: QC, lock: Seq, blocks: set<Block>, entered: View,
                       top: Block, voted: set<Identifier>)
    returns (s: Replica)
    requires |rs| == 4 && Have(FOUR, rs, k) && Node(rs[3], 4, view, high, lock, blocks)
    requires Leads(rs[3], [Entered(entered)], top, voted)
    ensures Node(s, 4, view, high, lock, blocks) && Leads(s, [], top, voted) && s.pace.curView == view
    ensures Have(FOUR, rs[3 := s], k.(blocks := k.blocks + {Propose(entered, high, top.id)}))
  {
    hide Have, FindBlock;
    Proposes(FOUR, rs, k, 3);
    s := AfterProposal(DropNewView(rs[3]), Entered(entered));
    SameFinds(rs[3], s);
    assert MakeProposal(DropNewView(rs[3]), Entered(entered), []) == Propose(entered, high, top.id);
  }

  lemma LeaderTakes(rs: seq<Replica>, k: Pool, view: View, high: QC, lock: Seq, blocks: set<Block>, top: Block,
                    voted: set<Identifier>, b: Block)
    returns (s: Replica)
    requires |rs| == 4 && Have(FOUR, rs, k) && Node(rs[3], 4, view, high, lock, blocks) && Leads(rs[3], [], top, voted)
    requires b in k.blocks && Plain(b) && b.view == view > top.view && b.seqNo > 0
    requires forall a | a in blocks :: a.id != b.id
    requires b.view < 3 || (FindBlock(rs[3], b.qc.blockID).Some? && FindBlock(rs[3], b.qc.blockID).value.seqNo >= lock)
    requires b.qc.leader == 4 || b.qc == GenesisQC
    ensures Node(s, 4, view, high, lock, blocks + {b}) && Leads(s, [], b, voted)
    ensures Have(FOUR, rs[3 := s], k.(votes := k.votes + {Ballot(4, b)}))
  {
    hide Have, FindBlock, ProcessBlock, VoteSet;
    s := LeaderVotes(rs[3], view, high, lock, blocks, [], top, voted, b);
    BlockArrives(FOUR, rs, k, 3, b, s);
    Forget(FOUR, rs[3 := s], k.(votes := k.votes + VoteSet(s.sentVotes)), k.(votes := k.votes + {Ballot(4, b)}));
  }

  lemma Kicks(r: Replica)
    requires Node(r, 4, 1, GenesisQC, 0, {B1}) && Leads(r, [], B1, {})
    ensures var c := CollectVote(FOUR, r, KickoffVote(4), KickoffQC);
            && c.waiting.Some?
            && var s := FinishVote(FOUR, c, true); Node(s, 4, 2, KICK, 0, {B1}) && Leads(s, [Entered(2)], B1, {})
  {
    hide ProcessCertificate;
    var t := r.(waiting := None);
    assert CollectVote(FOUR, r, KickoffVote(4), KickoffQC) == r.(waiting := Some(KICK));
    assert Verifiable(KICK);
    Advances(t, 4, 1, GenesisQC, 0, {B1}, KICK);
    assert [] + [Entered(2)] == [Entered(2)];
  }

  lemma Started()
    ensures Init(FOUR).replicas == [InitReplica(1), InitReplica(2), InitReplica(3), InitReplica(4)]
    ensures var l := Kickoff(InitReplica(4));
            Node(l, 4, 1, GenesisQC, 0, {}) && Leads(l, [Entered(1)], GenesisBlock, {})
  {
    assert [] + [Entered(1)] == [Entered(1)];
  }

  /** Node 4 starts, proposes the first block, gets its kick-off certificate and proposes the second. */
  lemma LeaderStarts() returns (l: Replica)
    ensures Have(FOUR, [InitReplica(1), InitReplica(2), InitReplica(3), l],
                 Pool({B1, B2}, {Ballot(4, B1), Ballot(4, B2)}, {Timeout4(2, KICK)}))
    ensures Node(l, 4, 2, KICK, 0, {B1, B2}) && Leads(l, [], B2, {})
  {
    hide Have, CollectVote, FinishVote, Node, Leads, Kickoff, BuildsQC;
    Started();
    Initially(FOUR);
    var rs, none := [InitReplica(1), InitReplica(2), InitReplica(3), InitReplica(4)], Pool({}, {}, {});
    NodeStarts(FOUR, rs, none, 3);
    l := Kickoff(InitReplica(4));
    var k := none.(votes := {} + {KickoffVote(4)});
    var l1 := LeaderProposes(rs[3 := l], k, 1, GenesisQC, 0, {}, 1, GenesisBlock, {});
    assert rs[3 := l][3 := l1] == rs[3 := l1];
    k := k.(blocks := k.blocks + {B1});
    var l2 := LeaderTakes(rs[3 := l1], k, 1, GenesisQC, 0, {}, GenesisBlock, {}, B1);
    assert rs[3 := l1][3 := l2] == rs[3 := l2] && {} + {B1} == {B1};
    k := k.(votes := k.votes + {Ballot(4, B1)});
    Kicks(l2);
    assert l2.id == 4 && l2.waiting.None? by { NodeFacts(l2, 4, 1, GenesisQC, 0, {B1}); }
    VoteArrives(FOUR, rs[3 := l2], k, 3, KickoffVote(4), KickoffQC);
    var l3 := CollectVote(FOUR, l2, KickoffVote(4), KickoffQC);
    assert rs[3 := l2][3 := l3] == rs[3 := l3];
    SignalArrives(FOUR, rs[3 := l3], k, 3);
    var l4 := FinishVote(FOUR, l3, true);
    assert rs[3 := l3][3 := l4] == rs[3 := l4];
    TimerFires(FOUR, rs[3 := l4], k, 3);
    assert LocalTmo(l4) == Timeout4(2, KICK) by { LeadsTimeout(l4, 2, KICK, 0, {B1}, [Entered(2)], B1, {}); }
    k := k.(tmos := k.tmos + {Timeout4(2, KICK)});
    var l5 := LeaderProposes(rs[3 := l4], k, 2, KICK, 0, {B1}, 2, B1, {});
    assert rs[3 := l4][3 := l5] == rs[3 := l5];
    k := k.(blocks := k.blocks + {B2});
    l := LeaderTakes(rs[3 := l5], k, 2, KICK, 0, {B1}, B1, {}, B2);
    assert rs[3 := l5][3 := l] == [InitReplica(1), InitReplica(2), InitReplica(3), l] && {B1} + {B2} == {B1, B2};
    Forget(FOUR, [InitReplica(1), InitReplica(2), InitReplica(3), l], k.(votes := k.votes + {Ballot(4, B2)}),
           Pool({B1, B2}, {Ballot(4, B1), Ballot(4, B2)}, {Timeout4(2, KICK)}));
  }

  lemma NodeFacts(r: Replica, id: NodeID, view: View, high: QC, lock: Seq, blocks: set<Block>)
    requires Node(r, id, view, high, lock, blocks)
    ensures r.id == id && r.waiting.None? && r.pace.curView == view
    ensures forall b | b in blocks :: FindBlock(r, b.id) == Some(b)
  {
  }

  lemma LeadsTimeout(r: Replica, view: View, high: QC, lock: Seq, blocks: set<Block>, views: seq<NewView>, top: Block,
                     voted: set<Identifier>)
    requires Node(r, 4, view, high, lock, blocks) && Leads(r, views, top, voted)
    ensures LocalTmo(r) == Timeout4(view, high)
  {
  }

  /** Node i + 1 takes a block it votes for; s is what FollowerStarts or FollowerVotes gives. */
  lemma BallotSent(rs: seq<Replica>, k: Pool, i: nat, b: Block, s: Replica)
    requires Have(FOUR, rs, k) && i < |rs| && b in k.blocks && OneViewAhead(rs[i].bufferedBlocks)
    requires ProcessBlock(FOUR, rs[i], b) == Some(s) && Ballot(i + 1, b) in VoteSet(s.sentVotes)
    ensures Have(FOUR, rs[i := s], k.(votes := k.votes + {Ballot(i + 1, b)}))
  {
    hide Have, ProcessBlock, VoteSet;
    BlockArrives(FOUR, rs, k, i, b, s);
    Forget(FOUR, rs[i := s], k.(votes := k.votes + VoteSet(s.sentVotes)), k.(votes := k.votes + {Ballot(i + 1, b)}));
  }

  /** Nodes 2 and 3 vote for the first two blocks. */
  lemma FollowerFirst(rs: seq<Replica>, k: Pool, i: nat) returns (s: Replica)
    requires Have(FOUR, rs, k) && 1 <= i < 3 && i < |rs| && rs[i] == InitReplica(i + 1) && {B1, B2} <= k.blocks
    ensures Have(FOUR, rs[i := s], k.(votes := k.votes + {Ballot(i + 1, B1)} + {Ballot(i + 1, B2)}))
    ensures Node(s, i + 1, 2, KICK, 0, {B1, B2}) && s.bufferedQCs == map[]
  {
    hide Have, ProcessBlock, VoteSet, Node;
    var s1 := FollowerStarts(i + 1);
    BallotSent(rs, k, i, B1, s1);
    assert Verifiable(KICK);
    s := FollowerVotes(s1, i + 1, 1, GenesisQC, 0, {B1}, B2);
    BallotSent(rs[i := s1], k.(votes := k.votes + {Ballot(i + 1, B1)}), i, B2, s);
    assert rs[i := s1][i := s] == rs[i := s] && {B1} + {B2} == {B1, B2};
  }

  lemma CertifyVerifies(b: Block)
    ensures Verifiable(Certify(b))
  {
  }

  /** Nodes 2 and 3 take the third block and vote for the fourth. */
  lemma FollowerLast(rs: seq<Replica>, k: Pool, i: nat) returns (s: Replica)
    requires Have(FOUR, rs, k) && 1 <= i < 3 && i < |rs| && {B3, B4} <= k.blocks
    requires Node(rs[i], i + 1, 2, KICK, 0, {B1, B2}) && rs[i].bufferedQCs == map[]
    ensures Have(FOUR, rs[i := s], k.(votes := k.votes + {Ballot(i + 1, B4)}))
  {
    hide Have, ProcessBlock, VoteSet, Node, Verifiable;
    CertifyVerifies(B1);
    CertifyVerifies(B2);
    NodeFacts(rs[i], i + 1, 2, KICK, 0, {B1, B2});
    var s1 := FollowerVotes(rs[i], i + 1, 2, KICK, 0, {B1, B2}, B3);
    BallotSent(rs, k, i, B3, s1);
    NodeFacts(s1, i + 1, 3, Certify(B1), 2, {B1, B2} + {B3});
    s := FollowerVotes(s1, i + 1, 3, Certify(B1), 2, {B1, B2} + {B3}, B4);
    var k1 := k.(votes := k.votes + {Ballot(i + 1, B3)});
    BallotSent(rs[i := s1], k1, i, B4, s);
    assert rs[i := s1][i := s] == rs[i := s];
    Forget(FOUR, rs[i := s], k1.(votes := k1.votes + {Ballot(i + 1, B4)}), k.(votes := k.votes + {Ballot(i + 1, B4)}));
  }

  /** Node 4 makes the certificates of the first two blocks and proposes the third and fourth. */
  lemma LeaderGoesOn(rs: seq<Replica>, k: Pool) returns (l: Replica)
    requires |rs| == 4 && Have(FOUR, rs, k) && Node(rs[3], 4, 2, KICK, 0, {B1, B2}) && Leads(rs[3], [], B2, {})
    requires forall i: NodeID | 2 <= i <= 4 :: Ballot(i, B1) in k.votes && Ballot(i, B2) in k.votes
    ensures Have(FOUR, rs[3 := l], Pool(k.blocks + {B3} + {B4}, k.votes + {Ballot(4, B4)},
                                        k.tmos + {Timeout4(4, Certify(B2))}))
    ensures Node(l, 4, 4, Certify(B2), 3, {B1, B2, B4}) && Leads(l, [], B4, {B1.id, B2.id})
  {
    hide Have, Node, Leads;
    var bs := {B1, B2};
    assert Ballot(2, B1) in k.votes && Ballot(3, B1) in k.votes && Ballot(4, B1) in k.votes;
    assert Ballot(2, B2) in k.votes && Ballot(3, B2) in k.votes && Ballot(4, B2) in k.votes;
    var l1 := LeaderCollects(rs, k, 2, KICK, 0, bs, [], B2, {}, B1);
    assert [] + [Entered(3)] == [Entered(3)];
    var l2 := LeaderProposes(rs[3 := l1], k, 3, Certify(B1), 2, bs, 3, B2, {} + {B1.id});
    assert rs[3 := l1][3 := l2] == rs[3 := l2];
    var k2 := k.(blocks := k.blocks + {B3});
    var l3 := LeaderCollects(rs[3 := l2], k2, 3, Certify(B1), 2, bs, [], B2, {} + {B1.id}, B2);
    assert rs[3 := l2][3 := l3] == rs[3 := l3] && [] + [Entered(4)] == [Entered(4)];
    TimerFires(FOUR, rs[3 := l3], k2, 3);
    LeadsTimeout(l3, 4, Certify(B2), 3, bs, [Entered(4)], B2, {} + {B1.id} + {B2.id});
    var k3 := k2.(tmos := k.tmos + {Timeout4(4, Certify(B2))});
    var l4 := LeaderProposes(rs[3 := l3], k3, 4, Certify(B2), 3, bs, 4, B2, {} + {B1.id} + {B2.id});
    assert rs[3 := l3][3 := l4] == rs[3 := l4];
    var k4 := k3.(blocks := k2.blocks + {B4});
    NodeFacts(l4, 4, 4, Certify(B2), 3, bs);
    l := LeaderTakes(rs[3 := l4], k4, 4, Certify(B2), 3, bs, B2, {} + {B1.id} + {B2.id}, B4);
    assert rs[3 := l4][3 := l] == rs[3 := l];
    assert bs + {B4} == {B1, B2, B4} && {} + {B1.id} + {B2.id} == {B1.id, B2.id};
  }

  /** Node 4 makes the certificate of the fourth block and proposes in view 6. */
  lemma LeaderEnds(rs: seq<Replica>, k: Pool) returns (l: Replica)
    requires |rs| == 4 && Have(FOUR, rs, k)
    requires Node(rs[3], 4, 4, Certify(B2), 3, {B1, B2, B4}) && Leads(rs[3], [], B4, {B1.id, B2.id})
    requires forall i: NodeID | 2 <= i <= 4 :: Ballot(i, B4) in k.votes
    ensures Have(FOUR, rs[3 := l], Pool(k.blocks + {B6}, k.votes, k.tmos + {Timeout4(6, Certify(B4))}))
  {
    hide Have, Node, Leads;
    var bs := {B1, B2, B4};
    assert Ballot(2, B4) in k.votes && Ballot(3, B4) in k.votes && Ballot(4, B4) in k.votes;
    var l1 := LeaderCollects(rs, k, 4, Certify(B2), 3, bs, [], B4, {B1.id, B2.id}, B4);
    assert [] + [Entered(6)] == [Entered(6)];
    TimerFires(FOUR, rs[3 := l1], k, 3);
    LeadsTimeout(l1, 6, Certify(B4), 5, bs, [Entered(6)], B4, {B1.id, B2.id} + {B4.id});
    var k1 := k.(tmos := k.tmos + {Timeout4(6, Certify(B4))});
    l := LeaderProposes(rs[3 := l1], k1, 6, Certify(B4), 5, bs, 6, B4, {B1.id, B2.id} + {B4.id});
    assert rs[3 := l1][3 := l] == rs[3 := l];
  }

  /** The certificate in the kick-off timeout lets node 1 leave views 0 and 1 without a block. */
  lemma HearsFirst() returns (s: Replica)
    ensures s == ReceiveTmo(FOUR, InitReplica(1), Timeout4(2, KICK))
    ensures Misses(s, 2, KICK, 0, {}) && s.pace.timeouts.Keys <= {3} && s.chain.forest == EmptyForest
  {
    var r := InitReplica(1);
    assert Verifiable(KICK);
    assert Misses(r, 0, GenesisQC, 0, {});
    s := Hears(r, 0, GenesisQC, 0, {}, Timeout4(2, KICK));
  }

  lemma ThirdStored(f: Forest)
    requires f.lowest == 0 && B3.id !in f.vertices
    ensures B2.id in AddVertex(f, VertexOf(B3)).vertices
  {
    hide AddVertex;
    AddVertexShape(f, VertexOf(B3));
  }

  /** Node 1 takes the third block and then the second. */
  lemma MissesFirst(r: Replica) returns (s1: Replica, s2: Replica)
    requires Misses(r, 2, KICK, 0, {}) && r.chain.forest == EmptyForest
    ensures OneViewAhead(r.bufferedBlocks) && ProcessBlock(FOUR, r, B3) == Some(s1)
    ensures OneViewAhead(s1.bufferedBlocks) && ProcessBlock(FOUR, s1, B2) == Some(s2)
    ensures Misses(s2, 2, KICK, 0, {B2, B3}) && s2.pace == r.pace
  {
    hide ProcessBlock, FindBlock, AddVertex;
    s1 := Takes(r, 2, KICK, 0, {}, B3);
    ThirdStored(r.chain.forest);
    s2 := Takes(s1, 2, KICK, 0, {} + {B3}, B2);
    assert {} + {B3} + {B2} == {B2, B3};
  }

  /** A timeout with the certificate of the second block brings node 1 to view 4, where it takes the fourth
      block; one with the certificate of that block brings it to view 6. */
  lemma MissesLast(r: Replica) returns (s1: Replica, s2: Replica, s3: Replica)
    requires Misses(r, 2, KICK, 0, {B2, B3}) && r.pace.timeouts.Keys <= {3}
    ensures s1 == ReceiveTmo(FOUR, r, Timeout4(4, Certify(B2)))
    ensures OneViewAhead(s1.bufferedBlocks) && ProcessBlock(FOUR, s1, B4) == Some(s2)
    ensures s3 == ReceiveTmo(FOUR, s2, Timeout4(6, Certify(B4)))
    ensures Misses(s3, 6, Certify(B4), 5, {B2, B3, B4})
  {
    hide ProcessBlock, FindBlock, AddVertex, Misses, Verifiable, ReceiveTmo;
    CertifyVerifies(B2);
    CertifyVerifies(B4);
    MissesFinds(r, 2, KICK, 0, {B2, B3}, B2);
    s1 := Hears(r, 2, KICK, 0, {B2, B3}, Timeout4(4, Certify(B2)));
    MissesFinds(s1, 4, Certify(B2), 3, {B2, B3}, B2);
    Filed(s1, B2);
    s2 := Takes(s1, 4, Certify(B2), 3, {B2, B3}, B4);
    assert {B2, B3} + {B4} == {B2, B3, B4};
    MissesFinds(s2, 4, Certify(B2), 3, {B2, B3, B4}, B4);
    s3 := Hears(s2, 4, Certify(B2), 3, {B2, B3, B4}, Timeout4(6, Certify(B4)));
  }

  lemma MissesFinds(r: Replica, view: View, high: QC, lock: Seq, blocks: set<Block>, b: Block)
    requires Misses(r, view, high, lock, blocks) && b in blocks
    ensures FindBlock(r, b.id) == Some(b)
  {
    hide FindBlock;
  }

  lemma BlockTaken(rs: seq<Replica>, k: Pool, b: Block, s: Replica)
    requires Have(FOUR, rs, k) && |rs| == 4 && b in k.blocks
    requires OneViewAhead(rs[0].bufferedBlocks) && ProcessBlock(FOUR, rs[0], b) == Some(s)
    ensures Have(FOUR, rs[0 := s], k)
  {
    hide Have, ProcessBlock, VoteSet;
    BlockArrives(FOUR, rs, k, 0, b, s);
    Forget(FOUR, rs[0 := s], k.(votes := k.votes + VoteSet(s.sentVotes)), k);
  }

  /** Node 1, at first as created, ends in a state in which it fails on the last block. */
  lemma MissesAll(rs: seq<Replica>, k: Pool) returns (r: Replica)
    requires |rs| == 4 && Have(FOUR, rs, k) && rs[0] == InitReplica(1) && {B2, B3, B4} <= k.blocks
    requires {Timeout4(2, KICK), Timeout4(4, Certify(B2)), Timeout4(6, Certify(B4))} <= k.tmos
    ensures Have(FOUR, rs[0 := r], k)
    ensures OneViewAhead(r.bufferedBlocks) && ProcessBlock(FOUR, r, B6).None?
  {
    hide Have, ProcessBlock, ReceiveTmo, Misses;
    var s1 := HearsFirst();
    TmoArrives(FOUR, rs, k, 0, Timeout4(2, KICK));
    var s2, s3 := MissesFirst(s1);
    BlockTaken(rs[0 := s1], k, B3, s2);
    assert rs[0 := s1][0 := s2] == rs[0 := s2];
    BlockTaken(rs[0 := s2], k, B2, s3);
    assert rs[0 := s2][0 := s3] == rs[0 := s3];
    var s4, s5, s6 := MissesLast(s3);
    TmoArrives(FOUR, rs[0 := s3], k, 0, Timeout4(4, Certify(B2)));
    assert rs[0 := s3][0 := s4] == rs[0 := s4];
    BlockTaken(rs[0 := s4], k, B4, s5);
    assert rs[0 := s4][0 := s5] == rs[0 := s5];
    TmoArrives(FOUR, rs[0 := s5], k, 0, Timeout4(6, Certify(B4)));
    assert rs[0 := s5][0 := s6] == rs[0 := s6];
    r := s6;
    LastBlockFails(r, 6, Certify(B4), 5, {B2, B3, B4});
  }

  /** What the other three nodes send: every block and timeout that reaches node 1. */
  lemma OthersSend() returns (rs: seq<Replica>, k: Pool)
    ensures |rs| == 4 && rs[0] == InitReplica(1) && Have(FOUR, rs, k) && {B2, B3, B4, B6} <= k.blocks
    ensures {Timeout4(2, KICK), Timeout4(4, Certify(B2)), Timeout4(6, Certify(B4))} <= k.tmos
  {
    hide Have, Node, Leads;
    var l := LeaderStarts();
    rs, k := [InitReplica(1), InitReplica(2), InitReplica(3), l],
      Pool({B1, B2}, {Ballot(4, B1), Ballot(4, B2)}, {Timeout4(2, KICK)});
    var a := FollowerFirst(rs, k, 1);
    rs, k := rs[1 := a], k.(votes := k.votes + {Ballot(2, B1)} + {Ballot(2, B2)});
    var b := FollowerFirst(rs, k, 2);
    rs, k := rs[2 := b], k.(votes := k.votes + {Ballot(3, B1)} + {Ballot(3, B2)});
    l := LeaderGoesOn(rs, k);
    rs, k := rs[3 := l], Pool(k.blocks + {B3} + {B4}, k.votes + {Ballot(4, B4)}, k.tmos + {Timeout4(4, Certify(B2))});
    a := FollowerLast(rs, k, 1);
    rs, k := rs[1 := a], k.(votes := k.votes + {Ballot(2, B4)});
    b := FollowerLast(rs, k, 2);
    rs, k := rs[2 := b], k.(votes := k.votes + {Ballot(3, B4)});
    l := LeaderEnds(rs, k);
    rs, k := rs[3 := l], Pool(k.blocks + {B6}, k.votes, k.tmos + {Timeout4(6, Certify(B4))});
  }

  /** A replica can fail: this run, from the initial state, ends with a block sent that makes node 1 fail. */
  lemma ProcessingFails()
    ensures exists trace: seq<System>, steps: seq<Step> ::
              && IsRun(FOUR, trace, steps)
              && var s := trace[|steps|];
              && B6 in s.pool.blocks && |s.replicas| == 4 && OneViewAhead(s.replicas[0].bufferedBlocks)
              && ProcessBlock(FOUR, s.replicas[0], B6).None?
  {
    hide Have, ProcessBlock, Next, OneViewAhead;
    var rs, k := OthersSend();
    var r := MissesAll(rs, k);
    var trace, steps := RunTo(FOUR, rs[0 := r], k);
  }
}
