/** What holds in every state of every run of n replicas over a lossy, reordering, duplicating network. */
module Safety {
  import opened Types
  import opened Collections
  import opened Election
  import opened ForestModel
  import opened ChainModel
  import opened Quorums
  import opened Pacemakers
  import opened ReplicaModel
  import opened Invariants
  import opened Handlers
  import opened ReplicaSystem

  // ---------- one block per View and per Seq ----------

  lemma SameSeqSameBlock(cfg: Config, k: Pool, a: Block, b: Block)
    requires GoodPool(cfg, k) && a in k.blocks && b in k.blocks
    requires a.view == b.view || a.seqNo == b.seqNo
    ensures a == b
  {
    hide GoodVote, GoodTmo, GoodQC, GoodTCs;
    assert GoodBlock(cfg, k, a) && GoodBlock(cfg, k, b);
  }

  /** In a run, at most one block is ever proposed per View, and per Seq; its proposer leads its View. */
  lemma OneBlockPerSeq(cfg: Config, trace: seq<System>, steps: seq<Step>, i: nat, a: Block, j: nat, b: Block)
    requires IsRun(cfg, trace, steps) && i < |trace| && j < |trace|
    requires a in trace[i].pool.blocks && b in trace[j].pool.blocks
    ensures a.view == b.view || a.seqNo == b.seqNo ==> a == b
    ensures a.proposer == cfg.rotation.FindLeaderFor(a.view)
  {
    hide GoodPool, GoodNode, Next, VotesCast;
    var last := if i < j then j else i;
    PoolOnlyGrows(cfg, trace, steps, i, last);
    PoolOnlyGrows(cfg, trace, steps, j, last);
    RunGood(cfg, trace, steps, last);
    if a.view == b.view || a.seqNo == b.seqNo {
      SameSeqSameBlock(cfg, trace[last].pool, a, b);
    }
    LeaderProposes(cfg, trace[last].pool, a);
  }

  lemma LeaderProposes(cfg: Config, k: Pool, b: Block)
    requires GoodPool(cfg, k) && b in k.blocks
    ensures b.proposer == cfg.rotation.FindLeaderFor(b.view)
  {
    hide GoodVote, GoodTmo, GoodQC, GoodTCs;
    assert GoodBlock(cfg, k, b);
    OneLeaderPerView(cfg.rotation, b.proposer, b.view);
  }

  /** The facts about replica m of state i that the theorems below start from. */
  lemma NodeInRun(cfg: Config, trace: seq<System>, steps: seq<Step>, i: nat, m: nat)
    requires IsRun(cfg, trace, steps) && i < |trace| && m < |trace[i].replicas|
    ensures GoodPool(cfg, trace[i].pool) && GoodReplica(cfg, trace[i].pool, trace[i].replicas[m])
    ensures trace[i].replicas[m].id == m + 1 <= cfg.N()
  {
    hide GoodPool, GoodReplica, Next, VotesCast, OwnBlocks;
    RunGood(cfg, trace, steps, i);
    assert GoodNode(cfg, trace[i].pool, trace[i].replicas[m]);
  }

  /** The forest of a replica holds at most one full vertex per Seq, which PruneUpToLevel relies on. */
  lemma OneFullVertexPerSeq(cfg: Config, trace: seq<System>, steps: seq<Step>, i: nat, m: nat,
                            x: Identifier, y: Identifier)
    requires IsRun(cfg, trace, steps) && i < |trace| && m < |trace[i].replicas|
    requires FindBlock(trace[i].replicas[m], x).Some? && FindBlock(trace[i].replicas[m], y).Some?
    requires FindBlock(trace[i].replicas[m], x).value.seqNo == FindBlock(trace[i].replicas[m], y).value.seqNo
    ensures x == y
  {
    hide Next, GoodTimeouts, GoodVotes, GoodViews, GoodPair, GoodLocks, GoodReports, GoodSent, GoodQC, GoodPool,
      GoodBuffers;
    NodeInRun(cfg, trace, steps, i, m);
    var f := trace[i].replicas[m].chain.forest;
    assert Full(f, x) && Full(f, y);
    SameSeqSameBlock(cfg, trace[i].pool, GetBlock(f, x).value, GetBlock(f, y).value);
  }

  ghost predicate ReportsCommitted(r: Replica, b: Block) {
    exists n | 0 <= n < |r.reports| :: b in r.reports[n].committed
  }

  lemma ReportedInPool(cfg: Config, k: Pool, r: Replica, b: Block)
    requires GoodReplica(cfg, k, r) && ReportsCommitted(r, b)
    ensures b in k.blocks
  {
    hide GoodTimeouts, GoodVotes, GoodViews, GoodPair, GoodLocks, GoodSent, GoodQC, GoodBuffers, GoodStore, Evidence;
    var n :| 0 <= n < |r.reports| && b in r.reports[n].committed;
    assert GoodReport(cfg, k, r.reports[n]);
  }

  /** No two replicas ever report different committed blocks at the same Seq. */
  lemma CommitsAgree(cfg: Config, trace: seq<System>, steps: seq<Step>, i: nat, m: nat, a: Block,
                     j: nat, n: nat, b: Block)
    requires IsRun(cfg, trace, steps) && i < |trace| && j < |trace|
    requires m < |trace[i].replicas| && n < |trace[j].replicas|
    requires ReportsCommitted(trace[i].replicas[m], a) && ReportsCommitted(trace[j].replicas[n], b)
    ensures a.seqNo == b.seqNo ==> a == b
  {
    hide Next, GoodPool, GoodReplica;
    NodeInRun(cfg, trace, steps, i, m);
    NodeInRun(cfg, trace, steps, j, n);
    ReportedInPool(cfg, trace[i].pool, trace[i].replicas[m], a);
    ReportedInPool(cfg, trace[j].pool, trace[j].replicas[n], b);
    OneBlockPerSeq(cfg, trace, steps, i, a, j, b);
  }

  // ---------- certificates ----------

  /** qc is in a block or timeout that was sent, or kept by a replica. */
  ghost predicate Carried(s: System, qc: QC) {
    || (exists b | b in s.pool.blocks :: b.qc == qc)
    || (exists t | t in s.pool.tmos :: t.highQC == qc)
    || exists m | 0 <= m < |s.replicas| :: Kept(s.replicas[m], qc)
  }

  predicate Kept(r: Replica, qc: QC) {
    || qc == r.highQC || qc == r.secHighQC || r.waiting == Some(qc)
    || exists id | id in r.bufferedQCs :: r.bufferedQCs[id] == qc
  }

  lemma KeptIsGood(cfg: Config, k: Pool, r: Replica, qc: QC)
    requires GoodReplica(cfg, k, r) && Kept(r, qc)
    ensures GoodQC(cfg, k, qc)
  {
    hide GoodTimeouts, GoodVotes, GoodViews, GoodPair, GoodLocks, GoodSent, GoodQC, GoodStore, GoodReports;
  }

  lemma CarriedIsGood(cfg: Config, trace: seq<System>, steps: seq<Step>, i: nat, qc: QC)
    requires IsRun(cfg, trace, steps) && i < |trace| && Carried(trace[i], qc)
    ensures GoodPool(cfg, trace[i].pool) && GoodQC(cfg, trace[i].pool, qc)
  {
    hide Next, GoodReplica, GoodVote, GoodTCs, GoodQC, Kept, OneBlockPerView, OwnBlocks, VotesCast;
    RunGood(cfg, trace, steps, i);
    var s := trace[i];
    if b :| b in s.pool.blocks && b.qc == qc {
      assert GoodBlock(cfg, s.pool, b);
    } else if t :| t in s.pool.tmos && t.highQC == qc {
      assert GoodTmo(cfg, s.pool, t);
    } else {
      var m :| 0 <= m < |s.replicas| && Kept(s.replicas[m], qc);
      assert GoodNode(cfg, s.pool, s.replicas[m]);
      KeptIsGood(cfg, s.pool, s.replicas[m], qc);
    }
  }

  /** Replica s voted for exactly the block qc certifies; once the voting rule looks at parents, the
      block's own certificate reached the lock s held then. */
  ghost predicate VotedFor(cfg: Config, s: System, m: NodeID, qc: QC)
    requires qc.seqNo >= 1 && qc.blockID.BlockHash?
  {
    1 <= m <= |s.replicas| &&
    exists c | c in s.replicas[m - 1].sentVotes ::
      c.vote == SignersVote(qc, m) && (qc.seqNo > FirstChecked(cfg) ==> c.lock <= qc.blockID.qc.seqNo)
  }

  lemma SignerVoted(cfg: Config, s: System, qc: QC, m: NodeID)
    requires GoodSystem(cfg, s) && VotesCast(s) && Certified(cfg, s.pool, qc) && m in qc.signers
    ensures VotedFor(cfg, s, m, qc) && Proposed(s.pool, qc.blockID)
  {
    hide GoodBlock, GoodTmo, OneBlockPerView, GoodTimeouts, GoodVotes, GoodViews, GoodPair, GoodLocks, GoodQC,
      GoodStore, GoodReports, GoodBuffers, OwnBlocks, VerifiesQuorum;
    var v := SignersVote(qc, m);
    assert GoodVote(cfg, s.pool, v);
    assert IsCast(s.replicas[v.voter - 1], v);
    var r := s.replicas[m - 1];
    var n :| 0 <= n < |r.sentVotes| && r.sentVotes[n].vote == v;
    assert GoodNode(cfg, s.pool, r);
    assert GoodCast(cfg, s.pool, r.id, r.sentVotes[n]);
  }

  /** Every certificate found anywhere in a run, the bootstrap ones apart, has a quorum of distinct
      signers, verifies, certifies a proposed block whose Seq is the certificate's Seq and View, and each
      signer voted for exactly that block after its voting rule accepted it. */
  lemma CertificatesAreQuorums(cfg: Config, trace: seq<System>, steps: seq<Step>, i: nat, qc: QC)
    requires IsRun(cfg, trace, steps) && i < |trace| && Carried(trace[i], qc) && !Bootstrap(qc)
    ensures NoDup(qc.signers) && |qc.signers| == cfg.N() * 2 / 3 + 1
    ensures VerifiesQuorum(qc.aggSig, qc.blockID, qc.signers)
    ensures exists b | b in trace[i].pool.blocks :: b.id == qc.blockID && b.seqNo == qc.seqNo == qc.view
    ensures qc.seqNo >= 1 && qc.blockID.BlockHash?
    ensures forall m | m in qc.signers :: VotedFor(cfg, trace[i], m, qc)
  {
    hide Next, GoodSystem, VotesCast, VotedFor, GoodBlock, GoodVote, GoodTmo, OneBlockPerView, Carried,
      VerifiesQuorum;
    CarriedIsGood(cfg, trace, steps, i, qc);
    RunGood(cfg, trace, steps, i);
    forall m | m in qc.signers ensures VotedFor(cfg, trace[i], m, qc) && Proposed(trace[i].pool, qc.blockID) {
      SignerVoted(cfg, trace[i], qc, m);
    }
    assert qc.signers[0] in qc.signers;
    var b :| b in trace[i].pool.blocks && b.id == qc.blockID;
    SeqOfID(cfg, trace[i].pool, b);
  }

  lemma SeqOfID(cfg: Config, k: Pool, b: Block)
    requires GoodPool(cfg, k) && b in k.blocks
    ensures b.id == IDOf(b)
  {
    hide GoodVote, GoodTmo, OneBlockPerView, GoodQC, GoodTCs;
    assert GoodBlock(cfg, k, b);
  }

  /** Two certificates of one Seq certify the same block, wherever and whenever they are found. */
  lemma CertificatesAgree(cfg: Config, trace: seq<System>, steps: seq<Step>, i: nat, p: QC, j: nat, q: QC)
    requires IsRun(cfg, trace, steps) && i < |trace| && j < |trace|
    requires Carried(trace[i], p) && Carried(trace[j], q) && !Bootstrap(p) && !Bootstrap(q)
    ensures p.seqNo == q.seqNo || p.view == q.view ==> p.blockID == q.blockID
  {
    hide Next, Carried, VotedFor, VerifiesQuorum;
    CertificatesAreQuorums(cfg, trace, steps, i, p);
    CertificatesAreQuorums(cfg, trace, steps, j, q);
    var a :| a in trace[i].pool.blocks && a.id == p.blockID && a.seqNo == p.seqNo;
    var b :| b in trace[j].pool.blocks && b.id == q.blockID && b.seqNo == q.seqNo;
    OneBlockPerSeq(cfg, trace, steps, i, a, j, b);
  }

  /** What a replica voted for, it still has voted for later. */
  lemma StillVotedFor(cfg: Config, trace: seq<System>, steps: seq<Step>, i: nat, j: nat, m: NodeID, qc: QC)
    requires IsRun(cfg, trace, steps) && i <= j < |trace|
    requires qc.seqNo >= 1 && qc.blockID.BlockHash? && VotedFor(cfg, trace[i], m, qc)
    ensures VotedFor(cfg, trace[j], m, qc)
  {
    hide Next, GoodPool, GoodNode;
    RunGood(cfg, trace, steps, i);
    NeverBack(cfg, trace, steps, i, j, m - 1);
    var c :| c in trace[i].replicas[m - 1].sentVotes &&
             c.vote == SignersVote(qc, m) && (qc.seqNo > FirstChecked(cfg) ==> c.lock <= qc.blockID.qc.seqNo);
    assert c in trace[j].replicas[m - 1].sentVotes;
  }

  /** Any two certificates of a run, wherever and whenever they are found, share more than a third of all
      nodes, so f + 1 of them when n = 3f + 1, and every shared node voted for both blocks. */
  lemma CertificatesShareVoters(cfg: Config, trace: seq<System>, steps: seq<Step>, i: nat, p: QC, j: nat, q: QC)
    requires IsRun(cfg, trace, steps) && i <= j < |trace|
    requires Carried(trace[i], p) && Carried(trace[j], q) && !Bootstrap(p) && !Bootstrap(q)
    ensures p.seqNo >= 1 && p.blockID.BlockHash? && q.seqNo >= 1 && q.blockID.BlockHash?
    ensures var shared := SignerSet(p.signers) * SignerSet(q.signers);
            && 3 * |shared| > cfg.N() && |shared| >= (cfg.N() - 1) / 3 + 1
            && forall m | m in shared :: VotedFor(cfg, trace[j], m, p) && VotedFor(cfg, trace[j], m, q)
  {
    hide Next, Carried, VerifiesQuorum, VotedFor;
    CertificatesAreQuorums(cfg, trace, steps, i, p);
    CertificatesAreQuorums(cfg, trace, steps, j, q);
    SignersAreNodes(cfg, trace, steps, i, p);
    SignersAreNodes(cfg, trace, steps, j, q);
    SignerSetSize(p.signers);
    SignerSetSize(q.signers);
    QuorumsIntersect(cfg.N(), SignerSet(p.signers), SignerSet(q.signers));
    forall m | m in p.signers ensures VotedFor(cfg, trace[j], m, p) {
      StillVotedFor(cfg, trace, steps, i, j, m, p);
    }
  }

  lemma SignersAreNodes(cfg: Config, trace: seq<System>, steps: seq<Step>, i: nat, qc: QC)
    requires IsRun(cfg, trace, steps) && i < |trace| && Carried(trace[i], qc) && !Bootstrap(qc)
    ensures forall m | m in SignerSet(qc.signers) :: 1 <= m <= cfg.N()
  {
    hide Next, Carried, VerifiesQuorum, GoodPool;
    CarriedIsGood(cfg, trace, steps, i, qc);
  }

  /** A certificate, the certificate in the block it certifies, and so on, are all certified, down to
      the views in which the voting rule does not look at the parent. With MTchs each lies at least two
      Seqs below the one before. */
  ghost predicate CertifiedDown(cfg: Config, k: Pool, qc: QC)
    decreases qc.blockID
  {
    && Certified(cfg, k, qc)
    && (qc.seqNo > FirstChecked(cfg) ==>
          && (cfg.protocol.MTchs? ==> qc.blockID.qc.seqNo + 2 <= qc.seqNo)
          && CertifiedDown(cfg, k, qc.blockID.qc))
  }

  lemma {:induction false} CertifiedChain(cfg: Config, k: Pool, qc: QC)
    requires GoodPool(cfg, k) && Certified(cfg, k, qc)
    ensures CertifiedDown(cfg, k, qc)
    decreases qc.blockID
  {
    hide GoodBlock, GoodTmo, OneBlockPerView, VerifiesQuorum;
    if qc.seqNo > FirstChecked(cfg) {
      assert GoodVote(cfg, k, SignersVote(qc, qc.signers[0]));
      CertifiedChain(cfg, k, qc.blockID.qc);
    }
  }

  /** Every certificate of a run that is not a bootstrap one heads such a chain of certificates. */
  lemma CertificatesChain(cfg: Config, trace: seq<System>, steps: seq<Step>, i: nat, qc: QC)
    requires IsRun(cfg, trace, steps) && i < |trace| && Carried(trace[i], qc) && !Bootstrap(qc)
    ensures CertifiedDown(cfg, trace[i].pool, qc)
  {
    hide Next, Carried, GoodPool, Certified, CertifiedDown;
    CarriedIsGood(cfg, trace, steps, i, qc);
    CertifiedChain(cfg, trace[i].pool, qc);
  }

  // ---------- views, sequence numbers and timeouts ----------

  /** View and Seq in lockstep: in the pacemaker, in every proposal, certificate and timeout. */
  lemma Lockstep(cfg: Config, trace: seq<System>, steps: seq<Step>, i: nat, m: nat)
    requires IsRun(cfg, trace, steps) && i < |trace| && m < |trace[i].replicas|
    ensures var p := trace[i].replicas[m].pace; p.curSeq == if p.curView == 0 then 0 else p.curView + 1
    ensures forall b | b in trace[i].pool.blocks :: b.seqNo == b.view + 1
    ensures forall qc | Carried(trace[i], qc) :: qc.view == qc.seqNo
    ensures forall t, u | t in trace[i].pool.tmos && u in trace[i].pool.tmos && t.view == u.view ::
              t.fSeq == u.fSeq && t.sSeq == u.sSeq == t.fSeq + 1
  {
    hide Next, GoodQC, GoodTCs, GoodTimeouts, GoodVotes, GoodPair, GoodLocks, GoodStore, GoodReports, GoodBuffers,
      GoodSent, OneBlockPerView, GoodVote, Carried;
    NodeInRun(cfg, trace, steps, i, m);
    forall b | b in trace[i].pool.blocks ensures b.seqNo == b.view + 1 {
      assert GoodBlock(cfg, trace[i].pool, b);
    }
    forall qc | Carried(trace[i], qc) ensures qc.view == qc.seqNo {
      CarriedIsGood(cfg, trace, steps, i, qc);
      GoodQCFacts(cfg, trace[i].pool, qc);
    }
    forall t, u | t in trace[i].pool.tmos && u in trace[i].pool.tmos && t.view == u.view
      ensures t.fSeq == u.fSeq && t.sSeq == u.sSeq == t.fSeq + 1
    {
      assert GoodTmo(cfg, trace[i].pool, t) && GoodTmo(cfg, trace[i].pool, u);
    }
  }

  /** Whichever timeout of a view completes it, the pair of certificates built is the same, for two
      consecutive views whose View is their Seq. */
  lemma TCPairFixed(cfg: Config, trace: seq<System>, steps: seq<Step>, i: nat, p: Pace, t: TMO, q: Pace, u: TMO)
    requires IsRun(cfg, trace, steps) && i < |trace|
    requires t in trace[i].pool.tmos && u in trace[i].pool.tmos && t.view == u.view
    requires BuiltTCs(cfg.N(), p, t).Some? && BuiltTCs(cfg.N(), q, u).Some?
    ensures BuiltTCs(cfg.N(), p, t) == BuiltTCs(cfg.N(), q, u)
    ensures var (f, s) := BuiltTCs(cfg.N(), p, t).value;
            f.view == f.seqNo && s.view == s.seqNo == f.view + 1
  {
    hide Next, GoodReplica, GoodBlock, GoodVote, GoodQC, OneBlockPerView, OwnBlocks, VotesCast, KeepTmo;
    RunGood(cfg, trace, steps, i);
    assert GoodTmo(cfg, trace[i].pool, t) && GoodTmo(cfg, trace[i].pool, u);
  }

  /** Timeout certificates kept by a replica or sent in a block come as pairs for consecutive views, and
      a quorum of distinct nodes timed out in the first. */
  lemma TCsAreQuorums(cfg: Config, trace: seq<System>, steps: seq<Step>, i: nat, m: nat)
    requires IsRun(cfg, trace, steps) && i < |trace| && m < |trace[i].replicas|
    ensures var r := trace[i].replicas[m]; GoodPair(cfg, trace[i].pool, r.secHighTC, r.highTC)
    ensures forall b | b in trace[i].pool.blocks && b.tc.Some? ::
              && |b.tcs| == 2 && b.tcs[0].Some? && GoodPair(cfg, trace[i].pool, b.tcs[0], b.tcs[1])
              && (b.tc == b.tcs[0] || b.tc == b.tcs[1])
  {
    hide Next, GoodQC, GoodTimeouts, GoodVotes, GoodPair, GoodLocks, GoodStore, GoodReports, GoodBuffers,
      GoodSent, OneBlockPerView, GoodVote, GoodTmo, GoodViews;
    NodeInRun(cfg, trace, steps, i, m);
    forall b | b in trace[i].pool.blocks ensures GoodTCs(cfg, trace[i].pool, b) {
      assert GoodBlock(cfg, trace[i].pool, b);
    }
  }

  // ---------- locks and proposals ----------

  /** Along a run, no replica takes back a vote or a report, and no view, lock or highest certificate falls. */
  lemma {:induction false} NeverBack(cfg: Config, trace: seq<System>, steps: seq<Step>, i: nat, j: nat, m: nat)
    requires IsRun(cfg, trace, steps) && i <= j < |trace| && m < cfg.N()
    ensures |trace[i].replicas| == |trace[j].replicas| == cfg.N()
    ensures NotBack(trace[i].replicas[m], trace[j].replicas[m])
    decreases j
  {
    hide GoodPool, GoodNode, Next, VotesCast;
    RunGood(cfg, trace, steps, j);
    if i < j {
      NeverBack(cfg, trace, steps, i, j - 1, m);
      RunGood(cfg, trace, steps, j - 1);
      NextFrame(cfg, trace[j - 1], steps[j - 1], trace[j]);
      NextGood(cfg, trace[j - 1], steps[j - 1], trace[j]);
    }
  }

  /** No stored block is of a higher view than the highest block, which was sent (or is the initial one). */
  lemma HighBlockIsHighest(cfg: Config, trace: seq<System>, steps: seq<Step>, i: nat, m: nat, id: Identifier)
    requires IsRun(cfg, trace, steps) && i < |trace| && m < |trace[i].replicas|
    ensures var r := trace[i].replicas[m];
            && (r.highBlock == GenesisBlock || r.highBlock in trace[i].pool.blocks)
            && (FindBlock(r, id).Some? ==> FindBlock(r, id).value.view <= r.highBlock.view)
  {
    hide Next, GoodPool, GoodTimeouts, GoodVotes, GoodPair, GoodStore, GoodReports, GoodBuffers, GoodSent, GoodViews,
      GoodLocks, LockBacked;
    NodeInRun(cfg, trace, steps, i, m);
    assert FindBlock(trace[i].replicas[m], id).Some? ==> Full(trace[i].replicas[m].chain.forest, id);
  }

  /** With MHotStuff the lock is 0 or the Seq of the lower of two chained certificates. */
  lemma LockIsTwoChain(cfg: Config, trace: seq<System>, steps: seq<Step>, i: nat, m: nat)
    requires IsRun(cfg, trace, steps) && i < |trace| && m < |trace[i].replicas| && cfg.protocol.MHotStuff?
    ensures var r := trace[i].replicas[m];
            r.preferredSeq == 0 || exists qc :: TwoChain(cfg, trace[i].pool, qc, r.preferredSeq)
  {
    hide Next, GoodPool, GoodTimeouts, GoodVotes, GoodPair, GoodStore, GoodReports, GoodBuffers, GoodSent, GoodViews,
      GoodLocks, TwoChain, GoodHighBlock;
    NodeInRun(cfg, trace, steps, i, m);
  }

  /** With MHotStuff the lock reaches the certificate inside the block that the highest certificate, or any
      that ever was the highest, certifies: it moves with every certificate of Seq 4 or more. */
  lemma LockReachesTwoChain(cfg: Config, trace: seq<System>, steps: seq<Step>, i: nat, j: nat, m: nat)
    requires IsRun(cfg, trace, steps) && i <= j < |trace| && m < |trace[i].replicas| && cfg.protocol.MHotStuff?
    requires trace[i].replicas[m].highQC.seqNo >= 4
    ensures m < |trace[j].replicas|
    ensures var qc := trace[i].replicas[m].highQC;
            qc.blockID.BlockHash? && trace[j].replicas[m].preferredSeq >= qc.blockID.qc.seqNo
  {
    hide Next, GoodPool, GoodTimeouts, GoodVotes, GoodPair, GoodStore, GoodReports, GoodBuffers, GoodSent, GoodViews,
      TwoChain, GoodHighBlock, GoodQC;
    NodeInRun(cfg, trace, steps, i, m);
    NeverBack(cfg, trace, steps, i, j, m);
  }

  /** With MTchs the locks are the Seqs of the two highest certificates, of two different views already
      left; 0 stands for the bootstrap certificates. */
  lemma LocksAreCertificates(cfg: Config, trace: seq<System>, steps: seq<Step>, i: nat, m: nat)
    requires IsRun(cfg, trace, steps) && i < |trace| && m < |trace[i].replicas|
    ensures var r := trace[i].replicas[m];
            && (r.pace.curView > 0 ==> r.highQC.view < r.pace.curView)
            && (r.secHighQC.view < r.highQC.view || r.highQC.view == 0)
            && (cfg.protocol.MTchs? ==>
                  && r.preferredSeq == (if Bootstrap(r.highQC) then 0 else r.highQC.seqNo)
                  && r.secPreferredSeq == (if Bootstrap(r.secHighQC) then 0 else r.secHighQC.seqNo))
  {
    hide Next, GoodPool, GoodTimeouts, GoodVotes, GoodPair, GoodStore, GoodReports, GoodBuffers, GoodSent, GoodViews;
    NodeInRun(cfg, trace, steps, i, m);
  }

  /** A certificate that is accepted is newer than the highest one before, which becomes the second. */
  lemma AcceptedCertificate(cfg: Config, trace: seq<System>, steps: seq<Step>, i: nat, m: nat, qc: QC)
    requires IsRun(cfg, trace, steps) && i < |trace| && m < |trace[i].replicas| && Carried(trace[i], qc)
    ensures var r := trace[i].replicas[m]; var s := ProcessCertificate(cfg, r, qc);
            && (s.highQC != r.highQC ==> s.highQC == qc && qc.view > r.highQC.view && s.secHighQC == r.highQC)
            && (s.highQC == r.highQC ==> s.secHighQC == r.secHighQC)
            && (r.pace.curView > 0 && s.pace.curView > r.pace.curView ==> s.highQC == qc)
  {
    hide Next, GoodPool, GoodTimeouts, GoodVotes, GoodPair, GoodStore, GoodReports, GoodBuffers, GoodSent,
      GoodQC, GoodViews, HashLinked, GetBlock, EnterView, UpdatePreferredSeq, VerifiesQuorum, Carried;
    NodeInRun(cfg, trace, steps, i, m);
    CarriedIsGood(cfg, trace, steps, i, qc);
    CertificateEffect(cfg, trace[i].pool, trace[i].replicas[m], qc);
    LockFrame(cfg, trace[i].replicas[m], qc);
  }

  /** With MTchs, what a replica would propose for the next announced view passes its own voting rule,
      under the vote type of that proposal and the locks it holds, exactly if the view is one of the
      first two or the block that the proposal's QC names is still stored. */
  lemma ProposalPassesIff(cfg: Config, trace: seq<System>, steps: seq<Step>, i: nat, m: nat, payload: seq<string>)
    requires IsRun(cfg, trace, steps) && i < |trace| && m < |trace[i].replicas| && cfg.protocol.MTchs?
    requires trace[i].replicas[m].pace.newViews != []
    ensures var r := trace[i].replicas[m]; var nv := r.pace.newViews[0];
            var b := MakeProposal(r, nv, payload);
            VotingRule(cfg, r.chain.forest, ContextOf(r).(voteType := nv.proposeType), b) <==>
            nv.view < 3 || FindBlock(r, b.qc.blockID).Some?
  {
    hide Next, GoodPool, GoodTimeouts, GoodVotes, GoodPair, GoodReports, GoodBuffers, GoodSent, Certified;
    NodeInRun(cfg, trace, steps, i, m);
    var k, r := trace[i].pool, trace[i].replicas[m];
    GoodQCFacts(cfg, k, r.highQC);
    GoodQCFacts(cfg, k, r.secHighQC);
    var qc := MakeProposal(r, r.pace.newViews[0], payload).qc;
    if FindBlock(r, qc.blockID).Some? {
      assert Full(r.chain.forest, qc.blockID);
    }
  }

  // ---------- commits and failures ----------

  /** Every commit is backed by certificates: the trigger's QC, two Seqs below it, certifies a block whose
      QC certifies the target, with MTchs; one certified block more, with MHotStuff. */
  lemma CommitsAreCertified(cfg: Config, trace: seq<System>, steps: seq<Step>, i: nat, m: nat, n: nat)
    requires IsRun(cfg, trace, steps) && i < |trace| && m < |trace[i].replicas|
    requires n < |trace[i].replicas[m].reports|
    ensures var rep := trace[i].replicas[m].reports[n];
            Evidence(cfg, trace[i].pool, rep) && rep.trigger in trace[i].pool.blocks
  {
    hide Next, GoodPool, GoodTimeouts, GoodVotes, GoodPair, GoodBuffers, GoodSent, GoodViews, GoodQC, GoodLocks,
      GoodStore, Evidence;
    NodeInRun(cfg, trace, steps, i, m);
    assert GoodReport(cfg, trace[i].pool, trace[i].replicas[m].reports[n]);
  }

  /** In every reachable state, processing any block that was sent is defined, its recursion over the
      buffered blocks included, and fails exactly if that block, or one buffered behind it, triggers a
      commit whose pruning walk gets stuck in the forest the replica then holds. No timeout that was
      sent makes its receiver fail. */
  lemma OnlyPruningFails(cfg: Config, trace: seq<System>, steps: seq<Step>, i: nat, m: nat, b: Block)
    requires IsRun(cfg, trace, steps) && i < |trace| && m < |trace[i].replicas| && b in trace[i].pool.blocks
    ensures Sound(trace[i].replicas[m]) && Hashed(b)
    ensures ProcessBlock(cfg, trace[i].replicas[m], b).None? <==> PruneFails(cfg, trace[i].replicas[m], b)
    ensures forall t | t in trace[i].pool.tmos :: !CertificateFails(trace[i].replicas[m], t.highQC)
  {
    hide Next, GoodPool, GoodReplica, OwnBlocks, VotesCast, ProcessBlock, PruneFails, CertificateFails;
    RunGood(cfg, trace, steps, i);
    var k, r := trace[i].pool, trace[i].replicas[m];
    assert GoodNode(cfg, k, r);
    GoodIsSound(cfg, k, r);
    SeqOfID(cfg, k, b);
    ProcessBlockGood(cfg, k, r, b);
    forall t | t in k.tmos ensures !CertificateFails(r, t.highQC) {
      TimeoutNeverFails(cfg, k, r, t);
    }
  }

  lemma TimeoutNeverFails(cfg: Config, k: Pool, r: Replica, t: TMO)
    requires GoodPool(cfg, k) && t in k.tmos
    ensures !CertificateFails(r, t.highQC)
  {
    hide CertificateFails, GoodBlock, GoodVote, GoodQC, OneBlockPerView;
    assert GoodTmo(cfg, k, t);
    GoodNeverFails(cfg, k, r, t.highQC);
  }
}
