/**
 What every reachable state satisfies, relative to the pool of all messages ever sent. The pool only
 grows, and so do these facts.
 */
module Invariants {
  import opened Types
  import opened Collections
  import opened ForestModel
  import opened ChainModel
  import opened Quorums
  import opened Pacemakers
  import opened ReplicaModel

  /** Every block, vote and timeout ever sent. */
  datatype Pool = Pool(blocks: set<Block>, votes: set<Vote>, tmos: set<TMO>)

  predicate Within(k: Pool, l: Pool) {
    k.blocks <= l.blocks && k.votes <= l.votes && k.tmos <= l.tmos
  }

  // ---------- certificates ----------

  predicate Bootstrap(qc: QC) {
    qc.blockID == NoID && qc.signers == [] && qc.aggSig == [] && qc.view == qc.seqNo <= 1
  }

  /** The vote a signer of qc sent: for exactly this block, at its Seq, one view earlier. */
  function SignersVote(qc: QC, s: NodeID): Vote
    requires qc.seqNo >= 1
  {
    MakeVote(qc.seqNo - 1, qc.seqNo, s, qc.blockID)
  }

  /** A quorum of distinct nodes voted for exactly the certified block, whose Seq the certificate has. */
  ghost predicate Certified(cfg: Config, k: Pool, qc: QC) {
    && qc.blockID.BlockHash? && qc.view == qc.seqNo == qc.blockID.seqNo && qc.seqNo >= 2
    && NoDup(qc.signers) && |qc.signers| == QuorumSize(cfg.N())
    && VerifiesQuorum(qc.aggSig, qc.blockID, qc.signers)
    && forall s | s in qc.signers :: 1 <= s <= cfg.N() && SignersVote(qc, s) in k.votes
  }

  ghost predicate GoodQC(cfg: Config, k: Pool, qc: QC) {
    Bootstrap(qc) || Certified(cfg, k, qc)
  }

  lemma GoodQCFacts(cfg: Config, k: Pool, qc: QC)
    requires GoodQC(cfg, k, qc)
    ensures qc.view == qc.seqNo && VerifiesQuorum(qc.aggSig, qc.blockID, qc.signers)
    ensures qc.seqNo >= 2 <==> qc.blockID.BlockHash?
    ensures qc.blockID.BlockHash? ==> qc.blockID.seqNo == qc.seqNo && Certified(cfg, k, qc)
  {
  }

  // ---------- timeouts ----------

  /** The nodes that sent a timeout for the two blocks v and v + 1. */
  function TimedOut(k: Pool, v: Seq): set<NodeID> {
    set t | t in k.tmos && t.fSeq == v :: t.nodeID
  }

  /** Timeout certificates come in pairs for two consecutive views, backed by a quorum of timeouts. */
  ghost predicate GoodPair(cfg: Config, k: Pool, f: Option<TC>, s: Option<TC>) {
    if f.None? || s.None? then f.None? && s.None?
    else
      && f.value.view == f.value.seqNo
      && s.value.view == s.value.seqNo == f.value.view + 1
      && |TimedOut(k, f.value.view)| >= QuorumSize(cfg.N())
  }

  ghost predicate GoodTCs(cfg: Config, k: Pool, b: Block) {
    b.tc.Some? ==>
      && |b.tcs| == 2 && b.tcs[0].Some? && GoodPair(cfg, k, b.tcs[0], b.tcs[1])
      && (b.tc == b.tcs[0] || b.tc == b.tcs[1])
  }

  /** A timeout for view w names the blocks w and w + 1 (0 and 1 before the start). */
  ghost predicate GoodTmo(cfg: Config, k: Pool, t: TMO) {
    && t.view >= 1 && t.fSeq == (if t.view == 1 then 0 else t.view) && t.sSeq == t.fSeq + 1
    && 1 <= t.nodeID <= cfg.N()
    && GoodQC(cfg, k, t.highQC)
  }

  // ---------- the pool ----------

  ghost predicate Proposed(k: Pool, id: Identifier) {
    exists b | b in k.blocks :: b.id == id
  }

  ghost predicate GoodBlock(cfg: Config, k: Pool, b: Block) {
    && Hashed(b) && b.view >= 1 && b.seqNo == b.view + 1
    && 1 <= b.proposer <= cfg.N() && cfg.rotation.IsLeader(b.proposer, b.view)
    && GoodQC(cfg, k, b.qc)
    && GoodTCs(cfg, k, b)
    && (b.prevID == NoID || Proposed(k, b.prevID))
  }

  /** A vote is for a proposed block, with its View and Seq. Once the voting rule looks at the parent,
      the block carries a certificate; one of an earlier view, with MTchs. */
  ghost predicate GoodVote(cfg: Config, k: Pool, v: Vote) {
    && 1 <= v.voter <= cfg.N()
    && if v.view == 0 then v == KickoffVote(v.voter)
       else
         && v == MakeVote(v.view, v.seqNo, v.voter, v.blockID) && v.seqNo == v.view + 1
         && v.blockID.BlockHash? && v.blockID.seqNo == v.seqNo && Proposed(k, v.blockID)
         && (v.view >= FirstChecked(cfg) ==> Certified(cfg, k, v.blockID.qc))
         && (cfg.protocol.MTchs? && v.view >= 3 ==> v.blockID.qc.view < v.view)
  }

  ghost predicate OneBlockPerView(k: Pool) {
    forall a, b | a in k.blocks && b in k.blocks :: a.view == b.view ==> a == b
  }

  ghost predicate GoodPool(cfg: Config, k: Pool) {
    && (forall b | b in k.blocks :: GoodBlock(cfg, k, b))
    && (forall v | v in k.votes :: GoodVote(cfg, k, v))
    && (forall t | t in k.tmos :: GoodTmo(cfg, k, t))
    && OneBlockPerView(k)
  }

  // ---------- one replica ----------

  /** View and Seq move in lockstep, in the pacemaker and in every announced view. */
  ghost predicate GoodViews(p: Pace) {
    && p.curSeq == (if p.curView == 0 then 0 else p.curView + 1)
    && (forall i | 0 <= i < |p.newViews| ::
          1 <= p.newViews[i].view <= p.curView && p.newViews[i].seqNo == p.newViews[i].view + 1)
    && (forall i, j | 0 <= i < j < |p.newViews| :: p.newViews[i].view < p.newViews[j].view)
  }

  ghost predicate GoodTimeouts(k: Pool, ts: Timeouts) {
    forall v, m | v in ts && m in ts[v] :: ts[v][m] in k.tmos && ts[v][m].view == v && ts[v][m].nodeID == m
  }

  ghost predicate GoodStore(k: Pool, f: Forest) {
    HashLinked(f) && forall id | Full(f, id) :: f.vertices[id].vertex.value.block in k.blocks
  }

  /** The highest block was sent, and no stored block is of a higher view. */
  ghost predicate GoodHighBlock(k: Pool, high: Block, f: Forest) {
    && (high == GenesisBlock || high in k.blocks)
    && forall id | Full(f, id) :: f.vertices[id].vertex.value.block.view <= high.view
  }

  ghost predicate GoodVotesFor(cfg: Config, k: Pool, id: Identifier, byVoter: map<NodeID, Vote>) {
    && |byVoter| <= QuorumSize(cfg.N())
    && forall m | m in byVoter ::
         var v := byVoter[m]; v in k.votes && v.voter == m && v.blockID == id && v.view >= 1
  }

  ghost predicate GoodVotes(cfg: Config, k: Pool, votes: Votes) {
    forall id | id in votes :: GoodVotesFor(cfg, k, id, votes[id])
  }

  ghost predicate GoodBuffers(cfg: Config, k: Pool, qcs: map<Identifier, QC>, blocks: map<View, Block>,
                              waiting: Option<QC>) {
    && (forall id | id in qcs :: GoodQC(cfg, k, qcs[id]))
    && (forall v | v in blocks :: blocks[v] in k.blocks && blocks[v].view == v + 1)
    && (waiting.Some? ==> GoodQC(cfg, k, waiting.value))
  }

  function LockOf(qc: QC): Seq {
    if qc.seqNo < 2 then 0 else qc.seqNo
  }

  /** The lock reaches the certificate inside the block that qc certifies. */
  predicate LockCovers(preferred: Seq, qc: QC) {
    qc.seqNo >= 4 ==> qc.blockID.BlockHash? && preferred >= qc.blockID.qc.seqNo
  }

  /** The highest certificate is of a view already left; the second highest is older; the locks of MTchs
      are the Seqs of the two; and the lock of MHotStuff reaches the certificate below the highest. */
  ghost predicate GoodLocks(cfg: Config, curView: View, highQC: QC, secHighQC: QC, preferred: Seq, sec: Seq) {
    && (if curView == 0 then highQC.view == 0 else highQC.view < curView)
    && (secHighQC.view < highQC.view || secHighQC.view == highQC.view == 0)
    && (if cfg.protocol.MTchs? then preferred == LockOf(highQC) && sec == LockOf(secHighQC)
        else LockCovers(preferred, highQC))
  }

  /** qc certifies a block whose own certificate has the given Seq. */
  ghost predicate TwoChain(cfg: Config, k: Pool, qc: QC, seqNo: Seq) {
    Certified(cfg, k, qc) && Certified(cfg, k, qc.blockID.qc) && qc.blockID.qc.seqNo == seqNo
  }

  /** The lock of MHotStuff is the Seq of the lower of two chained certificates. */
  ghost predicate LockBacked(cfg: Config, k: Pool, preferred: Seq) {
    cfg.protocol.MHotStuff? && preferred > 0 ==> exists qc :: TwoChain(cfg, k, qc, preferred)
  }

  /** A commit is backed by a chain of certificates. MTchs: the trigger's QC certifies a block whose QC
      certifies the target; MHotStuff: one certified block more. The trigger lies two Seqs above the
      block its QC certifies, which for MTchs lies at least two above the target. */
  ghost predicate Evidence(cfg: Config, k: Pool, rep: Report) {
    var qc := rep.trigger.qc;
    && Certified(cfg, k, qc) && rep.trigger.seqNo == qc.seqNo + 2
    && var below := qc.blockID.qc;
       && Certified(cfg, k, below)
       && if cfg.protocol.MTchs? then below.blockID == rep.target.id && below.seqNo + 2 <= qc.seqNo
          else below.blockID.qc.blockID == rep.target.id && Certified(cfg, k, below.blockID.qc)
  }

  ghost predicate GoodReport(cfg: Config, k: Pool, rep: Report) {
    && rep.trigger in k.blocks && rep.target in k.blocks
    && (forall b | b in rep.committed :: b in k.blocks)
    && (forall b | b in rep.forked :: b in k.blocks)
    && Evidence(cfg, k, rep)
  }

  ghost predicate GoodReports(cfg: Config, k: Pool, reports: seq<Report>) {
    forall i | 0 <= i < |reports| :: GoodReport(cfg, k, reports[i])
  }

  /** A vote this node sent; the certificate of its block reached the lock held when voting. */
  ghost predicate GoodCast(cfg: Config, k: Pool, id: NodeID, c: Cast) {
    && GoodVote(cfg, k, c.vote) && c.vote.voter == id && c.vote.view >= 1
    && (c.vote.view >= FirstChecked(cfg) ==> c.lock <= c.vote.blockID.qc.seqNo)
  }

  ghost predicate GoodSent(cfg: Config, k: Pool, id: NodeID, sent: seq<Cast>) {
    forall i | 0 <= i < |sent| :: GoodCast(cfg, k, id, sent[i])
  }

  /** The blocks this node proposed are of views it entered, below every view still to be proposed in,
      and carry a QC no newer than its highest. */
  ghost predicate OwnBlocks(k: Pool, id: NodeID, p: Pace, highQC: QC) {
    forall b | b in k.blocks && b.proposer == id ::
      && b.view <= p.curView && b.qc.view <= highQC.view
      && forall i | 0 <= i < |p.newViews| :: b.view < p.newViews[i].view
  }

  ghost predicate GoodReplica(cfg: Config, k: Pool, r: Replica) {
    && 1 <= r.id <= cfg.N() && r.lastVotedSeq == 0
    && GoodViews(r.pace)
    && GoodTimeouts(k, r.pace.timeouts)
    && GoodStore(k, r.chain.forest)
    && GoodHighBlock(k, r.highBlock, r.chain.forest)
    && GoodVotes(cfg, k, r.chain.votes)
    && GoodQC(cfg, k, r.highQC) && GoodQC(cfg, k, r.secHighQC)
    && GoodBuffers(cfg, k, r.bufferedQCs, r.bufferedBlocks, r.waiting)
    && GoodPair(cfg, k, r.secHighTC, r.highTC)
    && GoodLocks(cfg, r.pace.curView, r.highQC, r.secHighQC, r.preferredSeq, r.secPreferredSeq)
    && LockBacked(cfg, k, r.preferredSeq)
    && GoodReports(cfg, k, r.reports)
    && GoodSent(cfg, k, r.id, r.sentVotes)
  }

  // ---------- growth of the pool ----------

  lemma QCGrows(cfg: Config, k: Pool, l: Pool, qc: QC)
    requires Within(k, l) && GoodQC(cfg, k, qc)
    ensures GoodQC(cfg, l, qc)
    ensures Certified(cfg, k, qc) ==> Certified(cfg, l, qc)
  {
  }

  lemma PairGrows(cfg: Config, k: Pool, l: Pool, f: Option<TC>, s: Option<TC>)
    requires Within(k, l) && GoodPair(cfg, k, f, s)
    ensures GoodPair(cfg, l, f, s)
  {
    if f.Some? {
      SubsetSize(TimedOut(k, f.value.view), TimedOut(l, f.value.view));
    }
  }

  lemma ProposedGrows(k: Pool, l: Pool, id: Identifier)
    requires Within(k, l) && Proposed(k, id)
    ensures Proposed(l, id)
  {
    var b :| b in k.blocks && b.id == id;
    assert b in l.blocks;
  }

  lemma BlockGrows(cfg: Config, k: Pool, l: Pool, b: Block)
    requires Within(k, l) && GoodBlock(cfg, k, b)
    ensures GoodBlock(cfg, l, b)
  {
    hide GoodQC, GoodPair, Proposed;
    QCGrows(cfg, k, l, b.qc);
    if Proposed(k, b.prevID) {
      ProposedGrows(k, l, b.prevID);
    }
    if b.tc.Some? {
      PairGrows(cfg, k, l, b.tcs[0], b.tcs[1]);
    }
  }

  lemma VoteGrows(cfg: Config, k: Pool, l: Pool, v: Vote)
    requires Within(k, l) && GoodVote(cfg, k, v)
    ensures GoodVote(cfg, l, v)
  {
    hide Certified, Proposed;
    if v.view != 0 {
      ProposedGrows(k, l, v.blockID);
      if v.view >= FirstChecked(cfg) {
        CertifiedGrows(cfg, k, l, v.blockID.qc);
      }
    }
  }

  lemma ReportGrows(cfg: Config, k: Pool, l: Pool, rep: Report)
    requires Within(k, l) && GoodReport(cfg, k, rep)
    ensures GoodReport(cfg, l, rep)
  {
    hide Certified;
    var qc := rep.trigger.qc;
    CertifiedGrows(cfg, k, l, qc);
    CertifiedGrows(cfg, k, l, qc.blockID.qc);
    if cfg.protocol.MHotStuff? {
      CertifiedGrows(cfg, k, l, qc.blockID.qc.blockID.qc);
    }
  }

  lemma CertifiedGrows(cfg: Config, k: Pool, l: Pool, qc: QC)
    requires Within(k, l) && Certified(cfg, k, qc)
    ensures qc.blockID.BlockHash? && Certified(cfg, l, qc)
  {
  }

  lemma LockGrows(cfg: Config, k: Pool, l: Pool, preferred: Seq)
    requires Within(k, l) && LockBacked(cfg, k, preferred)
    ensures LockBacked(cfg, l, preferred)
  {
    hide Certified;
    if cfg.protocol.MHotStuff? && preferred > 0 {
      var qc :| TwoChain(cfg, k, qc, preferred);
      CertifiedGrows(cfg, k, l, qc);
      CertifiedGrows(cfg, k, l, qc.blockID.qc);
      assert TwoChain(cfg, l, qc, preferred);
    }
  }

  lemma ReplicaGrows(cfg: Config, k: Pool, l: Pool, r: Replica)
    requires Within(k, l) && GoodReplica(cfg, k, r)
    ensures GoodReplica(cfg, l, r)
  {
    hide GoodQC, GoodPair, GoodReport, GoodLocks, GoodViews, HashLinked, GoodVote, LockBacked;
    LockGrows(cfg, k, l, r.preferredSeq);
    forall i | 0 <= i < |r.sentVotes| ensures GoodCast(cfg, l, r.id, r.sentVotes[i]) {
      assert GoodCast(cfg, k, r.id, r.sentVotes[i]);
      VoteGrows(cfg, k, l, r.sentVotes[i].vote);
    }
    QCGrows(cfg, k, l, r.highQC);
    QCGrows(cfg, k, l, r.secHighQC);
    PairGrows(cfg, k, l, r.secHighTC, r.highTC);
    forall id | id in r.bufferedQCs ensures GoodQC(cfg, l, r.bufferedQCs[id]) {
      QCGrows(cfg, k, l, r.bufferedQCs[id]);
    }
    if r.waiting.Some? {
      QCGrows(cfg, k, l, r.waiting.value);
    }
    forall i | 0 <= i < |r.reports| ensures GoodReport(cfg, l, r.reports[i]) {
      ReportGrows(cfg, k, l, r.reports[i]);
    }
  }
}
