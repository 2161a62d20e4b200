/** Every handler keeps the invariant of its replica, and never leaves a view or a certificate behind. */
module Handlers {
  import opened Types
  import opened Collections
  import opened ForestModel
  import opened ChainModel
  import opened Quorums
  import opened Pacemakers
  import opened ReplicaModel
  import opened Invariants

  // ---------- progress ----------

  /** The view does not fall, and newly announced views are above the old one. */
  ghost predicate Later(p: Pace, q: Pace) {
    && p.curView <= q.curView && p.newViews <= q.newViews
    && forall i | |p.newViews| <= i < |q.newViews| :: q.newViews[i].view > p.curView
  }

  ghost predicate Advances(r: Replica, s: Replica) {
    && s.id == r.id && Later(r.pace, s.pace) && s.highQC.view >= r.highQC.view
    && r.sentVotes <= s.sentVotes && r.reports <= s.reports && r.preferredSeq <= s.preferredSeq
  }

  lemma AdvancesTrans(r: Replica, s: Replica, t: Replica)
    requires Advances(r, s) && Advances(s, t)
    ensures Advances(r, t)
  {
    forall i | |r.pace.newViews| <= i < |t.pace.newViews| ensures t.pace.newViews[i].view > r.pace.curView {
      if i < |s.pace.newViews| {
        assert t.pace.newViews[i] == s.pace.newViews[i];
      }
    }
  }

  lemma OwnBlocksKept(k: Pool, r: Replica, s: Replica)
    requires OwnBlocks(k, r.id, r.pace, r.highQC) && Advances(r, s)
    ensures OwnBlocks(k, s.id, s.pace, s.highQC)
  {
    forall b | b in k.blocks && b.proposer == s.id
      ensures b.view <= s.pace.curView && b.qc.view <= s.highQC.view
      ensures forall i | 0 <= i < |s.pace.newViews| :: b.view < s.pace.newViews[i].view
    {
      forall i | 0 <= i < |s.pace.newViews| ensures b.view < s.pace.newViews[i].view {
        if i < |r.pace.newViews| {
          assert s.pace.newViews[i] == r.pace.newViews[i];
        }
      }
    }
  }

  lemma EnterViewGood(p: Pace, view: View, pt: ProposeType)
    requires GoodViews(p)
    ensures var q := EnterView(p, view, view, pt);
            && GoodViews(q) && Later(p, q) && q.timeouts == p.timeouts
            && q.curView == if view < p.curView then p.curView else view + 1
  {
  }

  // ---------- certificates ----------

  /** A good certificate is ignored if its view was left; otherwise it becomes the highest, the former
      highest becomes the second, and its view is left; or it is kept until its block arrives. */
  lemma CertificateEffect(cfg: Config, k: Pool, r: Replica, qc: QC)
    requires GoodReplica(cfg, k, r) && GoodQC(cfg, k, qc)
    ensures var s := ProcessCertificate(cfg, r, qc);
            && (qc.view < r.pace.curView ==> s == r)
            && (qc.view >= r.pace.curView && UpdatePreferredSeq(cfg, r, qc).Some? ==>
                  && s.pace == EnterView(r.pace, qc.view, qc.view, NoTimeout)
                  && s.bufferedQCs == r.bufferedQCs
                  && (r.pace.curView > 0 ==> s.highQC == qc && s.secHighQC == r.highQC))
            && (qc.view >= r.pace.curView && UpdatePreferredSeq(cfg, r, qc).None? ==>
                  s == r.(bufferedQCs := r.bufferedQCs[qc.blockID := qc]))
  {
    hide EnterView, GoodTimeouts, GoodStore, GoodVotes, GoodBuffers, GoodPair, GoodReports, GoodSent, GoodViews,
      HashLinked, GetBlock;
    GoodQCFacts(cfg, k, qc);
  }

  /** Fields a certificate never touches. */
  predicate SameBesidesCertificate(r: Replica, s: Replica) {
    && s.id == r.id && s.chain == r.chain && s.bufferedBlocks == r.bufferedBlocks && s.waiting == r.waiting
    && s.highTC == r.highTC && s.secHighTC == r.secHighTC && s.sentVotes == r.sentVotes && s.reports == r.reports
    && s.lastVotedSeq == r.lastVotedSeq && s.pace.timeouts == r.pace.timeouts
  }

  lemma CertificateFrame(cfg: Config, r: Replica, qc: QC)
    ensures SameBesidesCertificate(r, ProcessCertificate(cfg, r, qc))
  {
    hide VerifiesQuorum, EnterView, UpdatePreferredSeq;
    EnterViewFrame(r.pace, qc.view, qc.seqNo, NoTimeout);
    LockFrame(cfg, r, qc);
  }

  lemma LockFrame(cfg: Config, r: Replica, qc: QC)
    ensures var s := UpdatePreferredSeq(cfg, r, qc);
            s.Some? ==> s.value == r.(preferredSeq := s.value.preferredSeq, secPreferredSeq := s.value.secPreferredSeq)
  {
    hide GetBlock;
  }

  lemma EnterViewFrame(p: Pace, view: View, seqNo: Seq, pt: ProposeType)
    ensures EnterView(p, view, seqNo, pt).timeouts == p.timeouts
  {
  }

  /** Accepting a certificate moves the locks along with the two highest certificates. */
  lemma AcceptedLocks(cfg: Config, k: Pool, r: Replica, qc: QC)
    requires GoodQC(cfg, k, qc) && GoodQC(cfg, k, r.highQC) && GoodQC(cfg, k, r.secHighQC)
    requires GoodLocks(cfg, r.pace.curView, r.highQC, r.secHighQC, r.preferredSeq, r.secPreferredSeq)
    requires GoodStore(k, r.chain.forest) && GoodPool(cfg, k)
    requires qc.view >= r.pace.curView && UpdatePreferredSeq(cfg, r, qc).Some?
    ensures var s := UpdateHighQC(UpdatePreferredSeq(cfg, r, qc).value, qc);
            && GoodLocks(cfg, qc.view + 1, s.highQC, s.secHighQC, s.preferredSeq, s.secPreferredSeq)
            && GoodQC(cfg, k, s.highQC) && GoodQC(cfg, k, s.secHighQC) && s.highQC.view >= r.highQC.view
  {
    hide GetBlock, GoodQC, GoodStore, GoodPool;
    GoodQCFacts(cfg, k, qc);
    GoodQCFacts(cfg, k, r.highQC);
    GoodQCFacts(cfg, k, r.secHighQC);
    if cfg.protocol.MHotStuff? && qc.seqNo >= 4 { LinkedSeqs(cfg, k, r.chain.forest, qc); }
  }

  /** The block a certificate certifies, once stored, carries the certificate in its hash, and so on. */
  lemma LinkedSeqs(cfg: Config, k: Pool, f: Forest, qc: QC)
    requires GoodStore(k, f) && GoodPool(cfg, k) && GoodQC(cfg, k, qc) && GetBlock(f, qc.blockID).Some?
    ensures qc.blockID.BlockHash? && GetBlock(f, qc.blockID).value.qc == qc.blockID.qc
    ensures var below := GetBlock(f, qc.blockID.qc.blockID);
            below.Some? ==> below.value.seqNo == qc.blockID.qc.seqNo
  {
    hide GetBlock, GoodPool, GoodStore, GoodQC;
    StoredIsGood(cfg, k, f, qc.blockID);
    var below := qc.blockID.qc;
    if GetBlock(f, below.blockID).Some? {
      StoredIsGood(cfg, k, f, below.blockID);
      GoodQCFacts(cfg, k, below);
    }
  }

  /** A certificate moves the lock only up, and with MHotStuff to a Seq two certificates stand for. */
  lemma LockMoves(cfg: Config, k: Pool, r: Replica, qc: QC)
    requires GoodStore(k, r.chain.forest) && GoodPool(cfg, k) && GoodQC(cfg, k, qc)
    requires LockBacked(cfg, k, r.preferredSeq) && UpdatePreferredSeq(cfg, r, qc).Some?
    ensures var s := UpdatePreferredSeq(cfg, r, qc).value;
            LockBacked(cfg, k, s.preferredSeq) && s.preferredSeq >= r.preferredSeq
  {
    hide GetBlock, GoodPool, GoodStore, GoodQC;
    GoodQCFacts(cfg, k, qc);
    if cfg.protocol.MHotStuff? && qc.seqNo >= 4 {
      StoredIsGood(cfg, k, r.chain.forest, qc.blockID);
      var b1 := FindBlock(r, qc.blockID).value;
      StoredIsGood(cfg, k, r.chain.forest, b1.qc.blockID);
      GoodQCFacts(cfg, k, b1.qc);
      assert TwoChain(cfg, k, qc, FindBlock(r, b1.qc.blockID).value.seqNo);
    }
  }

  lemma CertificateGood(cfg: Config, k: Pool, r: Replica, qc: QC)
    requires GoodReplica(cfg, k, r) && GoodPool(cfg, k) && GoodQC(cfg, k, qc)
    ensures var s := ProcessCertificate(cfg, r, qc);
            && GoodReplica(cfg, k, s) && Advances(r, s)
            && SameBesidesCertificate(r, s)
  {
    hide EnterView, GoodTimeouts, GoodStore, GoodVotes, GoodPair, GoodReports, GoodSent, GoodViews,
      GoodLocks, UpdatePreferredSeq, GoodQC, VerifiesQuorum, GoodPool, LockBacked, GoodHighBlock;
    GoodQCFacts(cfg, k, qc);
    if qc.view >= r.pace.curView && UpdatePreferredSeq(cfg, r, qc).Some? {
      AcceptedLocks(cfg, k, r, qc);
      LockMoves(cfg, k, r, qc);
      LockFrame(cfg, r, qc);
    }
    EnterViewGood(r.pace, qc.view, NoTimeout);
    CertificateFrame(cfg, r, qc);
  }

  // ---------- blocks ----------

  lemma GoodTCsFacts(cfg: Config, k: Pool, b: Block)
    requires GoodTCs(cfg, k, b) && b.tc.Some?
    ensures TCsPresent(b) && MaxTC(b) == b.tcs[1].value && GoodPair(cfg, k, b.tcs[0], b.tcs[1])
    ensures MaxTC(b).view == MaxTC(b).seqNo && b.tc.value.view == b.tc.value.seqNo
    ensures b.tc.value.view + 1 == MaxTC(b).view || b.tc.value.view == MaxTC(b).view
  {
  }

  /** s is r in a later view, with another vote type or other timeout certificates. */
  ghost predicate ViewMoved(r: Replica, s: Replica) {
    && s == r.(pace := s.pace, voteType := s.voteType, highTC := s.highTC, secHighTC := s.secHighTC)
    && GoodViews(s.pace) && Later(r.pace, s.pace) && s.pace.timeouts == r.pace.timeouts
  }

  lemma ViewMovedGood(cfg: Config, k: Pool, r: Replica, s: Replica)
    requires GoodReplica(cfg, k, r) && ViewMoved(r, s) && GoodPair(cfg, k, s.secHighTC, s.highTC)
    ensures GoodReplica(cfg, k, s) && Advances(r, s)
  {
    hide GoodTimeouts, GoodStore, GoodVotes, GoodBuffers, GoodReports, GoodSent, GoodViews, GoodQC, GoodPair;
  }

  lemma ViewsAndPair(cfg: Config, k: Pool, r: Replica)
    requires GoodReplica(cfg, k, r)
    ensures GoodViews(r.pace) && GoodPair(cfg, k, r.secHighTC, r.highTC)
  {
  }

  /** Following good timeout certificates never dereferences nil, and the pair kept stays good. */
  lemma FollowGood(cfg: Config, k: Pool, was: View, r: Replica, b: Block)
    requires GoodReplica(cfg, k, r) && GoodTCs(cfg, k, b)
    ensures var s := FollowTC(cfg, was, r, b);
            s.Some? && GoodReplica(cfg, k, s.value) && Advances(r, s.value) && s.value.chain == r.chain
  {
    hide EnterView, GoodReplica, GoodViews, GoodTCs, Advances, Later;
    ViewsAndPair(cfg, k, r);
    if b.tc.Some? {
      GoodTCsFacts(cfg, k, b);
      EnterViewGood(r.pace, b.tc.value.view, TimeoutF);
      EnterViewGood(r.pace, b.tc.value.view, TimeoutS);
    }
    LaterSame(r.pace);
    ViewMovedGood(cfg, k, r, FollowTC(cfg, was, r, b).value);
  }

  lemma LaterSame(p: Pace)
    ensures Later(p, p)
  {
  }

  lemma CollectTCsGood(cfg: Config, k: Pool, r: Replica, b: Block)
    requires GoodReplica(cfg, k, r) && GoodTCs(cfg, k, b)
    ensures var s := CollectTCs(cfg, r, b);
            s.Some? && GoodReplica(cfg, k, s.value) && Advances(r, s.value) && s.value.chain == r.chain
  {
    hide EnterView, GoodReplica, GoodViews, GoodTCs, GoodPair, Advances, Later;
    ViewsAndPair(cfg, k, r);
    if b.tc.Some? {
      GoodTCsFacts(cfg, k, b);
      EnterViewGood(r.pace, MaxTC(b).view, TimeoutS);
    }
    LaterSame(r.pace);
    ViewMovedGood(cfg, k, r, CollectTCs(cfg, r, b).value);
  }

  lemma StoreGood(cfg: Config, k: Pool, r: Replica, b: Block)
    requires GoodReplica(cfg, k, r) && b in k.blocks && Hashed(b)
    ensures var s := StoreBlock(r, b); GoodReplica(cfg, k, s) && Advances(r, s)
  {
    hide AddVertex, GoodTimeouts, GoodVotes, GoodBuffers, GoodReports, GoodSent, GoodViews, GoodQC, GoodPair,
      LockBacked;
    AddKeepsHashLinks(r.chain.forest, b);
    var g := AddVertex(r.chain.forest, VertexOf(b));
    forall id | Full(g, id)
      ensures g.vertices[id].vertex.value.block in k.blocks
      ensures g.vertices[id].vertex.value.block.view <= StoreBlock(r, b).highBlock.view
    {
      AddVertexFull(r.chain.forest, VertexOf(b), id);
      assert Full(r.chain.forest, id) || g.vertices[id].vertex == Some(VertexOf(b));
    }
  }

  lemma HighBlockKept(k: Pool, high: Block, f: Forest, g: Forest)
    requires GoodHighBlock(k, high, f)
    requires forall id | Full(g, id) :: GetBlock(f, id) == GetBlock(g, id)
    ensures GoodHighBlock(k, high, g)
  {
    forall id | Full(g, id) ensures g.vertices[id].vertex.value.block.view <= high.view {
      assert GetBlock(f, id) == GetBlock(g, id) && Full(f, id);
    }
  }

  lemma {:induction false} WalkFromStore(k: Pool, f: Forest, b: Block)
    requires GoodStore(k, f) && b in k.blocks && Hashed(b)
    ensures forall x | x in CommitWalk(f, b) :: x in k.blocks
    decreases b.id
  {
    if b.seqNo > f.lowest {
      WalkStep(f, b);
      var p := GetBlock(f, b.prevID);
      if p.Some? {
        assert Full(f, b.prevID);
        WalkFromStore(k, f, p.value);
      }
    }
  }

  lemma {:induction false} FullBlocksFromStore(k: Pool, f: Forest, ids: seq<Identifier>)
    requires GoodStore(k, f)
    ensures forall x | x in FullBlocks(f, ids) :: x in k.blocks
  {
    if ids == [] {
    } else {
      FullBlocksFromStore(k, f, ids[..|ids| - 1]);
      assert GetVertex(f, ids[|ids| - 1]).Some? ==> Full(f, ids[|ids| - 1]);
    }
  }

  lemma {:induction false} ForkedFromStore(k: Pool, f: Forest, committed: set<nat>, lo: nat, hi: nat)
    requires GoodStore(k, f)
    ensures forall x | x in Forked(f, committed, lo, hi) :: x in k.blocks
    decreases hi
  {
    hide GoodStore;
    if hi > lo {
      ForkedFromStore(k, f, committed, lo, hi - 1);
      FullBlocksFromStore(k, f, AtLevel(f, hi - 1));
    }
  }

  /** What a commit reports was stored, and it stores nothing new. */
  lemma CommitFromStore(k: Pool, c: Chain, id: Identifier, seqNo: Seq)
    requires GoodStore(k, c.forest)
    ensures match CommitBlock(c, id, seqNo)
            case Committed(d, cs, fs) =>
              && GoodStore(k, d.forest)
              && (forall x | x in cs :: x in k.blocks) && (forall x | x in fs :: x in k.blocks)
              && (forall i | Full(d.forest, i) :: GetBlock(c.forest, i) == GetBlock(d.forest, i))
              && (forall i | i in d.votes :: i in c.votes && d.votes[i] == c.votes[i])
            case Refused(d) => d.forest == c.forest && d.votes.Keys <= c.votes.Keys &&
                               forall i | i in d.votes :: d.votes[i] == c.votes[i]
            case _ => true
  {
    hide CommitWalk, Forked, PruneWalk, Listed;
    var f := c.forest;
    if Full(f, id) {
      CommitWalks(f, id);
      var target := GetBlock(f, id).value;
      WalkFromStore(k, f, target);
      if target.seqNo >= f.lowest && PruneWalk(f, target.seqNo, {}).Some? {
        ForkedFromStore(k, f, PruneWalk(f, target.seqNo, {}).value, f.lowest, target.seqNo);
        CutKeepsHashLinks(f, target.seqNo);
        assert forall i | Full(Cut(f, target.seqNo), i) :: Full(f, i);
      }
    }
  }

  lemma StoredIsGood(cfg: Config, k: Pool, f: Forest, id: Identifier)
    requires GoodStore(k, f) && GoodPool(cfg, k) && GetBlock(f, id).Some?
    ensures var b := GetBlock(f, id).value;
            b in k.blocks && b.id == id && GoodQC(cfg, k, b.qc) && id == IDOf(b)
  {
    hide GoodQC, GoodVote, GoodTmo, GoodTCs;
    assert Full(f, id);
    assert GoodBlock(cfg, k, GetBlock(f, id).value);
  }

  /** A certified block of View 3 or later carries a QC at least two Seqs below its own (MTchs). */
  lemma CertifiedAboveItsQC(cfg: Config, k: Pool, qc: QC)
    requires GoodPool(cfg, k) && Certified(cfg, k, qc) && cfg.protocol.MTchs? && qc.seqNo >= 4
    ensures qc.blockID.qc.view + 2 <= qc.seqNo
  {
    hide GoodBlock, GoodTmo, OneBlockPerView, VerifiesQuorum;
    var s := qc.signers[0];
    assert GoodVote(cfg, k, SignersVote(qc, s));
  }

  /** Whatever the commit rule picks is backed by the certificates it followed. */
  lemma CommitEvidence(cfg: Config, k: Pool, f: Forest, b: Block)
    requires GoodPool(cfg, k) && GoodStore(k, f) && b in k.blocks
    requires CommitGuard(cfg, b) && CommitTarget(cfg, f, b.qc).Some?
    ensures var target := CommitTarget(cfg, f, b.qc).value;
            && target in k.blocks && GetBlock(f, target.id) == Some(target)
            && forall cs, fs :: Evidence(cfg, k, Report(b, target, cs, fs))
  {
    hide GoodStore, GoodQC, GetBlock, GoodVote, GoodTmo, GoodTCs, VerifiesQuorum;
    assert GoodBlock(cfg, k, b);
    StoredIsGood(cfg, k, f, b.qc.blockID);
    var b1 := GetBlock(f, b.qc.blockID).value;
    StoredIsGood(cfg, k, f, b1.qc.blockID);
    GoodQCFacts(cfg, k, b.qc);
    GoodQCFacts(cfg, k, b1.qc);
    if cfg.protocol.MTchs? {
      CertifiedAboveItsQC(cfg, k, b.qc);
    } else {
      var b0 := GetBlock(f, b1.qc.blockID).value;
      StoredIsGood(cfg, k, f, b0.qc.blockID);
      GoodQCFacts(cfg, k, b0.qc);
    }
  }

  /** Committing what b triggers makes the pruning walk meet a level without a full first container,
      or go round in circles. */
  ghost predicate PruneStuck(cfg: Config, f: Forest, b: Block) {
    && CommitGuard(cfg, b)
    && var target := CommitTarget(cfg, f, b.qc);
       target.Some? && target.value.seqNo >= f.lowest && PruneWalk(f, target.value.seqNo, {}).None?
  }

  lemma GoodStoreLinked(k: Pool, f: Forest)
    requires GoodStore(k, f)
    ensures HashLinked(f)
  {
  }

  lemma StuckIff(c: Chain, target: Block, seqNo: Seq)
    requires HashLinked(c.forest) && GetBlock(c.forest, target.id) == Some(target)
    ensures CommitBlock(c, target.id, seqNo).Stuck? <==>
            target.seqNo >= c.forest.lowest && PruneWalk(c.forest, target.seqNo, {}).None?
    ensures !CommitBlock(c, target.id, seqNo).NotFound?
  {
    hide HashLinked, CommitWalk, Traverse;
    CommitWalks(c.forest, target.id);
  }

  lemma CommitStepGood(cfg: Config, k: Pool, r: Replica, b: Block)
    requires GoodReplica(cfg, k, r) && GoodPool(cfg, k) && b in k.blocks
    ensures CommitStep(cfg, r, b).Panic? <==> PruneStuck(cfg, r.chain.forest, b)
    ensures var f := CommitStep(cfg, r, b);
            !f.Panic? ==>
              && GoodReplica(cfg, k, f.r) && Advances(r, f.r)
              && (forall id | Full(f.r.chain.forest, id) ::
                    GetBlock(r.chain.forest, id) == GetBlock(f.r.chain.forest, id))
  {
    hide CommitBlock, GoodTimeouts, GoodBuffers, GoodSent, GoodViews, GoodQC, GoodPair, GoodLocks, GoodPool,
      CommitTarget, CommitGuard, GetBlock, GoodStore, Evidence, LockBacked, GoodHighBlock;
    if CommitGuard(cfg, b) {
      match CommitTarget(cfg, r.chain.forest, b.qc)
      case None =>
      case Some(target) =>
        CommitEvidence(cfg, k, r.chain.forest, b);
        GoodStoreLinked(k, r.chain.forest);
        StuckIff(r.chain, target, r.pace.curSeq);
        CommitFromStore(k, r.chain, target.id, r.pace.curSeq);
        if CommitBlock(r.chain, target.id, r.pace.curSeq).Committed? {
          HighBlockKept(k, r.highBlock, r.chain.forest, CommitBlock(r.chain, target.id, r.pace.curSeq).chain.forest);
        }
    }
  }

  lemma BufferedQCGood(cfg: Config, k: Pool, r: Replica, b: Block)
    requires GoodReplica(cfg, k, r) && GoodPool(cfg, k)
    ensures var s := UseBufferedQC(cfg, r, b);
            GoodReplica(cfg, k, s) && Advances(r, s) && s.chain == r.chain
  {
    hide ProcessCertificate, GoodTimeouts, GoodStore, GoodVotes, GoodSent, GoodViews, GoodQC, GoodPair,
      GoodLocks, GoodReports;
    if b.id in r.bufferedQCs {
      CertificateGood(cfg, k, r, r.bufferedQCs[b.id]);
    }
  }

  /** The signers of a good certificate all have a signature. */
  lemma GoodNeverFails(cfg: Config, k: Pool, r: Replica, qc: QC)
    requires GoodQC(cfg, k, qc)
    ensures !CertificateFails(r, qc)
  {
    GoodQCFacts(cfg, k, qc);
  }

  lemma BufferedNeverFails(cfg: Config, k: Pool, r: Replica, b: Block)
    requires GoodReplica(cfg, k, r) && b.id in r.bufferedQCs
    ensures !CertificateFails(r, r.bufferedQCs[b.id])
  {
    hide GoodTimeouts, GoodStore, GoodVotes, GoodSent, GoodViews, GoodQC, GoodPair, GoodLocks, GoodReports,
      CertificateFails;
    GoodNeverFails(cfg, k, r, r.bufferedQCs[b.id]);
  }

  /** The QC of a block is of an earlier view, or the block it certifies is not stored. */
  ghost predicate QCBehind(r: Replica, b: Block) {
    b.qc.view < b.view || GetBlock(r.chain.forest, b.qc.blockID).None?
  }

  /** A parent that is stored is certified by the block's QC, and has its Seq. */
  lemma ParentCertified(cfg: Config, k: Pool, f: Forest, b: Block)
    requires GoodStore(k, f) && GoodBlock(cfg, k, b) && GetBlock(f, b.qc.blockID).Some?
    ensures Certified(cfg, k, b.qc) && GetBlock(f, b.qc.blockID).value.seqNo == b.qc.seqNo
  {
    hide GoodTCs;
    assert Full(f, b.qc.blockID);
    GoodQCFacts(cfg, k, b.qc);
  }

  lemma VoteGood(cfg: Config, k: Pool, r: Replica, b: Block, lock: Seq)
    requires GoodReplica(cfg, k, r) && GoodBlock(cfg, k, b) && b in k.blocks
    requires cfg.protocol.MTchs? && b.view >= 3 ==> b.qc.view < b.view
    requires b.view >= FirstChecked(cfg) ==> Certified(cfg, k, b.qc) && lock <= b.qc.seqNo
    ensures GoodReplica(cfg, k, SendVote(r, b, lock)) && Advances(r, SendVote(r, b, lock))
  {
    hide GoodTimeouts, GoodStore, GoodVotes, GoodViews, GoodQC, GoodPair, GoodLocks, GoodReports, GoodBuffers,
      GoodTCs, Certified;
    assert Proposed(k, b.id);
  }

  lemma GoodReplicaStore(cfg: Config, k: Pool, r: Replica)
    requires GoodReplica(cfg, k, r)
    ensures GoodStore(k, r.chain.forest)
  {
  }

  lemma AcceptGood(cfg: Config, k: Pool, r: Replica, b: Block)
    requires GoodReplica(cfg, k, r) && GoodPool(cfg, k) && b in k.blocks
    requires cfg.protocol.MTchs? ==> QCBehind(r, b)
    ensures var f := AcceptBlock(cfg, r, b);
            && (!f.Panic? ==> GoodReplica(cfg, k, f.r) && Advances(r, f.r))
            && (f.Panic? <==> PruneStuck(cfg, AddVertex(r.chain.forest, VertexOf(b)), b))
  {
    hide CertificateFails, CollectTCs, CommitStep, UseBufferedQC, AddVertex, HashLinked, GoodReplica, GoodTCs,
      GoodQC, GoodVote, GoodTmo, OneBlockPerView, Advances, PruneStuck;
    assert GoodBlock(cfg, k, b);
    var s := StoreBlock(r, b);
    StoreGood(cfg, k, r, b);
    CollectTCsGood(cfg, k, s, b);
    var t := CollectTCs(cfg, s, b).value;
    AdvancesTrans(r, s, t);
    CommitStepGood(cfg, k, t, b);
    match CommitStep(cfg, t, b)
    case Panic =>
    case Return(u) => AdvancesTrans(r, t, u);
    case GoOn(u) =>
      AdvancesTrans(r, t, u);
      BufferedQCGood(cfg, k, u, b);
      if b.id in u.bufferedQCs { BufferedNeverFails(cfg, k, u, b); }
      var v := UseBufferedQC(cfg, u, b);
      AdvancesTrans(r, u, v);
      var ctx := ContextOf(if cfg.protocol.MTchs? then s else v);
      if VotingRule(cfg, v.chain.forest, ctx, b) {
        if b.view >= FirstChecked(cfg) {
          AddVertexFull(r.chain.forest, VertexOf(b), b.qc.blockID);
          assert Full(v.chain.forest, b.qc.blockID);
          GoodReplicaStore(cfg, k, v);
          ParentCertified(cfg, k, v.chain.forest, b);
        }
        VoteGood(cfg, k, v, b, Lock(cfg, ctx));
        AdvancesTrans(r, v, SendVote(v, b, Lock(cfg, ctx)));
      }
  }

  // What MTchs knows of a block's QC once the block is not stale.
  lemma QCBehindOrUnknown(cfg: Config, k: Pool, r: Replica, s: Replica, t: Replica, b: Block)
    requires GoodReplica(cfg, k, r) && GoodQC(cfg, k, b.qc) && b in k.blocks && cfg.protocol.MTchs? && b.view >= 1
    requires OwnBlocks(k, r.id, r.pace, r.highQC)
    requires s == if b.proposer != r.id then ProcessCertificate(cfg, r, b.qc) else r
    requires Advances(s, t) && t.chain == r.chain && b.view >= t.pace.curView
    ensures QCBehind(t, b)
  {
    hide GetBlock, GoodStore, GoodTimeouts, GoodVotes, GoodBuffers, GoodPair, GoodReports, GoodSent, GoodViews,
      GoodQC;
    if b.proposer != r.id {
      CertificateEffect(cfg, k, r, b.qc);
      hide ProcessCertificate;
    }
  }

  /** The replica accepts b, and committing what b triggers gets stuck in the forest it then holds. */
  ghost predicate CommitFails(cfg: Config, r: Replica, b: Block) {
    Accepting(cfg, r, b).Some? && PruneStuck(cfg, AddVertex(r.chain.forest, VertexOf(b)), b)
  }

  lemma ProcessOneGood(cfg: Config, k: Pool, r: Replica, b: Block)
    requires GoodReplica(cfg, k, r) && GoodPool(cfg, k) && b in k.blocks
    requires OwnBlocks(k, r.id, r.pace, r.highQC)
    ensures var f := ProcessOne(cfg, r, b);
            && (!f.Panic? ==> GoodReplica(cfg, k, f.r) && Advances(r, f.r))
            && (f.Panic? <==> CommitFails(cfg, r, b))
  {
    hide CertificateFails, FollowTC, AcceptBlock, ProcessCertificate, HashLinked, GoodTCs, GoodQC, GoodVote,
      GoodTmo, OneBlockPerView, OwnBlocks, QCBehind, GoodTimeouts, GoodStore, GoodVotes, GoodViews, GoodPair,
      GoodLocks, GoodReports, GoodSent, PruneStuck;
    assert GoodBlock(cfg, k, b);
    if b.view <= r.pace.curView + 1 {
      GoodNeverFails(cfg, k, r, b.qc);
      CertificateGood(cfg, k, r, b.qc);
      var s := if b.proposer != r.id then ProcessCertificate(cfg, r, b.qc) else r;
      FollowGood(cfg, k, r.pace.curView, s, b);
      var t := FollowTC(cfg, r.pace.curView, s, b).value;
      AdvancesTrans(r, s, t);
      if b.view >= t.pace.curView && cfg.rotation.IsLeader(b.proposer, b.view) {
        if cfg.protocol.MTchs? {
          QCBehindOrUnknown(cfg, k, r, s, t, b);
        }
        AcceptGood(cfg, k, t, b);
        var f := AcceptBlock(cfg, t, b);
        if !f.Panic? {
          AdvancesTrans(r, t, f.r);
        }
      }
    }
  }

  lemma GoodIsSound(cfg: Config, k: Pool, r: Replica)
    requires GoodReplica(cfg, k, r) && GoodPool(cfg, k)
    ensures Sound(r)
  {
    hide GoodTimeouts, GoodVotes, GoodViews, GoodPair, GoodLocks, GoodReports, GoodSent, GoodQC, GoodTCs,
      GoodVote, GoodTmo;
    forall v | v in r.bufferedBlocks ensures Hashed(r.bufferedBlocks[v]) {
      assert GoodBlock(cfg, k, r.bufferedBlocks[v]);
    }
  }

  lemma BufferedBlockDropped(cfg: Config, k: Pool, r: Replica, v: View)
    requires GoodReplica(cfg, k, r)
    ensures var s := r.(bufferedBlocks := r.bufferedBlocks - {v}); GoodReplica(cfg, k, s) && Advances(r, s)
  {
  }

  /** The replica accepts b, or a block buffered behind the ones it votes for, and committing what that
      block triggers gets stuck in the forest the replica then holds. */
  ghost predicate PruneFails(cfg: Config, r: Replica, b: Block)
    requires OneViewAhead(r.bufferedBlocks)
    decreases |KeysFrom(r.bufferedBlocks, b.view)|
  {
    hide ProcessOne, KeysFrom, CommitFails;
    var f := ProcessOne(cfg, r, b);
    OneKeepsBuffer(cfg, r, b);
    || CommitFails(cfg, r, b)
    || (f.GoOn? && b.view in f.r.bufferedBlocks &&
        (FewerKeys(r.bufferedBlocks, b.view); PruneFails(cfg, f.r, f.r.bufferedBlocks[b.view])))
  }

  /** Processing a block and those buffered behind it keeps the invariant, and fails exactly there. */
  lemma {:induction false} ProcessBlockGood(cfg: Config, k: Pool, r: Replica, b: Block)
    requires GoodReplica(cfg, k, r) && GoodPool(cfg, k) && b in k.blocks
    requires OneViewAhead(r.bufferedBlocks) && OwnBlocks(k, r.id, r.pace, r.highQC)
    ensures var s := ProcessBlock(cfg, r, b);
            && (s.Some? ==> GoodReplica(cfg, k, s.value) && Advances(r, s.value))
            && (s.None? <==> PruneFails(cfg, r, b))
    decreases |KeysFrom(r.bufferedBlocks, b.view)|
  {
    hide ProcessOne, KeysFrom, GoodPool, GoodReplica, Advances, CommitFails;
    ProcessOneGood(cfg, k, r, b);
    OneKeepsBuffer(cfg, r, b);
    var f := ProcessOne(cfg, r, b);
    if f.GoOn? && b.view in f.r.bufferedBlocks {
      FewerKeys(r.bufferedBlocks, b.view);
      var next := f.r.bufferedBlocks[b.view];
      BufferedInPool(cfg, k, f.r, b.view);
      OwnBlocksKept(k, r, f.r);
      ProcessBlockGood(cfg, k, f.r, next);
      var t := ProcessBlock(cfg, f.r, next);
      if t.Some? {
        AdvancesTrans(r, f.r, t.value);
        BufferedBlockDropped(cfg, k, t.value, b.view);
        AdvancesTrans(r, t.value, t.value.(bufferedBlocks := t.value.bufferedBlocks - {b.view}));
      }
    }
  }

  lemma BufferedInPool(cfg: Config, k: Pool, r: Replica, v: View)
    requires GoodReplica(cfg, k, r) && v in r.bufferedBlocks
    ensures r.bufferedBlocks[v] in k.blocks && r.bufferedBlocks[v].view == v + 1
  {
  }

  // ---------- votes ----------

  lemma AddVoteGood(cfg: Config, k: Pool, votes: Votes, v: Vote)
    requires GoodVotes(cfg, k, votes) && v in k.votes
    ensures GoodVotes(cfg, k, AddVote(cfg.N(), votes, v))
  {
    hide GoodVotesFor;
    if v.view != 0 && !SuperMajority(cfg.N(), votes, v.blockID) {
      PutGood(cfg, k, votes, v);
    }
  }

  lemma PutGood(cfg: Config, k: Pool, votes: Votes, v: Vote)
    requires v.blockID in votes ==> GoodVotesFor(cfg, k, v.blockID, votes[v.blockID])
    requires v in k.votes && v.view != 0 && !SuperMajority(cfg.N(), votes, v.blockID)
    ensures GoodVotesFor(cfg, k, v.blockID, Put(votes, v)[v.blockID])
    ensures |VotesFor(votes, v.blockID)| <= QuorumSize(cfg.N())
  {
    OneMoreVoter(VotesFor(votes, v.blockID), v);
  }

  /** Votes kept for one block are all the vote its signer would cast for a certificate of it. */
  lemma KeptVote(cfg: Config, k: Pool, id: Identifier, byVoter: map<NodeID, Vote>, m: NodeID)
    requires GoodPool(cfg, k) && GoodVotesFor(cfg, k, id, byVoter) && m in byVoter
    ensures CastFor(cfg, k, id, byVoter, m)
  {
    hide GoodBlock, GoodTmo, OneBlockPerView, Certified;
    assert GoodVote(cfg, k, byVoter[m]);
  }

  /** The certificate built from collected votes is good. */
  lemma BuiltQCGood(cfg: Config, k: Pool, r: Replica, v: Vote, qc: QC)
    requires GoodReplica(cfg, k, r) && GoodPool(cfg, k) && v in k.votes
    requires BuildsQC(cfg, r, v) && Certificate(cfg.N(), r.chain.votes, v, qc)
    ensures GoodQC(cfg, k, qc.(leader := r.id))
  {
    hide GoodReplica, GoodPool, GoodVotesFor, VerifiesQuorum, ListsVotes;
    if v.view != 0 {
      var votes, id := r.chain.votes, v.blockID;
      VotesGood(cfg, k, r);
      PutGood(cfg, k, votes, v);
      var kept := Put(votes, v)[id];
      forall m | m in kept ensures CastFor(cfg, k, id, kept, m) {
        KeptVote(cfg, k, id, kept, m);
      }
      assert v.voter in kept && CastFor(cfg, k, id, kept, v.voter);
      SignersListed(kept, qc.signers, qc.aggSig);
      CertificateVerifies(cfg.N(), votes, v, qc);
      SignersCertify(cfg, k, kept, qc);
    }
  }

  /** m's vote among those kept for id is the one a signer of a certificate for id sent. */
  ghost predicate CastFor(cfg: Config, k: Pool, id: Identifier, kept: map<NodeID, Vote>, m: NodeID) {
    && id.BlockHash? && id.seqNo >= 2 && 1 <= m <= cfg.N() && m in kept
    && kept[m] == MakeVote(id.seqNo - 1, id.seqNo, m, id) && kept[m] in k.votes
  }

  lemma SignersListed(m: map<NodeID, Vote>, signers: seq<NodeID>, sigs: seq<Signature>)
    requires ListsVotes(m, signers, sigs)
    ensures forall s | s in signers :: s in m
  {
  }

  lemma SignersCertify(cfg: Config, k: Pool, kept: map<NodeID, Vote>, qc: QC)
    requires forall m | m in kept :: CastFor(cfg, k, qc.blockID, kept, m)
    requires forall s | s in qc.signers :: s in kept
    requires NoDup(qc.signers) && |qc.signers| == QuorumSize(cfg.N()) && qc.view == qc.seqNo
    requires qc.blockID.BlockHash? && qc.seqNo == qc.blockID.seqNo >= 2
    requires VerifiesQuorum(qc.aggSig, qc.blockID, qc.signers)
    ensures forall leader :: Certified(cfg, k, qc.(leader := leader))
  {
  }

  lemma VotesGood(cfg: Config, k: Pool, r: Replica)
    requires GoodReplica(cfg, k, r)
    ensures GoodVotes(cfg, k, r.chain.votes)
  {
  }

  lemma CollectVoteGood(cfg: Config, k: Pool, r: Replica, v: Vote, qc: QC)
    requires GoodReplica(cfg, k, r) && GoodPool(cfg, k) && v in k.votes
    requires BuildsQC(cfg, r, v) ==> Certificate(cfg.N(), r.chain.votes, v, qc)
    ensures var s := CollectVote(cfg, r, v, qc); GoodReplica(cfg, k, s) && Advances(r, s)
  {
    hide AddVote, GoodPool, GoodTimeouts, GoodVotes, GoodSent, GoodViews, GoodPair, GoodLocks, GoodReports, GoodStore,
      GoodQC, Certificate, BuildsQC;
    AddVoteGood(cfg, k, r.chain.votes, v);
    if BuildsQC(cfg, r, v) {
      BuiltQCGood(cfg, k, r, v, qc);
    }
  }

  lemma FinishVoteGood(cfg: Config, k: Pool, r: Replica, proceed: bool)
    requires GoodReplica(cfg, k, r) && GoodPool(cfg, k) && r.waiting.Some?
    ensures var s := FinishVote(cfg, r, proceed); GoodReplica(cfg, k, s) && Advances(r, s)
  {
    hide ProcessCertificate, GoodTimeouts, GoodVotes, GoodSent, GoodViews, GoodPair, GoodLocks, GoodReports,
      GoodStore, GoodQC, GetBlock;
    var s := r.(waiting := None);
    CertificateGood(cfg, k, s, r.waiting.value);
    AdvancesTrans(r, s, ProcessCertificate(cfg, s, r.waiting.value));
  }

  // ---------- timeouts ----------

  lemma KeepTmoGood(cfg: Config, k: Pool, p: Pace, tmo: TMO)
    requires GoodTimeouts(k, p.timeouts) && tmo in k.tmos
    ensures GoodTimeouts(k, ProcessTmo(cfg.N(), p, tmo).timeouts)
  {
  }

  /** The pair built from a quorum of timeouts is good: they all name the same two blocks. */
  lemma BuiltTCsGood(cfg: Config, k: Pool, p: Pace, tmo: TMO)
    requires GoodTimeouts(k, p.timeouts) && GoodPool(cfg, k) && tmo in k.tmos
    requires BuiltTCs(cfg.N(), p, tmo).Some?
    ensures var (f, s) := BuiltTCs(cfg.N(), p, tmo).value;
            f.view == f.seqNo && GoodPair(cfg, k, Some(f), Some(s))
  {
    hide GoodBlock, GoodVote, GoodQC, OneBlockPerView;
    var kept := TimeoutsFor(PutTmo(p.timeouts, tmo), tmo.view);
    assert GoodTmo(cfg, k, tmo);
    forall m | m in kept ensures m in TimedOut(k, tmo.fSeq) {
      assert GoodTmo(cfg, k, kept[m]) && kept[m].nodeID == m;
    }
    SubsetSize(kept.Keys, TimedOut(k, tmo.fSeq));
    MapSize(kept);
  }

  lemma ReceiveTmoGood(cfg: Config, k: Pool, r: Replica, tmo: TMO)
    requires GoodReplica(cfg, k, r) && GoodPool(cfg, k) && tmo in k.tmos
    ensures var s := ReceiveTmo(cfg, r, tmo); GoodReplica(cfg, k, s) && Advances(r, s)
  {
    hide ProcessCertificate, EnterView, GoodTimeouts, GoodVotes, GoodSent, GoodViews, GoodPair, GoodReports,
      GoodStore, GoodQC, GoodBuffers, KeepTmo, CompletesTmo, GoodBlock, GoodVote, OneBlockPerView;
    assert GoodTmo(cfg, k, tmo);
    var s := ProcessCertificate(cfg, r, tmo.highQC);
    CertificateGood(cfg, k, r, tmo.highQC);
    KeepTmoGood(cfg, k, s.pace, tmo);
    var t := s.(pace := ProcessTmo(cfg.N(), s.pace, tmo));
    assert GoodViews(t.pace) by { ProcessTmoViews(cfg.N(), s.pace, tmo); }
    AdvancesTrans(r, s, t);
    match BuiltTCs(cfg.N(), s.pace, tmo)
    case None =>
    case Some((f, _)) =>
      BuiltTCsGood(cfg, k, s.pace, tmo);
      EnterViewGood(t.pace, f.view, TimeoutF);
      AdvancesTrans(r, t, ReceiveTmo(cfg, r, tmo));
  }

  lemma ProcessTmoViews(n: nat, p: Pace, tmo: TMO)
    ensures GoodViews(p) ==> GoodViews(ProcessTmo(n, p, tmo))
  {
  }
}
