/**
 What a replica of a run makes of a certificate or a block it receives, in terms of views, Seqs and the
 IDs it has stored: when it moves on, accepts, commits and votes.
 */
module Decisions {
  import opened Types
  import opened ForestModel
  import opened ChainModel
  import opened Quorums
  import opened Pacemakers
  import opened ReplicaModel
  import opened Invariants
  import opened Handlers
  import opened ReplicaSystem
  import opened Safety

  // ---------- certificates ----------

  /** The ID certified inside the block with this ID. */
  function Below(id: Identifier): Identifier {
    if id.BlockHash? then id.qc.blockID else NoID
  }

  predicate IsStored(f: Forest, id: Identifier) {
    GetBlock(f, id).Some?
  }

  /** The blocks whose Seqs the lock needs are stored. */
  predicate Usable(cfg: Config, f: Forest, qc: QC) {
    match cfg.protocol
    case MTchs => qc.seqNo < 2 || IsStored(f, qc.blockID)
    case MHotStuff => qc.seqNo < 4 || (IsStored(f, qc.blockID) && IsStored(f, Below(qc.blockID)))
  }

  function Max(a: nat, b: nat): nat {
    if a < b then b else a
  }

  lemma LockOutcome(cfg: Config, k: Pool, r: Replica, qc: QC)
    requires GoodReplica(cfg, k, r) && GoodPool(cfg, k) && GoodQC(cfg, k, qc) && qc.view >= r.pace.curView
    ensures UpdatePreferredSeq(cfg, r, qc).Some? <==> Usable(cfg, r.chain.forest, qc)
    ensures var s := UpdatePreferredSeq(cfg, r, qc);
            s.Some? ==>
              && (cfg.protocol.MTchs? ==>
                    (s.value.preferredSeq, s.value.secPreferredSeq) ==
                    if qc.seqNo < 2 then (r.preferredSeq, r.secPreferredSeq) else (qc.seqNo, r.preferredSeq))
              && (cfg.protocol.MHotStuff? ==>
                    && (qc.seqNo >= 4 ==> qc.blockID.BlockHash?)
                    && s.value.preferredSeq ==
                       if qc.seqNo < 4 then r.preferredSeq else Max(r.preferredSeq, qc.blockID.qc.seqNo))
  {
    hide GetBlock, GoodPool, GoodStore, GoodQC, GoodTimeouts, GoodVotes, GoodBuffers, GoodPair, GoodReports, GoodSent,
      LockBacked, GoodHighBlock;
    GoodQCFacts(cfg, k, qc);
    GoodQCFacts(cfg, k, r.highQC);
    if cfg.protocol.MHotStuff? && qc.seqNo >= 4 && FindBlock(r, qc.blockID).Some? {
      LinkedSeqs(cfg, k, r.chain.forest, qc);
    }
  }

  /** What any certificate of a run does to any replica: nothing if its view was left; it waits under its
      block's ID if a block the lock needs is missing; else its view is left and the next announced, it is
      the highest, the former highest the second, and the lock moves to its Seq (MTchs) or up to the Seq
      certified inside its block (MHotStuff). */
  lemma CertificateOutcome(cfg: Config, trace: seq<System>, steps: seq<Step>, i: nat, m: nat, qc: QC)
    requires IsRun(cfg, trace, steps) && i < |trace| && m < |trace[i].replicas| && Carried(trace[i], qc)
    ensures var r := trace[i].replicas[m]; var s := ProcessCertificate(cfg, r, qc);
            if qc.view < r.pace.curView then s == r
            else if !Usable(cfg, r.chain.forest, qc) then s == r.(bufferedQCs := r.bufferedQCs[qc.blockID := qc])
            else
              && s.pace == Pace(qc.view + 1, qc.view + 2,
                                r.pace.newViews + [NewView(qc.view + 1, qc.view + 2, NoTimeout)], r.pace.timeouts)
              && (r.pace.curView > 0 ==> s.highQC == qc && s.secHighQC == r.highQC)
              && (cfg.protocol.MTchs? ==>
                    (s.preferredSeq, s.secPreferredSeq) ==
                    if qc.seqNo < 2 then (r.preferredSeq, r.secPreferredSeq) else (qc.seqNo, r.preferredSeq))
              && (cfg.protocol.MHotStuff? ==>
                    && (qc.seqNo >= 4 ==> qc.blockID.BlockHash?)
                    && s.preferredSeq == if qc.seqNo < 4 then r.preferredSeq
                                         else Max(r.preferredSeq, qc.blockID.qc.seqNo))
              && SameBesidesCertificate(r, s) && s.bufferedQCs == r.bufferedQCs
  {
    hide Next, GoodPool, GoodReplica, GoodQC, Carried, UpdatePreferredSeq, VerifiesQuorum, Usable;
    NodeInRun(cfg, trace, steps, i, m);
    CarriedIsGood(cfg, trace, steps, i, qc);
    var k, r := trace[i].pool, trace[i].replicas[m];
    GoodQCFacts(cfg, k, qc);
    CertificateEffect(cfg, k, r, qc);
    CertificateFrame(cfg, r, qc);
    if qc.view >= r.pace.curView {
      LockOutcome(cfg, k, r, qc);
    }
  }

  // ---------- what no replica acts on ----------

  /** Whatever the state and wherever a message comes from, a certificate another node built changes nothing
      unless every signature at a signer's position is that signer's for its block; nor does another node's
      vote that it did not sign. The signatures of a certificate it built itself do not matter. */
  lemma OnlySignedCounts(cfg: Config, r: Replica, qc: QC, sigs: seq<Signature>, v: Vote, built: QC)
    ensures ProcessCertificate(cfg, r, qc) != r && qc.leader != r.id ==>
              |qc.aggSig| >= |qc.signers| &&
              forall i | 0 <= i < |qc.signers| :: qc.aggSig[i] == Signature(qc.signers[i], qc.blockID)
    ensures qc.leader == r.id ==>
              ProcessCertificate(cfg, r, qc.(aggSig := sigs)).pace == ProcessCertificate(cfg, r, qc).pace
    ensures CollectVote(cfg, r, v, built) != r && v.voter != r.id ==> v.signature == Signature(v.voter, v.blockID)
  {
    hide EnterView, AddVote, BuildsQC, GetBlock;
    LockFrame(cfg, r, qc);
  }

  lemma CertificateForward(cfg: Config, r: Replica, qc: QC)
    ensures ProcessCertificate(cfg, r, qc).pace.curView >= r.pace.curView
  {
    hide UpdatePreferredSeq, VerifiesQuorum;
    LockFrame(cfg, r, qc);
  }

  lemma FollowForward(cfg: Config, was: View, r: Replica, b: Block)
    ensures var s := FollowTC(cfg, was, r, b); s.Some? ==> s.value.pace.curView >= r.pace.curView
  {
  }

  /** Nor is any block stored, voted for or made to trigger a commit unless it comes from the leader of its
      view and is of the current view or the next. */
  lemma OnlyLeadersBlocksCount(cfg: Config, r: Replica, b: Block)
    ensures var f := ProcessOne(cfg, r, b);
            !f.Panic? && (f.r.chain != r.chain || f.r.sentVotes != r.sentVotes || f.r.reports != r.reports) ==>
              cfg.rotation.IsLeader(b.proposer, b.view) && r.pace.curView <= b.view <= r.pace.curView + 1
  {
    hide ProcessCertificate, FollowTC, CertificateFails, AcceptBlock;
    CertificateFrame(cfg, r, b.qc);
    CertificateForward(cfg, r, b.qc);
    var s := if b.proposer != r.id then ProcessCertificate(cfg, r, b.qc) else r;
    FollowFrame(cfg, r.pace.curView, s, b);
    FollowForward(cfg, r.pace.curView, s, b);
  }

  // ---------- accepting a block ----------

  /** The views in which a replica accepts a block: it is of the current view or the next, and what comes
      with it does not take another node past that view. */
  predicate Timely(cfg: Config, r: Replica, b: Block) {
    && r.pace.curView <= b.view <= r.pace.curView + 1
    && (b.proposer != r.id ==>
          && (b.qc.view < b.view || !Usable(cfg, r.chain.forest, b.qc))
          && (b.tc.Some? ==> b.tc.value.view < b.view))
  }

  lemma ViewAfterQC(cfg: Config, k: Pool, r: Replica, qc: QC)
    requires GoodReplica(cfg, k, r) && GoodPool(cfg, k) && GoodQC(cfg, k, qc)
    ensures ProcessCertificate(cfg, r, qc).pace.curView ==
            if qc.view >= r.pace.curView && Usable(cfg, r.chain.forest, qc) then qc.view + 1 else r.pace.curView
  {
    hide GoodPool, GoodReplica, GoodQC, UpdatePreferredSeq, VerifiesQuorum, Usable;
    CertificateEffect(cfg, k, r, qc);
    if qc.view >= r.pace.curView {
      LockOutcome(cfg, k, r, qc);
    }
  }

  /** The view a validator is in after following timeout certificates. */
  lemma ViewAfterTC(cfg: Config, k: Pool, was: View, r: Replica, b: Block)
    requires GoodTCs(cfg, k, b) && was <= r.pace.curView
    ensures var s := FollowTC(cfg, was, r, b);
            && s.Some?
            && s.value.pace.curView == if b.proposer != r.id && b.tc.Some? && b.tc.value.view >= r.pace.curView
                                       then b.tc.value.view + 1 else r.pace.curView
  {
    hide GoodPair;
    if b.tc.Some? { GoodTCsFacts(cfg, k, b); }
  }

  lemma AcceptsIff(cfg: Config, k: Pool, r: Replica, b: Block)
    requires GoodReplica(cfg, k, r) && GoodPool(cfg, k) && b in k.blocks
    ensures Accepting(cfg, r, b).Some? <==> Timely(cfg, r, b)
    ensures Accepting(cfg, r, b).Some? ==> var t := Accepting(cfg, r, b).value;
              && GoodReplica(cfg, k, t) && t.id == r.id && t.chain == r.chain
              && t.sentVotes == r.sentVotes && t.reports == r.reports
  {
    hide GoodReplica, GoodQC, GoodTCs, GoodVote, GoodTmo, OneBlockPerView, Usable, CertificateFails,
      ProcessCertificate, FollowTC, Advances;
    assert GoodBlock(cfg, k, b);
    GoodNeverFails(cfg, k, r, b.qc);
    CertificateGood(cfg, k, r, b.qc);
    var s := if b.proposer != r.id then ProcessCertificate(cfg, r, b.qc) else r;
    ViewAfterQC(cfg, k, r, b.qc);
    ViewAfterTC(cfg, k, r.pace.curView, s, b);
    FollowGood(cfg, k, r.pace.curView, s, b);
    FollowFrame(cfg, r.pace.curView, s, b);
  }

  lemma FollowFrame(cfg: Config, was: View, r: Replica, b: Block)
    ensures var s := FollowTC(cfg, was, r, b);
            s.Some? ==>
              s.value == r.(pace := s.value.pace, voteType := s.value.voteType, highTC := s.value.highTC,
                            secHighTC := s.value.secHighTC)
  {
    hide EnterView;
  }

  // ---------- commits ----------

  /** The QC is of Seq 4 or more (MHotStuff: 6), and the block lies two Seqs above what it certifies. */
  predicate MayCommit(cfg: Config, b: Block) {
    b.seqNo == b.qc.seqNo + 2 && b.qc.seqNo > if cfg.protocol.MTchs? then 3 else 5
  }

  /** The block two QC links down from the block with this QC (MHotStuff: three). */
  function TargetID(cfg: Config, qc: QC): Identifier {
    if cfg.protocol.MTchs? then Below(qc.blockID) else Below(Below(qc.blockID))
  }

  /** That block, and those on the way to it, are stored. */
  predicate LinksStored(cfg: Config, f: Forest, qc: QC) {
    IsStored(f, qc.blockID) && IsStored(f, Below(qc.blockID)) && IsStored(f, TargetID(cfg, qc))
  }

  lemma TargetLinked(cfg: Config, k: Pool, f: Forest, qc: QC)
    requires GoodStore(k, f) && GoodPool(cfg, k) && GoodQC(cfg, k, qc)
    ensures CommitTarget(cfg, f, qc) == if LinksStored(cfg, f, qc) then GetBlock(f, TargetID(cfg, qc)) else None
  {
    hide GetBlock, GoodPool, GoodStore, GoodQC;
    if IsStored(f, qc.blockID) {
      StoredIsGood(cfg, k, f, qc.blockID);
      var b1 := GetBlock(f, qc.blockID).value;
      if IsStored(f, b1.qc.blockID) {
        StoredIsGood(cfg, k, f, b1.qc.blockID);
      }
    }
  }

  /** b's commit: its target is stored at or above the lowest level, and the pruning walk from it ends. */
  ghost predicate Commits(cfg: Config, f: Forest, b: Block) {
    && MayCommit(cfg, b) && LinksStored(cfg, f, b.qc)
    && var target := GetBlock(f, TargetID(cfg, b.qc)).value;
       target.seqNo >= f.lowest && PruneWalk(f, target.seqNo, {}).Some?
  }

  /** What b's commit reports. */
  function CommitReport(cfg: Config, f: Forest, b: Block): Report
    requires HashLinked(f) && Commits(cfg, f, b)
  {
    var target := GetBlock(f, TargetID(cfg, b.qc)).value;
    assert Full(f, TargetID(cfg, b.qc));
    Report(b, target, CommitWalk(f, target),
           Forked(f, PruneWalk(f, target.seqNo, {}).value, f.lowest, target.seqNo))
  }

  lemma GuardIs(cfg: Config, k: Pool, b: Block)
    requires GoodQC(cfg, k, b.qc)
    ensures CommitGuard(cfg, b) <==> MayCommit(cfg, b)
  {
    GoodQCFacts(cfg, k, b.qc);
  }

  /** What a commit makes of the chain: it forgets the votes for the committed blocks and no others, counts
      these blocks and the containers dropped, and drops the levels below the target. */
  predicate ChainAfter(c: Chain, rep: Report, d: Chain) {
    && d.forest == Cut(c.forest, rep.target.seqNo) && d.highestCommitted == rep.target.seqNo
    && d.votes == c.votes - (set x | x in rep.committed :: x.id) && d.committedNo == c.committedNo + |rep.committed|
    && d.prunedNo == c.prunedNo + Listed(c.forest, c.forest.lowest, rep.target.seqNo)
  }

  function SeqSum(bs: seq<Block>): nat {
    if bs == [] then 0 else bs[0].seqNo + SeqSum(bs[1..])
  }

  /** What the commit step leaves of r. */
  ghost predicate CommitOutcome(cfg: Config, r: Replica, b: Block, f: Flow)
    requires HashLinked(r.chain.forest)
  {
    if Commits(cfg, r.chain.forest, b) then
      var rep := CommitReport(cfg, r.chain.forest, b);
      && f.GoOn? && f.r == r.(chain := f.r.chain, reports := r.reports + [rep])
      && ChainAfter(r.chain, rep, f.r.chain)
    else
      && (f.GoOn? <==> !MayCommit(cfg, b)) && (f.GoOn? ==> f.r == r)
      && (f.Return? ==> f.r == r.(chain := f.r.chain) && f.r.chain.forest == r.chain.forest)
  }

  lemma CommitBlockOutcome(c: Chain, id: Identifier, seqNo: Seq)
    requires HashLinked(c.forest) && IsStored(c.forest, id)
    ensures Full(c.forest, id)
    ensures var target, res := GetBlock(c.forest, id).value, CommitBlock(c, id, seqNo);
            if target.seqNo < c.forest.lowest then res.Refused? && res.chain.forest == c.forest
            else
              match PruneWalk(c.forest, target.seqNo, {})
              case None => res.Stuck?
              case Some(levels) =>
                && res.Committed? && res.committed == CommitWalk(c.forest, target)
                && res.forked == Forked(c.forest, levels, c.forest.lowest, target.seqNo)
                && ChainAfter(c, Report(target, target, res.committed, res.forked), res.chain)
                && res.chain.intervals == c.intervals + |res.committed| * seqNo - SeqSum(res.committed)
  {
    hide CommitWalk, PruneWalk, Forked, Listed, Cut, Traverse, HashLinked, BlockIDs;
    CommitWalks(c.forest, id);
    IDsOf(CommitWalk(c.forest, GetBlock(c.forest, id).value));
    IntervalsOf(CommitWalk(c.forest, GetBlock(c.forest, id).value), seqNo);
  }

  lemma {:induction false} IntervalsOf(bs: seq<Block>, seqNo: Seq)
    ensures Intervals(bs, seqNo) == |bs| * seqNo - SeqSum(bs)
  {
    if bs == [] {
    } else {
      IntervalsOf(bs[..|bs| - 1], seqNo);
      SeqSumLast(bs);
    }
  }

  lemma {:induction false} SeqSumLast(bs: seq<Block>)
    requires bs != []
    ensures SeqSum(bs) == SeqSum(bs[..|bs| - 1]) + bs[|bs| - 1].seqNo
  {
    if |bs| > 1 {
      SeqSumLast(bs[1..]);
      assert bs[1..][..|bs| - 2] == bs[..|bs| - 1][1..];
    }
  }

  lemma {:induction false} IDsOf(bs: seq<Block>)
    ensures BlockIDs(bs) == set x | x in bs :: x.id
  {
    if bs == [] {
    } else {
      IDsOf(bs[..|bs| - 1]);
    }
  }

  lemma CommitStepOutcome(cfg: Config, k: Pool, r: Replica, b: Block)
    requires GoodReplica(cfg, k, r) && GoodPool(cfg, k) && GoodQC(cfg, k, b.qc)
    ensures HashLinked(r.chain.forest) && CommitOutcome(cfg, r, b, CommitStep(cfg, r, b))
  {
    hide GoodReplica, GoodPool, GoodQC, CommitBlock, CommitTarget, CommitGuard, TargetID, CommitWalk, PruneWalk, Forked,
      Cut;
    GoodReplicaStore(cfg, k, r);
    GoodStoreLinked(k, r.chain.forest);
    GuardIs(cfg, k, b);
    TargetLinked(cfg, k, r.chain.forest, b.qc);
    if MayCommit(cfg, b) && LinksStored(cfg, r.chain.forest, b.qc) {
      var id := TargetID(cfg, b.qc);
      StoredIsGood(cfg, k, r.chain.forest, id);
      CommitBlockOutcome(r.chain, id, r.pace.curSeq);
    }
  }

  // ---------- an accepted block, up to the vote ----------

  /** The lock a parent must reach for a vote on an accepted block: with MTchs the one held when the block
      is stored, the second one after the first of two timeouts; with MHotStuff the one held when voting. */
  function VoteLock(cfg: Config, stored: Replica, voting: Replica): Seq {
    match cfg.protocol
    case MTchs => if stored.voteType.TimeoutF? then stored.secPreferredSeq else stored.preferredSeq
    case MHotStuff => voting.preferredSeq
  }

  /** A vote is due in the first views, and later if the block the QC names is stored and its Seq, that of
      the QC, reaches the lock. */
  predicate VoteDue(cfg: Config, stored: Replica, voting: Replica, b: Block) {
    || b.view < (if cfg.protocol.MTchs? then 3 else 5)
    || (IsStored(voting.chain.forest, b.qc.blockID) && b.qc.seqNo >= VoteLock(cfg, stored, voting))
  }

  /** s is r with one vote more, for b. */
  predicate Voted(cfg: Config, stored: Replica, r: Replica, b: Block, s: Replica) {
    var v := Vote(b.view, b.seqNo, r.id, b.id, Signature(r.id, b.id));
    s == r.(sentVotes := r.sentVotes + [Cast(v, VoteLock(cfg, stored, r))])
  }

  lemma VoteStepOutcome(cfg: Config, k: Pool, stored: Replica, r: Replica, b: Block)
    requires GoodReplica(cfg, k, r) && GoodPool(cfg, k) && GoodBlock(cfg, k, b) && stored.lastVotedSeq == 0
    ensures var f, u := VoteStep(cfg, r, ContextOf(stored), b), UseBufferedQC(cfg, r, b);
            && GoodReplica(cfg, k, u) && u.chain == r.chain && u.sentVotes == r.sentVotes && u.reports == r.reports
            && u.id == r.id && u.highTC == r.highTC && u.secHighTC == r.secHighTC && u.voteType == r.voteType
            && r.pace.newViews <= u.pace.newViews && u.pace.curView >= r.pace.curView
            && if VoteDue(cfg, stored, u, b) then f.GoOn? && Voted(cfg, stored, u, b, f.r) else f == Return(u)
  {
    hide GoodReplica, GoodPool, GoodTCs, GoodQC, UseBufferedQC, CertificateFails, GetBlock;
    if b.id in r.bufferedQCs { BufferedNeverFails(cfg, k, r, b); }
    BufferedQCGood(cfg, k, r, b);
    UseFrame(cfg, r, b);
    var u := UseBufferedQC(cfg, r, b);
    GoodReplicaStore(cfg, k, u);
    NeverVotedSeq(cfg, k, u);
    if IsStored(u.chain.forest, b.qc.blockID) { ParentCertified(cfg, k, u.chain.forest, b); }
  }

  lemma NeverVotedSeq(cfg: Config, k: Pool, r: Replica)
    requires GoodReplica(cfg, k, r)
    ensures r.lastVotedSeq == 0
  {
  }

  lemma UseFrame(cfg: Config, r: Replica, b: Block)
    ensures var s := UseBufferedQC(cfg, r, b);
            SameBesidesCertificate(r, s) && s.voteType == r.voteType
  {
    hide ProcessCertificate;
    if b.id in r.bufferedQCs {
      CertificateFrame(cfg, r, r.bufferedQCs[b.id]);
      CertificateVoteType(cfg, r, r.bufferedQCs[b.id]);
    }
  }

  lemma CertificateVoteType(cfg: Config, r: Replica, qc: QC)
    ensures ProcessCertificate(cfg, r, qc).voteType == r.voteType
  {
    hide UpdatePreferredSeq, EnterView, VerifiesQuorum;
    LockFrame(cfg, r, qc);
  }

  /** The replica that has stored b and, as next leader, collected its timeout certificates. */
  function Collecting(cfg: Config, t: Replica, b: Block): Replica
    requires CollectTCs(cfg, StoreBlock(t, b), b).Some?
  {
    CollectTCs(cfg, StoreBlock(t, b), b).value
  }

  lemma CollectingGood(cfg: Config, k: Pool, t: Replica, b: Block)
    requires GoodReplica(cfg, k, t) && GoodPool(cfg, k) && b in k.blocks
    ensures CollectTCs(cfg, StoreBlock(t, b), b).Some?
    ensures var c := Collecting(cfg, t, b);
            && GoodReplica(cfg, k, c) && HashLinked(c.chain.forest)
            && c.chain == t.chain.(forest := AddVertex(t.chain.forest, VertexOf(b)))
            && c.reports == t.reports && c.sentVotes == t.sentVotes && c.id == t.id
            && c.bufferedQCs == t.bufferedQCs
  {
    hide GoodReplica, GoodVote, GoodTmo, OneBlockPerView, GoodTCs, GoodQC, AddVertex, HashLinked, Advances, CollectTCs;
    assert GoodBlock(cfg, k, b);
    StoreGood(cfg, k, t, b);
    CollectTCsGood(cfg, k, StoreBlock(t, b), b);
    CollectFrame(cfg, StoreBlock(t, b), b);
    GoodReplicaStore(cfg, k, Collecting(cfg, t, b));
    GoodStoreLinked(k, Collecting(cfg, t, b).chain.forest);
  }

  lemma CollectFrame(cfg: Config, r: Replica, b: Block)
    ensures var s := CollectTCs(cfg, r, b);
            s.Some? ==>
              s.value == r.(pace := s.value.pace, voteType := s.value.voteType, highTC := s.value.highTC,
                            secHighTC := s.value.secHighTC)
  {
    hide EnterView;
  }

  /** The parts of AcceptBlock put together. */
  lemma AcceptOutcome(cfg: Config, k: Pool, t: Replica, b: Block)
    requires GoodReplica(cfg, k, t) && GoodPool(cfg, k) && b in k.blocks
    ensures CollectTCs(cfg, StoreBlock(t, b), b).Some?
    ensures var c, f := Collecting(cfg, t, b), AcceptBlock(cfg, t, b);
            && HashLinked(c.chain.forest) && CommitOutcome(cfg, c, b, CommitStep(cfg, c, b))
            && match CommitStep(cfg, c, b)
               case Panic => f.Panic?
               case Return(u) => f == Return(u)
               case GoOn(u) =>
                 var v := UseBufferedQC(cfg, u, b);
                 && v.chain == u.chain && v.sentVotes == u.sentVotes && v.reports == u.reports && v.id == u.id
                 && v.highTC == u.highTC && v.secHighTC == u.secHighTC && v.voteType == u.voteType
                 && u.pace.newViews <= v.pace.newViews && u.pace.curView <= v.pace.curView
                 && if VoteDue(cfg, t, v, b) then f.GoOn? && Voted(cfg, t, v, b, f.r) else f == Return(v)
  {
    hide GoodReplica, GoodVote, GoodTmo, OneBlockPerView, GoodTCs, GoodQC, AddVertex, HashLinked, Advances, CollectTCs,
      CommitOutcome, CommitStep, VoteStep, UseBufferedQC, VoteDue, Voted;
    assert GoodBlock(cfg, k, b);
    CollectingGood(cfg, k, t, b);
    var c, s := Collecting(cfg, t, b), StoreBlock(t, b);
    CommitStepOutcome(cfg, k, c, b);
    CommitStepGood(cfg, k, c, b);
    NeverVotedSeq(cfg, k, t);
    match CommitStep(cfg, c, b)
    case Panic =>
    case Return(_) =>
    case GoOn(u) =>
      VoteStepOutcome(cfg, k, s, u, b);
      SameVote(cfg, t, b, UseBufferedQC(cfg, u, b), VoteStep(cfg, u, ContextOf(s), b));
  }

  lemma SameVote(cfg: Config, t: Replica, b: Block, v: Replica, f: Flow)
    ensures VoteDue(cfg, StoreBlock(t, b), v, b) == VoteDue(cfg, t, v, b)
    ensures !f.Panic? ==> Voted(cfg, StoreBlock(t, b), v, b, f.r) == Voted(cfg, t, v, b, f.r)
  {
    hide AddBlock;
  }

  // ---------- what every replica of a run does with a block ----------

  /** ProcessOne, once the block is accepted. */
  lemma OneAccepts(cfg: Config, k: Pool, r: Replica, b: Block)
    requires GoodReplica(cfg, k, r) && GoodPool(cfg, k) && b in k.blocks
    ensures Accepting(cfg, r, b).Some? ==> ProcessOne(cfg, r, b) == AcceptBlock(cfg, Accepting(cfg, r, b).value, b)
    ensures Accepting(cfg, r, b).None? ==> ProcessOne(cfg, r, b).Return?
  {
    hide GoodReplica, GoodQC, GoodTCs, GoodVote, GoodTmo, OneBlockPerView, CertificateFails, ProcessCertificate,
      FollowTC, AcceptBlock, Advances;
    assert GoodBlock(cfg, k, b);
    GoodNeverFails(cfg, k, r, b.qc);
    CertificateGood(cfg, k, r, b.qc);
    var s := if b.proposer != r.id then ProcessCertificate(cfg, r, b.qc) else r;
    FollowGood(cfg, k, r.pace.curView, s, b);
  }

  /** A block that was sent is stored by a replica exactly if it is timely there. It triggers a commit
      exactly if it lies two Seqs above a QC of high enough Seq, the blocks two QC links down (MHotStuff:
      three) are stored, and the last of them is not below the lowest level; the call fails if the pruning
      walk from there does not end, and otherwise reports the walk and the forked blocks, and forgets the
      votes for the blocks of the walk. */
  lemma CommitsIff(cfg: Config, trace: seq<System>, steps: seq<Step>, i: nat, m: nat, b: Block)
    requires IsRun(cfg, trace, steps) && i < |trace| && m < |trace[i].replicas| && b in trace[i].pool.blocks
    ensures var r := trace[i].replicas[m];
            var f, g := ProcessOne(cfg, r, b), AddVertex(r.chain.forest, VertexOf(b));
            && HashLinked(g)
            && (f.Panic? <==>
                  && Timely(cfg, r, b) && MayCommit(cfg, b) && LinksStored(cfg, g, b.qc)
                  && var target := GetBlock(g, TargetID(cfg, b.qc)).value;
                     target.seqNo >= g.lowest && PruneWalk(g, target.seqNo, {}).None?)
            && (!f.Panic? ==>
                  if !Timely(cfg, r, b) then f.r.chain == r.chain && f.r.reports == r.reports
                  else if Commits(cfg, g, b) then
                    var rep := CommitReport(cfg, g, b);
                    && f.r.reports == r.reports + [rep]
                    && ChainAfter(r.chain.(forest := g), rep, f.r.chain)
                  else f.r.reports == r.reports && f.r.chain.forest == g)
  {
    hide Next, GoodPool, GoodReplica, AcceptBlock, Timely, CommitReport, HashLinked, AddVertex, PruneWalk, Cut,
      CollectTCs, ProcessOne, LinksStored, TargetID, UseBufferedQC;
    NodeInRun(cfg, trace, steps, i, m);
    var k, r := trace[i].pool, trace[i].replicas[m];
    GoodReplicaStore(cfg, k, r);
    SeqOfID(cfg, k, b);
    AddKeepsHashLinks(r.chain.forest, b);
    OneAccepts(cfg, k, r, b);
    AcceptsIff(cfg, k, r, b);
    if Timely(cfg, r, b) {
      var t := Accepting(cfg, r, b).value;
      AcceptOutcome(cfg, k, t, b);
      CollectingGood(cfg, k, t, b);
      StuckSplit(cfg, k, Collecting(cfg, t, b), b);
    } else {
      RefusedFrame(cfg, r, b);
    }
  }

  lemma StuckSplit(cfg: Config, k: Pool, c: Replica, b: Block)
    requires GoodReplica(cfg, k, c) && GoodPool(cfg, k) && b in k.blocks && HashLinked(c.chain.forest)
    ensures CommitStep(cfg, c, b).Panic? <==>
            && MayCommit(cfg, b) && LinksStored(cfg, c.chain.forest, b.qc)
            && var target := GetBlock(c.chain.forest, TargetID(cfg, b.qc)).value;
               target.seqNo >= c.chain.forest.lowest && PruneWalk(c.chain.forest, target.seqNo, {}).None?
  {
    hide GoodReplica, GoodVote, GoodTmo, GoodTCs, GoodQC, OneBlockPerView, CommitStep, CommitTarget, PruneWalk,
      HashLinked, TargetID, CommitGuard, LinksStored;
    assert GoodBlock(cfg, k, b);
    GoodReplicaStore(cfg, k, c);
    GuardIs(cfg, k, b);
    TargetLinked(cfg, k, c.chain.forest, b.qc);
    TargetStored(cfg, c.chain.forest, b.qc);
    CommitStepGood(cfg, k, c, b);
  }

  lemma TargetStored(cfg: Config, f: Forest, qc: QC)
    ensures LinksStored(cfg, f, qc) ==> GetBlock(f, TargetID(cfg, qc)).Some?
  {
  }

  lemma RefusedFrame(cfg: Config, r: Replica, b: Block)
    requires Accepting(cfg, r, b).None?
    ensures var f := ProcessOne(cfg, r, b);
            !f.Panic? ==> f.Return? && f.r.chain == r.chain && f.r.reports == r.reports && f.r.sentVotes == r.sentVotes
  {
    hide ProcessCertificate, FollowTC, CertificateFails;
    CertificateFrame(cfg, r, b.qc);
    FollowFrame(cfg, r.pace.curView, if b.proposer != r.id then ProcessCertificate(cfg, r, b.qc) else r, b);
  }

  /** An accepted block whose commit, if it may trigger one, was made is voted for exactly if its view is
      one of the first (below 3, with MHotStuff 5), or the block its QC names is stored and the QC's Seq
      reaches the lock: for both protocols, and all that a call changes in the votes sent. */
  lemma VotesIff(cfg: Config, trace: seq<System>, steps: seq<Step>, i: nat, m: nat, b: Block)
    requires IsRun(cfg, trace, steps) && i < |trace| && m < |trace[i].replicas| && b in trace[i].pool.blocks
    requires !ProcessOne(cfg, trace[i].replicas[m], b).Panic?
    ensures var r := trace[i].replicas[m]; var f := ProcessOne(cfg, r, b);
            var t := if Timely(cfg, r, b) then Accepting(cfg, r, b) else None;
            && (Timely(cfg, r, b) ==> t.Some?)
            && (f.GoOn? <==>
                  && Timely(cfg, r, b) && (MayCommit(cfg, b) ==> f.r.reports != r.reports)
                  && VoteDue(cfg, t.value, f.r, b))
            && (f.GoOn? ==>
                  f.r.sentVotes == r.sentVotes + [Cast(Vote(b.view, b.seqNo, r.id, b.id, Signature(r.id, b.id)),
                                                       VoteLock(cfg, t.value, f.r))])
            && (f.Return? ==> f.r.sentVotes == r.sentVotes)
  {
    hide Next, GoodPool, GoodReplica, AcceptBlock, Timely, CommitReport, HashLinked, AddVertex, PruneWalk, Cut,
      CollectTCs, ProcessOne, LinksStored, TargetID, UseBufferedQC, Commits;
    NodeInRun(cfg, trace, steps, i, m);
    var k, r := trace[i].pool, trace[i].replicas[m];
    OneAccepts(cfg, k, r, b);
    AcceptsIff(cfg, k, r, b);
    if Timely(cfg, r, b) {
      var t := Accepting(cfg, r, b).value;
      AcceptOutcome(cfg, k, t, b);
      CollectingGood(cfg, k, t, b);
      CommitsMay(cfg, Collecting(cfg, t, b).chain.forest, b);
    } else {
      RefusedFrame(cfg, r, b);
    }
  }

  lemma CommitsMay(cfg: Config, f: Forest, b: Block)
    ensures Commits(cfg, f, b) ==> MayCommit(cfg, b)
  {
  }

  /** What a delivered block has a replica report and vote for at first stays reported and is sent. */
  lemma VoteIsSent(cfg: Config, trace: seq<System>, steps: seq<Step>, i: nat, m: nat, b: Block)
    requires IsRun(cfg, trace, steps) && i < |steps| && steps[i] == OnBlock(m, b)
    ensures m < |trace[i].replicas| == |trace[i + 1].replicas| && b in trace[i].pool.blocks
    ensures var f, s := ProcessOne(cfg, trace[i].replicas[m], b), trace[i + 1];
            && !f.Panic? && f.r.reports <= s.replicas[m].reports
            && (f.GoOn? ==> MakeVote(b.view, b.seqNo, f.r.id, b.id) in s.pool.votes)
  {
    hide GoodPool, GoodReplica, ProcessOne, OwnBlocks, VotesCast, KeysFrom, Advances, CommitFails;
    assert Next(cfg, trace[i], steps[i], trace[i + 1]);
    RunGood(cfg, trace, steps, i);
    var k, r, s := trace[i].pool, trace[i].replicas[m], trace[i + 1].replicas[m];
    assert GoodNode(cfg, k, r);
    ProcessOneGood(cfg, k, r, b);
    OneKeepsBuffer(cfg, r, b);
    RestAdvances(cfg, k, r, b);
    var f := ProcessOne(cfg, r, b);
    if f.GoOn? {
      VotesIff(cfg, trace, steps, i, m, b);
      assert f.r.sentVotes[|r.sentVotes|] == s.sentVotes[|r.sentVotes|];
    }
  }

  lemma RestAdvances(cfg: Config, k: Pool, r: Replica, b: Block)
    requires GoodReplica(cfg, k, r) && GoodPool(cfg, k) && b in k.blocks && OneViewAhead(r.bufferedBlocks)
    requires OwnBlocks(k, r.id, r.pace, r.highQC) && ProcessBlock(cfg, r, b).Some?
    ensures var f, s := ProcessOne(cfg, r, b), ProcessBlock(cfg, r, b).value;
            !f.Panic? && f.r.reports <= s.reports && f.r.sentVotes <= s.sentVotes && f.r.id == r.id
  {
    hide ProcessOne, KeysFrom, GoodPool, GoodReplica, Later, CommitFails, OwnBlocks, PruneFails;
    ProcessOneGood(cfg, k, r, b);
    OneKeepsBuffer(cfg, r, b);
    var f := ProcessOne(cfg, r, b);
    if f.GoOn? && b.view in f.r.bufferedBlocks {
      FewerKeys(r.bufferedBlocks, b.view);
      BufferedInPool(cfg, k, f.r, b.view);
      OwnBlocksKept(k, r, f.r);
      ProcessBlockGood(cfg, k, f.r, f.r.bufferedBlocks[b.view]);
    }
  }

  // ---------- timeout certificates ----------

  /** What the timeout certificates of an accepted block make of the vote type and of the pair kept: a
      validator takes the type of the block's certificate unless its view was left, and gives up its pair
      for the second of two. */
  lemma VoteTypeFollows(cfg: Config, trace: seq<System>, steps: seq<Step>, i: nat, m: nat, b: Block)
    requires IsRun(cfg, trace, steps) && i < |trace| && m < |trace[i].replicas| && b in trace[i].pool.blocks
    requires Timely(cfg, trace[i].replicas[m], b)
    ensures var r := trace[i].replicas[m];
            var s := if b.proposer != r.id then ProcessCertificate(cfg, r, b.qc) else r;
            && Accepting(cfg, r, b).Some? && (b.tc.Some? ==> |b.tcs| == 2 && b.tcs[0].Some? && b.tcs[1].Some?)
            && var t := Accepting(cfg, r, b).value;
               && t == s.(pace := t.pace, voteType := t.voteType, highTC := t.highTC, secHighTC := t.secHighTC)
               && (cfg.protocol.MTchs? ==>
                     t.voteType == if b.tc.None? then NoTimeout
                                   else if b.proposer == r.id || b.tc.value.view < r.pace.curView then r.voteType
                                   else if b.tc == b.tcs[0] then TimeoutF else TimeoutS)
               && (t.secHighTC, t.highTC) ==
                  if b.tc.Some? && b.proposer != r.id && b.tc == b.tcs[1] &&
                     (cfg.protocol.MTchs? ==> b.tc.value.view >= r.pace.curView)
                  then (None, None) else (r.secHighTC, r.highTC)
  {
    hide Next, GoodPool, GoodReplica, CertificateFails, ProcessCertificate, FollowTC, Timely;
    NodeInRun(cfg, trace, steps, i, m);
    var k, r := trace[i].pool, trace[i].replicas[m];
    AcceptsIff(cfg, k, r, b);
    BlockTCsGood(cfg, k, b);
    CertificateFrame(cfg, r, b.qc);
    CertificateVoteType(cfg, r, b.qc);
    var s := if b.proposer != r.id then ProcessCertificate(cfg, r, b.qc) else r;
    FollowFrame(cfg, r.pace.curView, s, b);
    FollowType(cfg, k, r.pace.curView, s, b);
  }

  lemma BlockTCsGood(cfg: Config, k: Pool, b: Block)
    requires GoodPool(cfg, k) && b in k.blocks
    ensures GoodTCs(cfg, k, b)
  {
    hide GoodVote, GoodTmo, GoodQC, GoodTCs, OneBlockPerView;
    assert GoodBlock(cfg, k, b);
  }

  lemma FollowType(cfg: Config, k: Pool, was: View, r: Replica, b: Block)
    requires GoodTCs(cfg, k, b)
    ensures b.tc.Some? ==> |b.tcs| == 2 && b.tcs[0].Some? && b.tcs[1].Some?
    ensures var t := FollowTC(cfg, was, r, b);
            && t.Some?
            && (cfg.protocol.MTchs? ==>
                  t.value.voteType == if b.tc.None? then NoTimeout
                                      else if b.proposer == r.id || b.tc.value.view < was then r.voteType
                                      else if b.tc == b.tcs[0] then TimeoutF else TimeoutS)
            && (t.value.secHighTC, t.value.highTC) ==
               if b.tc.Some? && b.proposer != r.id && b.tc == b.tcs[1] &&
                  (cfg.protocol.MTchs? ==> b.tc.value.view >= was)
               then (None, None) else (r.secHighTC, r.highTC)
  {
    hide EnterView;
    if b.tc.Some? { GoodTCsFacts(cfg, k, b); }
  }

  /** With MTchs a validator that has not left the view of a proposal's certificate takes exactly the type
      its leader announced, so that it compares with the lock the leader proposed for. */
  lemma ValidatorFollowsLeader(cfg: Config, trace: seq<System>, steps: seq<Step>, i: nat, m: nat, payload: seq<string>,
                               was: View, r: Replica)
    requires IsRun(cfg, trace, steps) && i < |trace| && m < |trace[i].replicas| && cfg.protocol.MTchs?
    requires trace[i].replicas[m].pace.newViews != [] && r.id != trace[i].replicas[m].id
    ensures var q := trace[i].replicas[m]; var nv := q.pace.newViews[0];
            var b := MakeProposal(DropNewView(q), nv, payload);
            && FollowTC(cfg, was, r, b).Some?
            && (b.tc.Some? <==> !nv.proposeType.NoTimeout? && q.highTC.Some?)
            && (if b.tc.Some? then b.tc.value.view >= was else nv.proposeType.NoTimeout?) ==>
                  FollowTC(cfg, was, r, b).value.voteType == nv.proposeType
  {
    hide Next, GoodPool, GoodTimeouts, GoodVotes, GoodReports, GoodBuffers, GoodSent, GoodStore, GoodQC, GoodViews,
      GoodLocks, LockBacked, GoodHighBlock, FollowTC;
    NodeInRun(cfg, trace, steps, i, m);
    var k, q := trace[i].pool, trace[i].replicas[m];
    var b := MakeProposal(DropNewView(q), q.pace.newViews[0], payload);
    assert GoodPair(cfg, k, q.secHighTC, q.highTC);
    FollowType(cfg, k, was, r, b);
  }

  /** The next leader takes over a block's timeout certificates, unless it is past the second. */
  predicate TakesPair(cfg: Config, t: Replica, b: Block)
    requires b.tc.Some? ==> |b.tcs| == 2 && b.tcs[1].Some?
  {
    b.tc.Some? && cfg.rotation.IsLeader(t.id, t.pace.curView + 1) && t.pace.curView <= b.tcs[1].value.view
  }

  lemma AcceptTakesPair(cfg: Config, k: Pool, t: Replica, b: Block)
    requires GoodReplica(cfg, k, t) && GoodPool(cfg, k) && b in k.blocks && !AcceptBlock(cfg, t, b).Panic?
    ensures b.tc.Some? ==> |b.tcs| == 2 && b.tcs[0].Some? && b.tcs[1].Some?
    ensures var s := AcceptBlock(cfg, t, b).r;
            if TakesPair(cfg, t, b) then
              var view := b.tcs[1].value.view + 1;
              && (s.secHighTC, s.highTC) == (b.tcs[0], b.tcs[1])
              && s.pace.curView >= view && NewView(view, view + 1, TimeoutS) in s.pace.newViews
              && (cfg.protocol.MTchs? ==> s.voteType == TimeoutS)
            else (s.secHighTC, s.highTC, s.voteType) == (t.secHighTC, t.highTC, t.voteType)
  {
    hide GoodPool, GoodReplica, AcceptBlock, CommitReport, HashLinked, AddBlock, Commits, CollectTCs, UseBufferedQC,
      GoodPair, CommitStep, VoteDue;
    BlockTCsGood(cfg, k, b);
    AcceptOutcome(cfg, k, t, b);
    CollectOutcome(cfg, k, StoreBlock(t, b), b);
  }

  /** The next leader keeps the pair of certificates of an accepted block, enters and announces the view
      after the second, and what it proposes there carries the pair, with the second as its own; all others
      keep the pair and the vote type they have. */
  lemma NextLeaderTakesPair(cfg: Config, trace: seq<System>, steps: seq<Step>, i: nat, m: nat, b: Block,
                            payload: seq<string>)
    requires IsRun(cfg, trace, steps) && i < |trace| && m < |trace[i].replicas| && b in trace[i].pool.blocks
    requires Timely(cfg, trace[i].replicas[m], b) && !ProcessOne(cfg, trace[i].replicas[m], b).Panic?
    ensures Accepting(cfg, trace[i].replicas[m], b).Some?
    ensures b.tc.Some? ==> |b.tcs| == 2 && b.tcs[0].Some? && b.tcs[1].Some?
    ensures var s, t := ProcessOne(cfg, trace[i].replicas[m], b).r, Accepting(cfg, trace[i].replicas[m], b).value;
            if TakesPair(cfg, t, b) then
              var view := b.tcs[1].value.view + 1;
              var p := MakeProposal(s, NewView(view, view + 1, TimeoutS), payload);
              && s.pace.curView >= view && NewView(view, view + 1, TimeoutS) in s.pace.newViews
              && p.tc == b.tcs[1] && p.tcs == b.tcs
              && (cfg.protocol.MTchs? ==> s.voteType == TimeoutS)
            else (s.secHighTC, s.highTC, s.voteType) == (t.secHighTC, t.highTC, t.voteType)
  {
    hide Next, GoodPool, GoodReplica, AcceptBlock, Timely, ProcessOne, Accepting;
    NodeInRun(cfg, trace, steps, i, m);
    var k, r := trace[i].pool, trace[i].replicas[m];
    OneAccepts(cfg, k, r, b);
    AcceptsIff(cfg, k, r, b);
    AcceptTakesPair(cfg, k, Accepting(cfg, r, b).value, b);
  }

  lemma CollectOutcome(cfg: Config, k: Pool, r: Replica, b: Block)
    requires GoodTCs(cfg, k, b)
    ensures b.tc.Some? ==> |b.tcs| == 2 && b.tcs[0].Some? && b.tcs[1].Some?
    ensures var s := CollectTCs(cfg, r, b);
            && s.Some?
            && if b.tc.Some? && cfg.rotation.IsLeader(r.id, r.pace.curView + 1) && r.pace.curView <= b.tcs[1].value.view
               then
                 var view := b.tcs[1].value.view + 1;
                 && (s.value.secHighTC, s.value.highTC) == (b.tcs[0], b.tcs[1])
                 && s.value.pace.curView == view && NewView(view, view + 1, TimeoutS) in s.value.pace.newViews
                 && (cfg.protocol.MTchs? ==> s.value.voteType == TimeoutS)
               else s.value == r
  {
    if b.tc.Some? { GoodTCsFacts(cfg, k, b); }
    var s := CollectTCs(cfg, r, b).value;
    assert s == r || s.pace.newViews[|r.pace.newViews|] in s.pace.newViews;
  }

  // ---------- certificates that wait ----------

  /** A built certificate that is not dropped takes its replica past its view, or waits for its block. */
  lemma CertificateNotLost(cfg: Config, trace: seq<System>, steps: seq<Step>, i: nat, m: nat)
    requires IsRun(cfg, trace, steps) && i < |trace| && m < |trace[i].replicas|
    requires trace[i].replicas[m].waiting.Some?
    ensures var r := trace[i].replicas[m]; var qc, s := r.waiting.value, FinishVote(cfg, r, true);
            if qc.view != 1 && !IsStored(r.chain.forest, qc.blockID)
            then s == r.(waiting := None, bufferedQCs := r.bufferedQCs[qc.blockID := qc])
            else if qc.view < r.pace.curView || Usable(cfg, r.chain.forest, qc)
            then s.waiting.None? && s.pace.curView > qc.view && s.bufferedQCs == r.bufferedQCs
            else s == r.(waiting := None, bufferedQCs := r.bufferedQCs[qc.blockID := qc])
    ensures FinishVote(cfg, trace[i].replicas[m], false) == trace[i].replicas[m].(waiting := None)
  {
    hide Next, GoodPool, UpdatePreferredSeq, VerifiesQuorum, Usable, GoodTimeouts, GoodVotes, GoodPair, GoodReports,
      GoodSent, GoodStore, GoodQC, GoodViews, GoodLocks, LockBacked, GoodHighBlock, GetBlock, ProcessCertificate;
    NodeInRun(cfg, trace, steps, i, m);
    var k, r := trace[i].pool, trace[i].replicas[m];
    var qc, d := r.waiting.value, r.(waiting := None);
    assert GoodReplica(cfg, k, d);
    CertificateEffect(cfg, k, d, qc);
    CertificateFrame(cfg, d, qc);
    ViewAfterQC(cfg, k, d, qc);
    if qc.view >= r.pace.curView { LockOutcome(cfg, k, d, qc); }
  }

  /** A certificate that waited for a block is used once the block is stored and its commit, if it may
      trigger one, was made: it waits no longer, and takes the replica past its view if the blocks its lock
      needs are stored. */
  lemma WaitingCertificateUsed(cfg: Config, trace: seq<System>, steps: seq<Step>, i: nat, m: nat, b: Block)
    requires IsRun(cfg, trace, steps) && i < |trace| && m < |trace[i].replicas| && b in trace[i].pool.blocks
    requires var r := trace[i].replicas[m]; var f := ProcessOne(cfg, r, b);
             && Timely(cfg, r, b) && !f.Panic? && (MayCommit(cfg, b) ==> f.r.reports != r.reports)
             && b.id in r.bufferedQCs && b.id != b.qc.blockID
    ensures var r := trace[i].replicas[m]; var f := ProcessOne(cfg, r, b);
            && b.id !in f.r.bufferedQCs
            && (Usable(cfg, f.r.chain.forest, r.bufferedQCs[b.id]) ==> f.r.pace.curView > r.bufferedQCs[b.id].view)
  {
    hide Next, GoodPool, GoodReplica, AcceptBlock, Timely, CommitReport, HashLinked, AddVertex, Commits,
      CollectTCs, ProcessOne, GoodQC, ProcessCertificate, Usable, CommitStep, VoteDue;
    NodeInRun(cfg, trace, steps, i, m);
    var k, r := trace[i].pool, trace[i].replicas[m];
    OneAccepts(cfg, k, r, b);
    AcceptsIff(cfg, k, r, b);
    VoteTypeFollows(cfg, trace, steps, i, m, b);
    CertificateBuffer(cfg, r, b.qc);
    var t := Accepting(cfg, r, b).value;
    AcceptOutcome(cfg, k, t, b);
    CollectingGood(cfg, k, t, b);
    var c := Collecting(cfg, t, b);
    CommitsMay(cfg, c.chain.forest, b);
    CommitStepGood(cfg, k, c, b);
    var u := CommitStep(cfg, c, b).r;
    BufferGood(cfg, k, u, b.id);
    ViewAfterQC(cfg, k, u, u.bufferedQCs[b.id]);
  }

  lemma CertificateBuffer(cfg: Config, r: Replica, qc: QC)
    ensures var s := ProcessCertificate(cfg, r, qc);
            s.bufferedQCs == r.bufferedQCs || s.bufferedQCs == r.bufferedQCs[qc.blockID := qc]
  {
    hide UpdatePreferredSeq, EnterView, VerifiesQuorum;
    LockFrame(cfg, r, qc);
  }

  lemma BufferGood(cfg: Config, k: Pool, r: Replica, id: Identifier)
    requires GoodReplica(cfg, k, r)
    ensures id in r.bufferedQCs ==> GoodQC(cfg, k, r.bufferedQCs[id])
  {
    hide GoodQC;
  }
}
