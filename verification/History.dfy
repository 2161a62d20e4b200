/**
 What a replica of a run makes of everything delivered to it so far: the timeouts of a view, the votes for
 a block, the blocks that came early; and where every block of a run comes from.
 */
module Histories {
  import opened Types
  import opened Collections
  import opened Election
  import opened ForestModel
  import opened ChainModel
  import opened Quorums
  import opened Pacemakers
  import opened ReplicaModel
  import opened Invariants
  import opened Handlers
  import opened ReplicaSystem
  import opened Safety
  import opened EarlyBlocks

  // ---------- what a block leaves alone ----------

  /** No timeout is touched, and no vote is added or changed. */
  ghost predicate OnlyDropsVotes(r: Replica, s: Replica) {
    && s.pace.timeouts == r.pace.timeouts && s.waiting == r.waiting
    && forall id | id in s.chain.votes :: id in r.chain.votes && s.chain.votes[id] == r.chain.votes[id]
  }

  lemma EnterViewKeeps(p: Pace)
    ensures forall view, seqNo, pt :: EnterView(p, view, seqNo, pt).timeouts == p.timeouts
  {
  }

  lemma FollowFrame(cfg: Config, was: View, r: Replica, b: Block)
    ensures var s := FollowTC(cfg, was, r, b);
            s.Some? ==> OnlyDropsVotes(r, s.value) && s.value.sentVotes == r.sentVotes
  {
    hide EnterView;
    EnterViewKeeps(r.pace);
  }

  lemma CollectFrame(cfg: Config, r: Replica, b: Block)
    ensures var s := CollectTCs(cfg, r, b);
            s.Some? ==> OnlyDropsVotes(r, s.value) && s.value.sentVotes == r.sentVotes
  {
    hide EnterView;
    EnterViewKeeps(r.pace);
  }

  lemma CommitFrame(cfg: Config, r: Replica, b: Block)
    ensures var f := CommitStep(cfg, r, b); !f.Panic? ==> OnlyDropsVotes(r, f.r) && f.r.sentVotes == r.sentVotes
  {
    hide PruneUpToLevel, Traverse, CommitTarget, CommitGuard;
  }

  lemma UseFrame(cfg: Config, r: Replica, b: Block)
    ensures var s := UseBufferedQC(cfg, r, b); OnlyDropsVotes(r, s) && s.sentVotes == r.sentVotes
  {
    hide ProcessCertificate;
    if b.id in r.bufferedQCs { CertificateFrame(cfg, r, r.bufferedQCs[b.id]); }
  }

  /** One vote is sent, for b, or none. */
  ghost predicate VoteAdded(r: Replica, b: Block, f: Flow) {
    match f
    case Panic => true
    case Return(s) => s.sentVotes == r.sentVotes
    case GoOn(s) =>
      && |s.sentVotes| == |r.sentVotes| + 1 && r.sentVotes <= s.sentVotes
      && s.sentVotes[|r.sentVotes|].vote.view == b.view
  }

  lemma AcceptFrame(cfg: Config, r: Replica, b: Block)
    ensures var f := AcceptBlock(cfg, r, b); (!f.Panic? ==> OnlyDropsVotes(r, f.r)) && VoteAdded(r, b, f)
  {
    hide CollectTCs, CommitStep, UseBufferedQC, AddVertex, VotingRule, CertificateFails, Lock;
    var s := StoreBlock(r, b);
    CollectFrame(cfg, s, b);
    match CollectTCs(cfg, s, b)
    case None =>
    case Some(t) =>
      CommitFrame(cfg, t, b);
      match CommitStep(cfg, t, b)
      case Panic =>
      case Return(_) =>
      case GoOn(u) => UseFrame(cfg, u, b);
  }

  lemma OneFrame(cfg: Config, r: Replica, b: Block)
    ensures var f := ProcessOne(cfg, r, b); (!f.Panic? ==> OnlyDropsVotes(r, f.r)) && VoteAdded(r, b, f)
  {
    hide ProcessCertificate, AcceptBlock, FollowTC, CertificateFails;
    CertificateFrame(cfg, r, b.qc);
    var s := if b.proposer != r.id then ProcessCertificate(cfg, r, b.qc) else r;
    FollowFrame(cfg, r.pace.curView, s, b);
    match FollowTC(cfg, r.pace.curView, s, b)
    case None =>
    case Some(t) => AcceptFrame(cfg, t, b);
  }

  lemma {:induction false} BlockFrame(cfg: Config, r: Replica, b: Block)
    requires OneViewAhead(r.bufferedBlocks)
    ensures var s := ProcessBlock(cfg, r, b); s.Some? ==> OnlyDropsVotes(r, s.value)
    decreases |KeysFrom(r.bufferedBlocks, b.view)|
  {
    hide ProcessOne, KeysFrom;
    OneFrame(cfg, r, b);
    OneKeepsBuffer(cfg, r, b);
    var f := ProcessOne(cfg, r, b);
    if f.GoOn? && b.view in f.r.bufferedBlocks {
      FewerKeys(r.bufferedBlocks, b.view);
      BlockFrame(cfg, f.r, f.r.bufferedBlocks[b.view]);
    }
  }

  // ---------- timeouts ----------

  /** The nodes whose timeouts of a view were delivered to a replica. */
  function Delivered(steps: seq<Step>, m: nat, view: View): set<NodeID> {
    if steps == [] then {}
    else
      var before, step := Delivered(steps[..|steps| - 1], m, view), steps[|steps| - 1];
      if step.OnTimeout? && step.i == m && step.tmo.view == view then before + {step.tmo.nodeID} else before
  }

  /** The first of the two blocks that a timeout of the view names. */
  function FirstOf(view: View): Seq {
    if view == 1 then 0 else view
  }

  lemma TmoOutcome(cfg: Config, r: Replica, t: TMO)
    ensures var c, s := ProcessCertificate(cfg, r, t.highQC), ReceiveTmo(cfg, r, t);
            && c.pace.timeouts == r.pace.timeouts && (c.secHighTC, c.highTC) == (r.secHighTC, r.highTC)
            && s.pace.timeouts == (if t.view < c.pace.curView then r.pace.timeouts
                                   else KeepTmo(cfg.N(), r.pace.timeouts, t))
            && s.waiting == r.waiting && s.chain == r.chain && s.bufferedBlocks == r.bufferedBlocks
            && s.pace.curView >= c.pace.curView
            && if t.view >= c.pace.curView && CompletesTmo(cfg.N(), r.pace.timeouts, t) then
                 && (s.secHighTC, s.highTC) == (Some(TC(t.fSeq, t.fSeq)), Some(TC(t.sSeq, t.sSeq)))
                 && s.pace.curView > t.fSeq
                 && (t.fSeq >= c.pace.curView ==>
                       && s.pace.curView == t.fSeq + 1 && s.pace.curSeq == t.fSeq + 2
                       && s.pace.newViews == c.pace.newViews + [NewView(t.fSeq + 1, t.fSeq + 2, TimeoutF)]
                       && (cfg.protocol.MTchs? ==> s.voteType == TimeoutF))
               else s == c.(pace := c.pace.(timeouts := s.pace.timeouts))
  {
    hide ProcessCertificate, KeepTmo, CompletesTmo;
    CertificateFrame(cfg, r, t.highQC);
  }

  /** While a view is not left, all timeouts delivered for it are kept, up to a quorum; and when that many
      were delivered, the view of the first block they name is left. */
  ghost predicate TimeoutsCounted(cfg: Config, r: Replica, view: View, heard: set<NodeID>) {
    && (r.pace.curView <= view ==> KeptUpTo(cfg.N(), TimeoutsFor(r.pace.timeouts, view), heard))
    && (|heard| > cfg.N() * 2 / 3 ==> r.pace.curView > FirstOf(view))
  }

  lemma TmoCounted(cfg: Config, r: Replica, t: TMO, view: View, heard: set<NodeID>)
    requires TimeoutsCounted(cfg, r, view, heard) && view >= 1
    requires t.view == view ==> t.fSeq == FirstOf(view)
    requires ProcessCertificate(cfg, r, t.highQC).pace.curView >= r.pace.curView
    ensures TimeoutsCounted(cfg, ReceiveTmo(cfg, r, t), view,
                            if t.view == view then heard + {t.nodeID} else heard)
  {
    hide ProcessCertificate, KeepTmo, CompletesTmo, ReceiveTmo, KeptUpTo;
    TmoOutcome(cfg, r, t);
    if r.pace.curView <= view {
      KeepsUpTo(cfg.N(), r.pace.timeouts, t, view, heard);
      if t.view == view {
        CompletesUpTo(cfg.N(), r.pace.timeouts, t, heard);
      }
    }
  }

  lemma {:induction false} RunCounts(cfg: Config, trace: seq<System>, steps: seq<Step>, i: nat, m: nat, view: View)
    requires IsRun(cfg, trace, steps) && i <= |steps| && m < cfg.N() && view >= 1
    ensures |trace[i].replicas| == cfg.N()
    ensures TimeoutsCounted(cfg, trace[i].replicas[m], view, Delivered(steps[..i], m, view))
  {
    hide GoodNode, GoodPool, VotesCast, ReceiveTmo, KeptUpTo, Next;
    RunGood(cfg, trace, steps, i);
    if i == 0 {
      StartsCounted(cfg, trace[0].replicas[m], view) by { assert trace[0].replicas[m] == InitReplica(m + 1); }
    } else {
      var s, step := trace[i - 1], steps[i - 1];
      RunGood(cfg, trace, steps, i - 1);
      RunCounts(cfg, trace, steps, i - 1, m, view);
      assert steps[..i][..i - 1] == steps[..i - 1];
      assert Next(cfg, s, step, trace[i]);
      NextGood(cfg, s, step, trace[i]);
      NextFrame(cfg, s, step, trace[i]);
      if step.i == m && step.OnTimeout? {
        TmoStep(cfg, s, m, step.tmo, trace[i]);
        TmoCounted(cfg, s.replicas[m], step.tmo, view, Delivered(steps[..i - 1], m, view));
      } else if step.i == m {
        TimeoutsFrame(cfg, s, step, trace[i]);
        LaterCounted(cfg, s.replicas[m], trace[i].replicas[m], view, Delivered(steps[..i - 1], m, view));
      }
    }
  }

  lemma StartsCounted(cfg: Config, r: Replica, view: View)
    requires r.pace == InitPace
    ensures TimeoutsCounted(cfg, r, view, {})
  {
  }

  lemma LaterCounted(cfg: Config, r: Replica, s: Replica, view: View, heard: set<NodeID>)
    requires TimeoutsCounted(cfg, r, view, heard)
    requires s.pace.timeouts == r.pace.timeouts && s.pace.curView >= r.pace.curView
    ensures TimeoutsCounted(cfg, s, view, heard)
  {
    hide KeptUpTo;
  }

  lemma TmoStep(cfg: Config, s: System, m: nat, t: TMO, s': System)
    requires GoodSystem(cfg, s) && Next(cfg, s, OnTimeout(m, t), s')
    ensures m < |s.replicas| && s'.replicas[m] == ReceiveTmo(cfg, s.replicas[m], t)
    ensures t.view >= 1 && t.fSeq == FirstOf(t.view) && t.sSeq == t.fSeq + 1
    ensures ProcessCertificate(cfg, s.replicas[m], t.highQC).pace.curView >= s.replicas[m].pace.curView
  {
    hide GoodReplica, GoodBlock, GoodVote, GoodQC, OneBlockPerView, ReceiveTmo, ProcessCertificate;
    assert GoodNode(cfg, s.pool, s.replicas[m]) && GoodTmo(cfg, s.pool, t);
    CertificateGood(cfg, s.pool, s.replicas[m], t.highQC);
  }

  lemma TimeoutsFrame(cfg: Config, s: System, step: Step, s': System)
    requires Next(cfg, s, step, s') && !step.OnTimeout?
    ensures step.i < |s.replicas| == |s'.replicas|
    ensures s'.replicas[step.i].pace.timeouts == s.replicas[step.i].pace.timeouts
  {
    hide ProcessBlock, Certificate, MakeProposal, ProcessCertificate, BuildsQC, AddVote;
    var r := s.replicas[step.i];
    match step
    case OnBlock(_, b) => BlockFrame(cfg, r, b);
    case OnSignal(_, _) => CertificateFrame(cfg, r.(waiting := None), r.waiting.value);
    case _ =>
  }

  /** A replica leaves a view whatever else happens, once timeouts of n * 2 / 3 + 1 distinct nodes for it were
      delivered: in every run, with either protocol, the view of the first block they name is behind it. */
  lemma TimeoutsEndView(cfg: Config, trace: seq<System>, steps: seq<Step>, i: nat, m: nat, view: View)
    requires IsRun(cfg, trace, steps) && i <= |steps| && m < cfg.N() && view >= 1
    requires |Delivered(steps[..i], m, view)| >= cfg.N() * 2 / 3 + 1
    ensures m < |trace[i].replicas| && trace[i].replicas[m].pace.curView > if view == 1 then 0 else view
  {
    hide Next;
    RunCounts(cfg, trace, steps, i, m, view);
  }

  /** In a run, a delivered timeout has the replica keep the pair of certificates for the two blocks it
      names, and enter the view after the first, exactly if its view was not left and its node is a new one
      that brings those delivered for the view to n * 2 / 3 + 1. */
  lemma TimeoutBuildsIff(cfg: Config, trace: seq<System>, steps: seq<Step>, i: nat, m: nat, t: TMO)
    requires IsRun(cfg, trace, steps) && i < |steps| && steps[i] == OnTimeout(m, t)
    ensures m < |trace[i].replicas| == |trace[i + 1].replicas|
    ensures var r, s, heard := trace[i].replicas[m], trace[i + 1].replicas[m], Delivered(steps[..i], m, t.view);
            var c := ProcessCertificate(cfg, r, t.highQC);
            if t.view >= c.pace.curView && t.nodeID !in heard && |heard + {t.nodeID}| == cfg.N() * 2 / 3 + 1 then
              && (s.secHighTC, s.highTC) == (Some(TC(t.fSeq, t.fSeq)), Some(TC(t.sSeq, t.sSeq)))
              && t.sSeq == t.fSeq + 1 && s.pace.curView > t.fSeq
              && (t.fSeq >= c.pace.curView ==>
                    && s.pace.newViews == c.pace.newViews + [NewView(t.fSeq + 1, t.fSeq + 2, TimeoutF)]
                    && s.pace.curView == t.fSeq + 1 && (cfg.protocol.MTchs? ==> s.voteType == TimeoutF))
            else s == c.(pace := c.pace.(timeouts := s.pace.timeouts))
  {
    hide Next, GoodNode, GoodPool, VotesCast, ReceiveTmo, KeptUpTo, ProcessCertificate, CompletesTmo, KeepTmo;
    assert Next(cfg, trace[i], steps[i], trace[i + 1]);
    RunGood(cfg, trace, steps, i);
    NextFrame(cfg, trace[i], steps[i], trace[i + 1]);
    TmoStep(cfg, trace[i], m, t, trace[i + 1]);
    RunCounts(cfg, trace, steps, i, m, t.view);
    var r := trace[i].replicas[m];
    TmoOutcome(cfg, r, t);
    if t.view >= r.pace.curView {
      CompletesUpTo(cfg.N(), r.pace.timeouts, t, Delivered(steps[..i], m, t.view));
    }
  }

  // ---------- votes ----------

  /** The distinct nodes whose votes for a block were delivered to a replica since it last forgot them. */
  function Collected(trace: seq<System>, steps: seq<Step>, i: nat, m: nat, id: Identifier): set<NodeID>
    requires i <= |steps| < |trace| && forall j | 0 <= j <= i :: m < |trace[j].replicas|
  {
    if i == 0 then {}
    else
      var before, step := Collected(trace, steps, i - 1, m, id), steps[i - 1];
      if step.i != m then before
      else if step.OnVote? && step.vote.view >= 1 && step.vote.blockID == id then before + {step.vote.voter}
      else if id in trace[i - 1].replicas[m].chain.votes && id !in trace[i].replicas[m].chain.votes then {}
      else before
  }

  /** The votes kept for a block, against all voters: all of them up to a quorum, then no more. */
  ghost predicate VotesCounted(cfg: Config, votes: Votes, id: Identifier, voters: set<NodeID>) {
    var kept := VotesFor(votes, id);
    && kept.Keys <= voters && |kept| <= QuorumSize(cfg.N())
    && (|kept| < QuorumSize(cfg.N()) ==> kept.Keys == voters)
  }

  lemma SentVoteVerifies(cfg: Config, k: Pool, r: Replica, v: Vote)
    requires GoodPool(cfg, k) && v in k.votes && Collector(cfg, v) == r.id
    ensures VoteVerified(r, v)
  {
    hide GoodBlock, GoodTmo, OneBlockPerView, Certified;
    assert GoodVote(cfg, k, v);
  }

  lemma SentVoteGoes(cfg: Config, k: Pool, v: Vote)
    requires GoodPool(cfg, k) && v in k.votes && v.view >= 1
    ensures v.seqNo == v.view + 1 && cfg.rotation.FindLeaderFor(v.seqNo + 1) == Collector(cfg, v)
  {
    hide GoodBlock, GoodTmo, OneBlockPerView, Certified;
    assert GoodVote(cfg, k, v);
  }

  lemma OtherStepsDropVotes(cfg: Config, s: System, step: Step, s': System)
    requires Next(cfg, s, step, s') && !step.OnVote?
    ensures step.i < |s.replicas| == |s'.replicas|
    ensures forall id | id in s'.replicas[step.i].chain.votes ::
              id in s.replicas[step.i].chain.votes &&
              s'.replicas[step.i].chain.votes[id] == s.replicas[step.i].chain.votes[id]
  {
    hide ProcessBlock, Certificate, MakeProposal, ProcessCertificate, BuildsQC, AddVote, ReceiveTmo, CompletesTmo,
      KeepTmo;
    var r := s.replicas[step.i];
    match step
    case OnBlock(_, b) => BlockFrame(cfg, r, b);
    case OnSignal(_, _) => CertificateFrame(cfg, r.(waiting := None), r.waiting.value);
    case OnTimeout(_, t) => TmoOutcome(cfg, r, t);
    case _ =>
  }

  lemma VoteStepIs(cfg: Config, s: System, m: nat, v: Vote, qc: QC, s': System)
    requires GoodSystem(cfg, s) && Next(cfg, s, OnVote(m, v, qc), s')
    ensures m < |s.replicas| == |s'.replicas|
    ensures var r, r' := s.replicas[m], s'.replicas[m];
            && r.id == m + 1 && r.waiting.None? && r'.chain.votes == AddVote(cfg.N(), r.chain.votes, v)
            && (r'.waiting.Some? <==> v.view == 0 || Completes(cfg.N(), r.chain.votes, v))
            && (v.view >= 1 ==> v.seqNo == v.view + 1 && cfg.rotation.FindLeaderFor(v.seqNo + 1) == m + 1)
            && (r'.waiting.Some? ==>
                  Certificate(cfg.N(), r.chain.votes, v, qc) && r'.waiting.value == qc.(leader := m + 1))
  {
    hide GoodReplica, GoodPool, GoodQC, Collector, Completes, AddVote, Certificate, OwnBlocks;
    assert GoodNode(cfg, s.pool, s.replicas[m]);
    if v.view >= 1 { SentVoteGoes(cfg, s.pool, v); }
    SentVoteVerifies(cfg, s.pool, s.replicas[m], v);
  }

  lemma {:induction false} RunCountsVotes(cfg: Config, trace: seq<System>, steps: seq<Step>, i: nat, m: nat,
                                          id: Identifier)
    requires IsRun(cfg, trace, steps) && i <= |steps| && m < cfg.N()
    ensures forall j | 0 <= j <= i :: |trace[j].replicas| == cfg.N()
    ensures VotesCounted(cfg, trace[i].replicas[m].chain.votes, id, Collected(trace, steps, i, m, id))
  {
    hide GoodNode, GoodPool, VotesCast, Next, AddVote, Completes, Certificate, VotesCounted;
    RunGood(cfg, trace, steps, i);
    if i == 0 {
      assert trace[0].replicas[m] == InitReplica(m + 1);
      NoVotesCounted(cfg, id);
    } else {
      var s, step := trace[i - 1], steps[i - 1];
      RunGood(cfg, trace, steps, i - 1);
      RunCountsVotes(cfg, trace, steps, i - 1, m, id);
      assert Next(cfg, s, step, trace[i]);
      NextFrame(cfg, s, step, trace[i]);
      var voters := Collected(trace, steps, i - 1, m, id);
      if step.i == m && step.OnVote? {
        VoteStepIs(cfg, s, m, step.vote, step.qc, trace[i]);
        VoteCounted(cfg, s.replicas[m].chain.votes, step.vote, id, voters);
      } else if step.i == m {
        OtherStepsDropVotes(cfg, s, step, trace[i]);
        DroppedCounted(cfg, s.replicas[m].chain.votes, trace[i].replicas[m].chain.votes, id, voters);
      }
    }
  }

  lemma NoVotesCounted(cfg: Config, id: Identifier)
    ensures VotesCounted(cfg, map[], id, {})
  {
  }

  lemma VoteCounted(cfg: Config, votes: Votes, v: Vote, id: Identifier, voters: set<NodeID>)
    requires VotesCounted(cfg, votes, id, voters)
    ensures VotesCounted(cfg, AddVote(cfg.N(), votes, v), id,
                         if v.view >= 1 && v.blockID == id then voters + {v.voter} else voters)
    ensures id in votes ==> id in AddVote(cfg.N(), votes, v)
  {
    CountsAdd(cfg.N(), votes, v, id);
  }

  lemma DroppedCounted(cfg: Config, votes: Votes, rest: Votes, id: Identifier, voters: set<NodeID>)
    requires VotesCounted(cfg, votes, id, voters) && forall x | x in rest :: x in votes && rest[x] == votes[x]
    ensures VotesCounted(cfg, rest, id, if id in votes && id !in rest then {} else voters)
  {
  }

  /** In a run, a delivered vote has the collector wait with a certificate exactly if it is the kick-off vote
      or comes from a new voter that brings the distinct voters for its block since they were last forgotten
      to n * 2 / 3 + 1; the certificate is for that block and lists exactly these voters, and its holder
      leads the view it lets it enter. */
  lemma VoteBuildsIff(cfg: Config, trace: seq<System>, steps: seq<Step>, i: nat, m: nat, v: Vote, qc: QC)
    requires IsRun(cfg, trace, steps) && i < |steps| && steps[i] == OnVote(m, v, qc)
    ensures m < cfg.N() && forall j | 0 <= j <= i + 1 :: |trace[j].replicas| == cfg.N()
    ensures var s, voters := trace[i + 1].replicas[m], Collected(trace, steps, i, m, v.blockID);
            && (s.waiting.Some? <==>
                  v.view == 0 || (v.voter !in voters && |voters + {v.voter}| == cfg.N() * 2 / 3 + 1))
            && (s.waiting.Some? ==> s.waiting.value.leader == m + 1)
            && (s.waiting.Some? && v.view >= 1 ==>
                  var c := s.waiting.value;
                  && c.blockID == v.blockID && c.view == c.seqNo == v.seqNo
                  && NoDup(c.signers) && SignerSet(c.signers) == voters + {v.voter}
                  && cfg.rotation.FindLeaderFor(c.view + 1) == m + 1)
  {
    hide GoodNode, GoodPool, VotesCast, Next, AddVote, Completes, VotesCounted, ListsVotes;
    assert Next(cfg, trace[i], steps[i], trace[i + 1]);
    RunGood(cfg, trace, steps, i);
    RunGood(cfg, trace, steps, i + 1);
    NextFrame(cfg, trace[i], steps[i], trace[i + 1]);
    RunCountsVotes(cfg, trace, steps, i, m, v.blockID);
    VoteStepIs(cfg, trace[i], m, v, qc, trace[i + 1]);
    var votes, voters := trace[i].replicas[m].chain.votes, Collected(trace, steps, i, m, v.blockID);
    if v.view >= 1 {
      CompletesCounted(cfg, votes, v, voters);
      if Completes(cfg.N(), votes, v) {
        ListedVoters(cfg, votes, v, qc, voters);
      }
    }
  }

  lemma CompletesCounted(cfg: Config, votes: Votes, v: Vote, voters: set<NodeID>)
    requires VotesCounted(cfg, votes, v.blockID, voters) && v.view >= 1
    ensures Completes(cfg.N(), votes, v) <==> |voters| == cfg.N() * 2 / 3 && v.voter !in voters
  {
    var kept := VotesFor(votes, v.blockID);
    OneMoreVoter(kept, v);
    MapSize(kept);
    SubsetSize(kept.Keys, voters);
  }

  lemma ListedVoters(cfg: Config, votes: Votes, v: Vote, qc: QC, voters: set<NodeID>)
    requires VotesCounted(cfg, votes, v.blockID, voters) && v.view >= 1
    requires Completes(cfg.N(), votes, v) && Certificate(cfg.N(), votes, v, qc)
    ensures NoDup(qc.signers) && SignerSet(qc.signers) == voters + {v.voter}
  {
    OneMoreVoter(VotesFor(votes, v.blockID), v);
  }

  // ---------- blocks that came early ----------

  /** What is buffered under a view stays, unless a vote is cast for a block of that view. */
  ghost predicate StaysBuffered(r: Replica, s: Replica, view: View) {
    view in r.bufferedBlocks ==>
      || (view in s.bufferedBlocks && s.bufferedBlocks[view] == r.bufferedBlocks[view])
      || exists n | |r.sentVotes| <= n < |s.sentVotes| :: s.sentVotes[n].vote.view == view
  }

  lemma StaysTrans(r: Replica, s: Replica, t: Replica, view: View)
    requires StaysBuffered(r, s, view) && StaysBuffered(s, t, view)
    requires r.sentVotes <= s.sentVotes <= t.sentVotes
    ensures StaysBuffered(r, t, view)
  {
    if n :| |r.sentVotes| <= n < |s.sentVotes| && s.sentVotes[n].vote.view == view {
      assert t.sentVotes[n].vote.view == view;
    }
  }

  lemma OneStays(cfg: Config, k: Pool, r: Replica, b: Block, view: View)
    requires GoodReplica(cfg, k, r) && GoodPool(cfg, k) && b in k.blocks
    ensures var f := ProcessOne(cfg, r, b); !f.Panic? ==> StaysBuffered(r, f.r, view)
  {
    hide GoodReplica, GoodBlock, GoodVote, GoodTmo, ProcessOne;
    if view in r.bufferedBlocks { BufferedInPool(cfg, k, r, view); }
    if b.view > r.pace.curView + 1 {
      EarlyOne(cfg, r, b);
    } else {
      OneHolding(cfg, r, b, map[]);
    }
  }

  lemma EarlyOne(cfg: Config, r: Replica, b: Block)
    requires b.view > r.pace.curView + 1
    ensures ProcessOne(cfg, r, b) == Return(r.(bufferedBlocks := r.bufferedBlocks[b.view - 1 := b]))
  {
  }

  /** Taking the block buffered behind b off the buffer, once b was voted for. */
  lemma TakenOff(r: Replica, s: Replica, b: Block, t: Replica, view: View)
    requires StaysBuffered(r, t, view) && VoteAdded(r, b, GoOn(s)) && s.sentVotes <= t.sentVotes
    ensures StaysBuffered(r, t.(bufferedBlocks := t.bufferedBlocks - {b.view}), view)
  {
    if view == b.view {
      assert t.sentVotes[|r.sentVotes|].vote.view == view;
    }
  }

  lemma {:induction false} BlockStays(cfg: Config, k: Pool, r: Replica, b: Block, view: View)
    requires GoodReplica(cfg, k, r) && GoodPool(cfg, k) && b in k.blocks
    requires OneViewAhead(r.bufferedBlocks) && OwnBlocks(k, r.id, r.pace, r.highQC)
    ensures var s := ProcessBlock(cfg, r, b);
            s.Some? ==> StaysBuffered(r, s.value, view) && r.sentVotes <= s.value.sentVotes
    decreases |KeysFrom(r.bufferedBlocks, b.view)|
  {
    hide ProcessOne, KeysFrom, GoodPool, GoodReplica, CommitFails, StaysBuffered, OnlyDropsVotes, PruneFails, Later;
    OneStays(cfg, k, r, b, view);
    OneFrame(cfg, r, b);
    OneKeepsBuffer(cfg, r, b);
    ProcessOneGood(cfg, k, r, b);
    var f := ProcessOne(cfg, r, b);
    if f.GoOn? && b.view in f.r.bufferedBlocks {
      FewerKeys(r.bufferedBlocks, b.view);
      BufferedInPool(cfg, k, f.r, b.view);
      OwnBlocksKept(k, r, f.r);
      var next := f.r.bufferedBlocks[b.view];
      BlockStays(cfg, k, f.r, next, view);
      var t := ProcessBlock(cfg, f.r, next);
      if t.Some? {
        StaysTrans(r, f.r, t.value, view);
        TakenOff(r, f.r, b, t.value, view);
      }
    }
  }

  lemma SameStays(r: Replica, s: Replica, view: View)
    requires s.bufferedBlocks == r.bufferedBlocks
    ensures StaysBuffered(r, s, view)
  {
  }

  lemma StepStays(cfg: Config, s: System, step: Step, s': System, view: View)
    requires GoodSystem(cfg, s) && Next(cfg, s, step, s')
    ensures StaysBuffered(s.replicas[step.i], s'.replicas[step.i], view)
  {
    hide ProcessBlock, Certificate, MakeProposal, ProcessCertificate, BuildsQC, AddVote, ReceiveTmo, CompletesTmo,
      KeepTmo, StaysBuffered, GoodPool, GoodReplica, OwnBlocks;
    var r := s.replicas[step.i];
    assert GoodNode(cfg, s.pool, r);
    match step
    case OnBlock(_, b) => BlockStays(cfg, s.pool, r, b, view);
    case OnSignal(_, _) =>
      CertificateFrame(cfg, r.(waiting := None), r.waiting.value);
      SameStays(r, s'.replicas[step.i], view);
    case OnTimeout(_, t) =>
      TmoOutcome(cfg, r, t);
      SameStays(r, s'.replicas[step.i], view);
    case _ => SameStays(r, s'.replicas[step.i], view);
  }

  /** A block that came early stays buffered in every later state of a run until its replica votes for a
      block of the view before. */
  lemma {:induction false} EarlyBlockStays(cfg: Config, trace: seq<System>, steps: seq<Step>, i: nat, j: nat, m: nat,
                                           view: View)
    requires IsRun(cfg, trace, steps) && i <= j < |trace| && m < cfg.N()
    ensures |trace[i].replicas| == |trace[j].replicas| == cfg.N()
    ensures StaysBuffered(trace[i].replicas[m], trace[j].replicas[m], view)
    decreases j
  {
    hide Next, GoodNode, GoodPool, VotesCast, StaysBuffered;
    NeverBack(cfg, trace, steps, i, j, m);
    if i == j {
      SameStays(trace[i].replicas[m], trace[j].replicas[m], view);
    } else {
      EarlyBlockStays(cfg, trace, steps, i, j - 1, m, view);
      NeverBack(cfg, trace, steps, i, j - 1, m);
      NeverBack(cfg, trace, steps, j - 1, j, m);
      RunGood(cfg, trace, steps, j - 1);
      var s, step := trace[j - 1], steps[j - 1];
      assert Next(cfg, s, step, trace[j]);
      NextFrame(cfg, s, step, trace[j]);
      if step.i == m {
        StepStays(cfg, s, step, trace[j], view);
      } else {
        SameStays(s.replicas[m], trace[j].replicas[m], view);
      }
      StaysTrans(trace[i].replicas[m], s.replicas[m], trace[j].replicas[m], view);
    }
  }

  // ---------- where blocks come from ----------

  /** The step proposes b: its proposer takes the announcement of b's View and Seq, with b's payload. */
  ghost predicate Proposes(s: System, step: Step, b: Block) {
    && step.OnNewView? && step.i == b.proposer - 1 && step.i < |s.replicas| && step.payload == b.payload
    && b !in s.pool.blocks
    && var r := s.replicas[step.i];
       && r.pace.newViews != [] && r.pace.newViews[0].view == b.view && r.pace.newViews[0].seqNo == b.seqNo
       && b.qc == (if r.pace.newViews[0].proposeType.TimeoutF? then r.secHighQC else r.highQC)
  }

  lemma StepProposes(cfg: Config, s: System, step: Step, s': System, b: Block)
    requires GoodSystem(cfg, s) && Next(cfg, s, step, s') && b in s'.pool.blocks && b !in s.pool.blocks
    ensures Proposes(s, step, b)
  {
    hide ProcessBlock, Certificate, BuildsQC, GoodPool, GoodReplica, ReceiveTmo, FinishVote, CollectVote, OwnBlocks;
  }

  /** Every block of a run was proposed in one step of it and only one: its proposer took its view and Seq off
      the channel, and the block carries the payload of that step and the proposer's QC. */
  lemma {:induction false} ProposedOnce(cfg: Config, trace: seq<System>, steps: seq<Step>, i: nat, b: Block)
    returns (j: nat)
    requires IsRun(cfg, trace, steps) && i < |trace| && b in trace[i].pool.blocks
    ensures j < i && Proposes(trace[j], steps[j], b)
    ensures forall l | 0 <= l < |steps| && Proposes(trace[l], steps[l], b) && b in trace[l + 1].pool.blocks :: l == j
    decreases i
  {
    hide Next, GoodSystem, VotesCast, Proposes;
    if i == 0 {
      assert false;
    } else if b in trace[i - 1].pool.blocks {
      j := ProposedOnce(cfg, trace, steps, i - 1, b);
    } else {
      j := i - 1;
      RunGood(cfg, trace, steps, j);
      assert Next(cfg, trace[j], steps[j], trace[i]);
      StepProposes(cfg, trace[j], steps[j], trace[i], b);
      forall l | 0 <= l < |steps| && Proposes(trace[l], steps[l], b) && b in trace[l + 1].pool.blocks
        ensures l == j
      {
        NotYet(trace[l], steps[l], b);
        if l > j { PoolOnlyGrows(cfg, trace, steps, i, l); }
        if l < j { PoolOnlyGrows(cfg, trace, steps, l + 1, j); }
      }
    }
  }

  lemma NotYet(s: System, step: Step, b: Block)
    requires Proposes(s, step, b)
    ensures b !in s.pool.blocks
  {
  }

  /** Taking an announcement off the channel changes nothing else, except that a leader that proposes with
      the second of two timeout certificates gives up the pair. */
  lemma PairGivenUp(cfg: Config, trace: seq<System>, steps: seq<Step>, i: nat)
    requires IsRun(cfg, trace, steps) && i < |steps| && steps[i].OnNewView?
    ensures steps[i].i < |trace[i].replicas| == |trace[i + 1].replicas|
    ensures var r, s := trace[i].replicas[steps[i].i], trace[i + 1].replicas[steps[i].i];
            && r.pace.newViews != []
            && var nv := r.pace.newViews[0]; var leads := cfg.rotation.FindLeaderFor(nv.view) == r.id;
               && (leads <==> trace[i + 1].pool.blocks != trace[i].pool.blocks)
               && s == r.(pace := r.pace.(newViews := r.pace.newViews[1..]), highTC := s.highTC,
                          secHighTC := s.secHighTC)
               && if leads && nv.proposeType.TimeoutS? then s.secHighTC == s.highTC == None
                  else s.secHighTC == r.secHighTC && s.highTC == r.highTC
  {
    hide GoodPool, GoodReplica, VotesCast, ProcessBlock, Certificate, BuildsQC, ReceiveTmo, FinishVote, CollectVote,
      OwnBlocks;
    assert Next(cfg, trace[i], steps[i], trace[i + 1]);
    RunGood(cfg, trace, steps, i);
    var k, r := trace[i].pool, trace[i].replicas[steps[i].i];
    assert GoodNode(cfg, k, r);
    OneLeaderPerView(cfg.rotation, r.id, r.pace.newViews[0].view);
    var b := MakeProposal(DropNewView(r), r.pace.newViews[0], steps[i].payload);
    if b in k.blocks { NoBlockYet(cfg, k, r, b); }
  }
}
