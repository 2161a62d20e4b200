/**
 n replicas and the pool of everything they sent. A step is one handler at one replica. A message can
 be delivered any number of times, in any order, late or never; only replicas put messages in.
 */
module ReplicaSystem {
  import opened Types
  import opened Election
  import opened Quorums
  import opened ReplicaModel
  import opened Invariants
  import opened Handlers

  datatype System = System(replicas: seq<Replica>, pool: Pool)

  datatype Step =
    | Start(i: nat)
    | OnBlock(i: nat, block: Block)
    | OnVote(i: nat, vote: Vote, qc: QC)
    | OnSignal(i: nat, proceed: bool)
    | OnTimeout(i: nat, tmo: TMO)
    | OnTimer(i: nat)
    | OnNewView(i: nat, payload: seq<string>)

  function Init(cfg: Config): System {
    System(seq(cfg.N(), i requires i >= 0 => InitReplica(i + 1)), Pool({}, {}, {}))
  }

  function VoteSet(sent: seq<Cast>): set<Vote> {
    set c | c in sent :: c.vote
  }

  /** Where a vote is sent: to the leader two views on; the kick-off vote stays with its sender. */
  function Collector(cfg: Config, v: Vote): NodeID {
    if v.view == 0 then v.voter else cfg.rotation.FindLeaderFor(v.view + 2)
  }

  ghost predicate Next(cfg: Config, s: System, step: Step, s': System) {
    && step.i < |s.replicas| == |s'.replicas|
    && s'.replicas == s.replicas[step.i := s'.replicas[step.i]]
    && var r, r', k, k' := s.replicas[step.i], s'.replicas[step.i], s.pool, s'.pool;
       match step
       case Start(_) =>
         && r.pace.curView == 0 && cfg.rotation.IsLeader(r.id, 1)
         && r' == Kickoff(r)
         && k' == k.(votes := k.votes + {KickoffVote(r.id)})
       case OnBlock(_, b) =>
         && b in k.blocks && OneViewAhead(r.bufferedBlocks)
         && ProcessBlock(cfg, r, b) == Some(r')
         && k' == k.(votes := k.votes + VoteSet(r'.sentVotes))
       case OnVote(_, v, qc) =>
         && v in k.votes && Collector(cfg, v) == r.id && r.waiting.None?
         && (BuildsQC(cfg, r, v) ==> Certificate(cfg.N(), r.chain.votes, v, qc))
         && r' == CollectVote(cfg, r, v, qc) && k' == k
       case OnSignal(_, proceed) =>
         r.waiting.Some? && r' == FinishVote(cfg, r, proceed) && k' == k
       case OnTimeout(_, t) =>
         t in k.tmos && r' == ReceiveTmo(cfg, r, t) && k' == k
       case OnTimer(_) =>
         r' == r && k' == k.(tmos := k.tmos + {LocalTmo(r)})
       case OnNewView(_, payload) =>
         && r.pace.newViews != []
         && var nv, d := r.pace.newViews[0], DropNewView(r);
            if cfg.rotation.IsLeader(r.id, nv.view)
            then r' == AfterProposal(d, nv) && k' == k.(blocks := k.blocks + {MakeProposal(d, nv, payload)})
            else r' == d && k' == k
  }

  ghost predicate IsRun(cfg: Config, trace: seq<System>, steps: seq<Step>) {
    && |trace| == |steps| + 1 && trace[0] == Init(cfg)
    && forall i | 0 <= i < |steps| :: Next(cfg, trace[i], steps[i], trace[i + 1])
  }

  // ---------- the invariant ----------

  ghost predicate GoodNode(cfg: Config, k: Pool, r: Replica) {
    GoodReplica(cfg, k, r) && OwnBlocks(k, r.id, r.pace, r.highQC)
  }

  ghost predicate GoodSystem(cfg: Config, s: System) {
    && |s.replicas| == cfg.N()
    && (forall i | 0 <= i < |s.replicas| :: s.replicas[i].id == i + 1 && GoodNode(cfg, s.pool, s.replicas[i]))
    && GoodPool(cfg, s.pool)
  }

  /** A replica takes back no vote and no report, and its view, lock and highest certificate never fall. */
  predicate NotBack(r: Replica, s: Replica) {
    && r.sentVotes <= s.sentVotes && r.reports <= s.reports && r.preferredSeq <= s.preferredSeq
    && r.pace.curView <= s.pace.curView && r.highQC.view <= s.highQC.view
  }

  predicate IsCast(r: Replica, v: Vote) {
    exists i | 0 <= i < |r.sentVotes| :: r.sentVotes[i].vote == v
  }

  /** Every vote in the pool was sent by its voter, after its voting rule accepted the block. */
  predicate VotesCast(s: System) {
    forall v | v in s.pool.votes && v.view >= 1 ::
      1 <= v.voter <= |s.replicas| && IsCast(s.replicas[v.voter - 1], v)
  }

  lemma InitGood(cfg: Config)
    ensures GoodSystem(cfg, Init(cfg)) && VotesCast(Init(cfg))
  {
  }

  /** Growing the pool by votes and timeouts that are good keeps it good. */
  lemma PoolGrows(cfg: Config, k: Pool, l: Pool)
    requires GoodPool(cfg, k) && Within(k, l) && l.blocks == k.blocks
    requires forall v | v in l.votes && v !in k.votes :: GoodVote(cfg, k, v)
    requires forall t | t in l.tmos && t !in k.tmos :: GoodTmo(cfg, k, t)
    ensures GoodPool(cfg, l)
  {
    hide GoodBlock, GoodVote;
    forall b | b in l.blocks ensures GoodBlock(cfg, l, b) { BlockGrows(cfg, k, l, b); }
    forall v | v in l.votes ensures GoodVote(cfg, l, v) { VoteGrows(cfg, k, l, v); }
    forall t | t in l.tmos ensures GoodTmo(cfg, l, t) {
      assert GoodTmo(cfg, k, t);
      QCGrows(cfg, k, l, t.highQC);
    }
  }

  /** A step that adds no block keeps the system good if it keeps its replica good and adds good messages. */
  lemma StepGood(cfg: Config, s: System, s': System, i: nat)
    requires GoodSystem(cfg, s) && i < |s.replicas| == |s'.replicas|
    requires s'.replicas == s.replicas[i := s'.replicas[i]]
    requires Within(s.pool, s'.pool) && s'.pool.blocks == s.pool.blocks
    requires forall v | v in s'.pool.votes && v !in s.pool.votes :: GoodVote(cfg, s.pool, v)
    requires forall t | t in s'.pool.tmos && t !in s.pool.tmos :: GoodTmo(cfg, s.pool, t)
    requires GoodReplica(cfg, s.pool, s'.replicas[i]) && Advances(s.replicas[i], s'.replicas[i])
    ensures GoodSystem(cfg, s') && NotBack(s.replicas[i], s'.replicas[i])
  {
    hide GoodPool, GoodReplica, GoodVote, GoodTmo, OwnBlocks, Advances;
    PoolGrows(cfg, s.pool, s'.pool);
    OwnBlocksKept(s.pool, s.replicas[i], s'.replicas[i]);
    AdvancesKeepsID(s.replicas[i], s'.replicas[i]);
    forall j | 0 <= j < |s'.replicas|
      ensures s'.replicas[j].id == j + 1 && GoodNode(cfg, s'.pool, s'.replicas[j])
    {
      ReplicaGrows(cfg, s.pool, s'.pool, s'.replicas[j]);
      OwnBlocksSame(s.pool, s'.pool, s'.replicas[j]);
    }
  }

  lemma AdvancesKeepsID(r: Replica, s: Replica)
    requires Advances(r, s)
    ensures s.id == r.id && NotBack(r, s)
  {
  }

  lemma OwnBlocksSame(k: Pool, l: Pool, r: Replica)
    requires OwnBlocks(k, r.id, r.pace, r.highQC) && l.blocks == k.blocks
    ensures OwnBlocks(l, r.id, r.pace, r.highQC)
  {
  }

  // ---------- proposing ----------

  /** The block a proposal names as its predecessor was proposed, or is none. */
  lemma PredecessorProposed(cfg: Config, k: Pool, r: Replica, payload: seq<string>)
    requires GoodReplica(cfg, k, r) && GoodPool(cfg, k) && r.pace.newViews != []
    ensures var b := MakeProposal(DropNewView(r), r.pace.newViews[0], payload);
            b.prevID == NoID || Proposed(k, b.prevID)
  {
    hide GoodTimeouts, GoodVotes, GoodSent, GoodPair, GoodReports, GoodStore, GoodBuffers, GoodBlock, GoodTmo,
      VerifiesQuorum, GoodViews, GoodLocks;
    if !Bootstrap(r.highQC) {
      assert GoodVote(cfg, k, SignersVote(r.highQC, r.highQC.signers[0]));
    }
  }

  /** What the leader of a view proposes is a good block. */
  lemma ProposalGood(cfg: Config, k: Pool, r: Replica, payload: seq<string>)
    requires GoodReplica(cfg, k, r) && GoodPool(cfg, k) && r.pace.newViews != []
    requires cfg.rotation.IsLeader(r.id, r.pace.newViews[0].view)
    ensures var nv := r.pace.newViews[0]; var b := MakeProposal(DropNewView(r), nv, payload);
            && GoodBlock(cfg, k, b) && b.proposer == r.id && b.view == nv.view && b.qc.view <= r.highQC.view
  {
    hide GoodTimeouts, GoodVotes, GoodSent, GoodPair, GoodReports, GoodStore, GoodQC, GoodBuffers, Proposed, GoodPool;
    PredecessorProposed(cfg, k, r, payload);
    PairTogether(cfg, k, r);
  }

  lemma PairTogether(cfg: Config, k: Pool, r: Replica)
    requires GoodPair(cfg, k, r.secHighTC, r.highTC)
    ensures r.highTC.None? <==> r.secHighTC.None?
  {
  }

  /** A node proposes in a view only once, and no other node proposes in it. */
  lemma NoBlockYet(cfg: Config, k: Pool, r: Replica, b: Block)
    requires GoodNode(cfg, k, r) && GoodPool(cfg, k) && r.pace.newViews != []
    requires b in k.blocks && b.view == r.pace.newViews[0].view
    ensures !cfg.rotation.IsLeader(r.id, b.view)
  {
    assert GoodBlock(cfg, k, b);
    OneLeaderPerView(cfg.rotation, r.id, b.view);
    OneLeaderPerView(cfg.rotation, b.proposer, b.view);
  }

  lemma AfterProposalGood(cfg: Config, k: Pool, r: Replica)
    requires GoodReplica(cfg, k, r) && r.pace.newViews != []
    ensures GoodReplica(cfg, k, AfterProposal(DropNewView(r), r.pace.newViews[0]))
    ensures GoodReplica(cfg, k, DropNewView(r))
  {
    hide GoodTimeouts, GoodVotes, GoodSent, GoodReports, GoodStore, GoodQC, GoodBuffers;
  }

  lemma ProposeGood(cfg: Config, s: System, s': System, i: nat, payload: seq<string>)
    requires GoodSystem(cfg, s) && Next(cfg, s, OnNewView(i, payload), s')
    ensures GoodSystem(cfg, s') && NotBack(s.replicas[i], s'.replicas[i])
  {
    hide GoodReplica, GoodBlock, GoodVote, GoodTmo, MakeProposal, AfterProposal;
    var r, k, l := s.replicas[i], s.pool, s'.pool;
    var nv := r.pace.newViews[0];
    AfterProposalGood(cfg, k, r);
    AfterProposalFrame(r);
    if cfg.rotation.IsLeader(r.id, nv.view) {
      var b := MakeProposal(DropNewView(r), nv, payload);
      ProposalGood(cfg, k, r, payload);
      forall a | a in k.blocks ensures a.view != b.view {
        if a.view == b.view { NoBlockYet(cfg, k, r, a); }
      }
      forall a | a in l.blocks ensures GoodBlock(cfg, l, a) { BlockGrows(cfg, k, l, a); }
      forall v | v in l.votes ensures GoodVote(cfg, l, v) { VoteGrows(cfg, k, l, v); }
      forall t | t in l.tmos ensures GoodTmo(cfg, l, t) { TmoGrows(cfg, k, l, t); }
    }
    forall j | 0 <= j < |s'.replicas|
      ensures s'.replicas[j].id == j + 1 && GoodNode(cfg, l, s'.replicas[j])
    {
      ReplicaGrows(cfg, k, l, s'.replicas[j]);
      OwnBlocksAfter(cfg, s, s', i, payload, j);
    }
  }

  lemma TmoGrows(cfg: Config, k: Pool, l: Pool, t: TMO)
    requires GoodTmo(cfg, k, t) && Within(k, l)
    ensures GoodTmo(cfg, l, t)
  {
    hide GoodQC;
    QCGrows(cfg, k, l, t.highQC);
  }

  lemma AfterProposalFrame(r: Replica)
    requires r.pace.newViews != []
    ensures var s := AfterProposal(DropNewView(r), r.pace.newViews[0]);
            && s.id == r.id && s.highQC == r.highQC && s.pace.curView == r.pace.curView
            && s.pace.newViews == r.pace.newViews[1..] && NotBack(r, s)
  {
  }

  lemma OwnBlocksAfter(cfg: Config, s: System, s': System, i: nat, payload: seq<string>, j: nat)
    requires GoodSystem(cfg, s) && Next(cfg, s, OnNewView(i, payload), s') && j < |s.replicas|
    ensures s'.replicas[j].id == j + 1
    ensures OwnBlocks(s'.pool, s'.replicas[j].id, s'.replicas[j].pace, s'.replicas[j].highQC)
  {
    hide GoodPool, GoodBlock, MakeProposal, AfterProposal, GoodTimeouts, GoodVotes, GoodSent, GoodPair, GoodReports,
      GoodStore, GoodQC, GoodBuffers;
    var r := s.replicas[i];
    AfterProposalFrame(r);
    if cfg.rotation.IsLeader(r.id, r.pace.newViews[0].view) {
      ProposalGood(cfg, s.pool, r, payload);
    }
  }

  // ---------- every step, every run ----------

  lemma NextGood(cfg: Config, s: System, step: Step, s': System)
    requires GoodSystem(cfg, s) && Next(cfg, s, step, s')
    ensures GoodSystem(cfg, s') && Within(s.pool, s'.pool)
    ensures NotBack(s.replicas[step.i], s'.replicas[step.i])
  {
    hide GoodReplica, Advances, ProcessBlock, CollectVote, FinishVote, ReceiveTmo, Certificate, GoodBlock, OwnBlocks,
      GoodPool;
    var r, k := s.replicas[step.i], s.pool;
    assert GoodNode(cfg, k, r);
    match step
    case Start(i) =>
      KickoffGood(cfg, k, r);
      StepGood(cfg, s, s', i);
    case OnBlock(i, b) =>
      ProcessBlockGood(cfg, k, r, b);
      SentGood(cfg, k, s'.replicas[i]);
      StepGood(cfg, s, s', i);
    case OnVote(i, v, qc) =>
      CollectVoteGood(cfg, k, r, v, qc);
      StepGood(cfg, s, s', i);
    case OnSignal(i, proceed) =>
      FinishVoteGood(cfg, k, r, proceed);
      StepGood(cfg, s, s', i);
    case OnTimeout(i, t) =>
      ReceiveTmoGood(cfg, k, r, t);
      StepGood(cfg, s, s', i);
    case OnTimer(i) =>
      TimerGood(cfg, k, r);
      StepGood(cfg, s, s', i);
    case OnNewView(i, payload) =>
      ProposeGood(cfg, s, s', i, payload);
  }

  lemma NextFrame(cfg: Config, s: System, step: Step, s': System)
    requires Next(cfg, s, step, s')
    ensures step.i < |s.replicas| == |s'.replicas| && s'.replicas == s.replicas[step.i := s'.replicas[step.i]]
  {
    hide ProcessBlock, CollectVote, FinishVote, ReceiveTmo, Certificate, MakeProposal, AfterProposal, Kickoff, Sound;
  }

  lemma NewVotes(cfg: Config, s: System, step: Step, s': System, v: Vote)
    requires Next(cfg, s, step, s') && v in s'.pool.votes && v !in s.pool.votes && v.view >= 1
    ensures v in VoteSet(s'.replicas[step.i].sentVotes)
  {
    hide ProcessBlock, CollectVote, FinishVote, ReceiveTmo, Certificate, MakeProposal, AfterProposal, Kickoff,
      VoteSet;
  }

  lemma NextCasts(cfg: Config, s: System, step: Step, s': System)
    requires GoodSystem(cfg, s) && VotesCast(s) && Next(cfg, s, step, s')
    ensures VotesCast(s')
  {
    hide Next, GoodNode, GoodPool, IsCast, VoteSet, NotBack, Within;
    NextFrame(cfg, s, step, s');
    NextGood(cfg, s, step, s');
    var i := step.i;
    forall v | v in s'.pool.votes && v.view >= 1
      ensures 1 <= v.voter <= |s'.replicas| && IsCast(s'.replicas[v.voter - 1], v)
    {
      if v in s.pool.votes {
        CastKept(s.replicas[i], s'.replicas[i], v);
      } else {
        NewVotes(cfg, s, step, s', v);
        SentIsCast(cfg, s'.pool, s'.replicas[i], v);
      }
    }
  }

  lemma CastKept(r: Replica, s: Replica, v: Vote)
    requires NotBack(r, s)
    ensures IsCast(r, v) ==> IsCast(s, v)
  {
    if IsCast(r, v) {
      var i :| 0 <= i < |r.sentVotes| && r.sentVotes[i].vote == v;
      assert s.sentVotes[i].vote == v;
    }
  }

  lemma SentIsCast(cfg: Config, k: Pool, r: Replica, v: Vote)
    requires GoodNode(cfg, k, r) && v in VoteSet(r.sentVotes)
    ensures v.voter == r.id && IsCast(r, v)
  {
    hide GoodVote, GoodTimeouts, GoodVotes, GoodPair, GoodReports, GoodStore, GoodQC, GoodBuffers, OwnBlocks;
    var i :| 0 <= i < |r.sentVotes| && r.sentVotes[i].vote == v;
    assert GoodCast(cfg, k, r.id, r.sentVotes[i]);
  }

  lemma KickoffGood(cfg: Config, k: Pool, r: Replica)
    requires GoodReplica(cfg, k, r) && r.pace.curView == 0
    ensures GoodReplica(cfg, k, Kickoff(r)) && Advances(r, Kickoff(r)) && GoodVote(cfg, k, KickoffVote(r.id))
  {
    hide GoodTimeouts, GoodVotes, GoodSent, GoodPair, GoodReports, GoodStore, GoodQC, GoodBuffers;
    EnterViewGood(r.pace, 0, NoTimeout);
  }

  lemma SentGood(cfg: Config, k: Pool, r: Replica)
    requires GoodReplica(cfg, k, r)
    ensures forall v | v in VoteSet(r.sentVotes) :: GoodVote(cfg, k, v)
  {
    hide GoodVote;
  }

  lemma TimerGood(cfg: Config, k: Pool, r: Replica)
    requires GoodReplica(cfg, k, r)
    ensures GoodTmo(cfg, k, LocalTmo(r)) && Advances(r, r)
  {
    hide GoodTimeouts, GoodVotes, GoodSent, GoodPair, GoodReports, GoodStore, GoodQC, GoodBuffers;
  }

  /** Every state of every run is good. */
  lemma {:induction false} RunGood(cfg: Config, trace: seq<System>, steps: seq<Step>, i: nat)
    requires IsRun(cfg, trace, steps) && i < |trace|
    ensures GoodSystem(cfg, trace[i]) && VotesCast(trace[i])
  {
    hide GoodSystem, Next, VotesCast;
    if i == 0 {
      InitGood(cfg);
    } else {
      RunGood(cfg, trace, steps, i - 1);
      NextGood(cfg, trace[i - 1], steps[i - 1], trace[i]);
      NextCasts(cfg, trace[i - 1], steps[i - 1], trace[i]);
    }
  }

  /** Along a run nothing sent is taken back. */
  lemma {:induction false} PoolOnlyGrows(cfg: Config, trace: seq<System>, steps: seq<Step>, i: nat, j: nat)
    requires IsRun(cfg, trace, steps) && i <= j < |trace|
    ensures Within(trace[i].pool, trace[j].pool)
  {
    hide GoodSystem, Next, VotesCast;
    if i < j {
      PoolOnlyGrows(cfg, trace, steps, i, j - 1);
      RunGood(cfg, trace, steps, j - 1);
      NextGood(cfg, trace[j - 1], steps[j - 1], trace[j]);
    }
  }
}
