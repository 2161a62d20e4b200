/** When proposals lie above the blocks they name as their predecessors. */
module Predecessors {
  import opened Types
  import opened ForestModel
  import opened ChainModel
  import opened Quorums
  import opened ReplicaModel
  import opened Invariants
  import opened ReplicaSystem
  import opened Safety

  /** The highest block, or certificate, a proposal builds on is not of a later view than the proposal.
      It may be: an announced view can be taken off its channel after newer blocks were processed. */
  predicate Timely(r: Replica, nv: NewView) {
    if nv.proposeType.TimeoutF? then r.highQC.view <= nv.view else r.highBlock.view < nv.view
  }

  /** A proposal lies above the block it names as its predecessor exactly if it is timely. */
  lemma AbovePredecessorIff(cfg: Config, k: Pool, r: Replica, payload: seq<string>, p: Block)
    requires GoodReplica(cfg, k, r) && GoodPool(cfg, k) && r.pace.newViews != []
    requires p in k.blocks && p.id == MakeProposal(DropNewView(r), r.pace.newViews[0], payload).prevID
    ensures p.seqNo < MakeProposal(DropNewView(r), r.pace.newViews[0], payload).seqNo <==>
            Timely(r, r.pace.newViews[0])
  {
    hide GoodTimeouts, GoodVotes, GoodSent, GoodPair, GoodReports, GoodStore, GoodBuffers, GoodTmo, GoodVote,
      Proposed, GoodTCs, GoodLocks;
    assert GoodBlock(cfg, k, p);
    if r.pace.newViews[0].proposeType.TimeoutF? {
      GoodQCFacts(cfg, k, r.highQC);
    } else {
      assert GoodBlock(cfg, k, r.highBlock);
      SameSeqSameBlock(cfg, k, p, r.highBlock);
    }
  }

  ghost predicate PredecessorsBelow(k: Pool) {
    forall b, p | b in k.blocks && p in k.blocks :: b.prevID == p.id ==> p.seqNo < b.seqNo
  }

  /** A step that proposes only in a timely way. */
  predicate TimelyStep(cfg: Config, s: System, step: Step) {
    step.OnNewView? && step.i < |s.replicas| && s.replicas[step.i].pace.newViews != [] ==>
      var r := s.replicas[step.i];
      cfg.rotation.IsLeader(r.id, r.pace.newViews[0].view) ==> Timely(r, r.pace.newViews[0])
  }

  ghost predicate TimelyRun(cfg: Config, trace: seq<System>, steps: seq<Step>) {
    && |trace| == |steps| + 1
    && forall i | 0 <= i < |steps| :: TimelyStep(cfg, trace[i], steps[i])
  }

  lemma BlocksAfter(cfg: Config, s: System, step: Step, s': System)
    requires Next(cfg, s, step, s')
    ensures !step.OnNewView? ==> s'.pool.blocks == s.pool.blocks
    ensures step.OnNewView? ==>
              var r := s.replicas[step.i];
              && r.pace.newViews != []
              && s'.pool.blocks ==
                 if cfg.rotation.IsLeader(r.id, r.pace.newViews[0].view)
                 then s.pool.blocks + {MakeProposal(DropNewView(r), r.pace.newViews[0], step.payload)}
                 else s.pool.blocks
  {
    hide ProcessBlock, CollectVote, FinishVote, ReceiveTmo, MakeProposal, AfterProposal, Kickoff, Sound;
  }

  // A new proposal is of a Seq, hence of an ID, that no block of the pool has.
  lemma NewID(cfg: Config, k: Pool, r: Replica, payload: seq<string>)
    requires GoodNode(cfg, k, r) && GoodPool(cfg, k) && r.pace.newViews != []
    requires cfg.rotation.IsLeader(r.id, r.pace.newViews[0].view)
    ensures !Proposed(k, MakeProposal(DropNewView(r), r.pace.newViews[0], payload).id)
  {
    hide GoodReplica, GoodTmo, GoodVote, OwnBlocks, MakeProposal, GoodQC, GoodTCs, OneBlockPerView;
    ProposalGood(cfg, k, r, payload);
    var b := MakeProposal(DropNewView(r), r.pace.newViews[0], payload);
    if p :| p in k.blocks && p.id == b.id {
      assert GoodBlock(cfg, k, p);
      NoBlockYet(cfg, k, r, p);
    }
  }

  lemma OneMoreBlock(cfg: Config, k: Pool, l: Pool, b: Block)
    requires GoodPool(cfg, k) && PredecessorsBelow(k) && l.blocks == k.blocks + {b} && Hashed(b)
    requires !Proposed(k, b.id)
    requires forall p | p in k.blocks && p.id == b.prevID :: p.seqNo < b.seqNo
    ensures PredecessorsBelow(l)
  {
    hide GoodTmo, GoodVote, GoodQC, GoodTCs, OneBlockPerView, Proposed;
    forall a, p | a in l.blocks && p in l.blocks && a.prevID == p.id ensures p.seqNo < a.seqNo {
      if a in k.blocks {
        assert GoodBlock(cfg, k, a);
      }
    }
  }

  lemma PredecessorsStep(cfg: Config, s: System, step: Step, s': System)
    requires GoodSystem(cfg, s) && Next(cfg, s, step, s') && PredecessorsBelow(s.pool) && TimelyStep(cfg, s, step)
    ensures PredecessorsBelow(s'.pool)
  {
    hide Next, GoodReplica, GoodPool, OwnBlocks, MakeProposal, Proposed;
    NextFrame(cfg, s, step, s');
    BlocksAfter(cfg, s, step, s');
    if step.OnNewView? {
      var k, r := s.pool, s.replicas[step.i];
      assert GoodNode(cfg, k, r);
      if cfg.rotation.IsLeader(r.id, r.pace.newViews[0].view) {
        var b := MakeProposal(DropNewView(r), r.pace.newViews[0], step.payload);
        ProposalGood(cfg, k, r, step.payload);
        NewID(cfg, k, r, step.payload);
        forall p | p in k.blocks && p.id == b.prevID ensures p.seqNo < b.seqNo {
          AbovePredecessorIff(cfg, k, r, step.payload, p);
        }
        assert Hashed(b) by { hide TimelyStep; }
        OneMoreBlock(cfg, k, s'.pool, b);
      }
    }
  }

  /** An untimely proposal names a block that was proposed. */
  lemma UntimelyPredecessor(cfg: Config, k: Pool, r: Replica, payload: seq<string>)
    requires GoodReplica(cfg, k, r) && GoodPool(cfg, k) && r.pace.newViews != []
    requires !Timely(r, r.pace.newViews[0])
    ensures Proposed(k, MakeProposal(DropNewView(r), r.pace.newViews[0], payload).prevID)
  {
    hide GoodTimeouts, GoodVotes, GoodSent, GoodPair, GoodReports, GoodStore, GoodBuffers, GoodTmo, GoodBlock,
      GoodLocks, VerifiesQuorum;
    if r.pace.newViews[0].proposeType.TimeoutF? {
      assert GoodVote(cfg, k, SignersVote(r.highQC, r.highQC.signers[0]));
    } else {
      assert r.highBlock in k.blocks;
    }
  }

  lemma UntimelyStep(cfg: Config, s: System, step: Step, s': System)
    requires GoodSystem(cfg, s) && Next(cfg, s, step, s') && !TimelyStep(cfg, s, step)
    ensures !PredecessorsBelow(s'.pool)
  {
    hide Next, GoodReplica, GoodPool, OwnBlocks, MakeProposal;
    NextFrame(cfg, s, step, s');
    BlocksAfter(cfg, s, step, s');
    var k, r := s.pool, s.replicas[step.i];
    assert GoodNode(cfg, k, r);
    var b := MakeProposal(DropNewView(r), r.pace.newViews[0], step.payload);
    UntimelyPredecessor(cfg, k, r, step.payload);
    var p :| p in k.blocks && p.id == b.prevID;
    AbovePredecessorIff(cfg, k, r, step.payload, p);
    assert b in s'.pool.blocks && p in s'.pool.blocks;
  }

  lemma StoredParentsBelow(k: Pool, f: Forest)
    requires GoodStore(k, f) && PredecessorsBelow(k)
    ensures ParentsBelow(f)
  {
    forall id | Full(f, id)
      ensures var b := f.vertices[id].vertex.value.block;
              var p := GetBlock(f, b.prevID);
              p.Some? ==> p.value.seqNo < b.seqNo
    {
      assert GetBlock(f, f.vertices[id].vertex.value.block.prevID).Some? ==>
          Full(f, f.vertices[id].vertex.value.block.prevID);
    }
  }

  lemma NothingProposed(k: Pool)
    requires k.blocks == {}
    ensures PredecessorsBelow(k)
  {
  }

  lemma {:induction false} TimelyRunBelow(cfg: Config, trace: seq<System>, steps: seq<Step>, i: nat)
    requires IsRun(cfg, trace, steps) && TimelyRun(cfg, trace, steps) && i < |trace|
    ensures PredecessorsBelow(trace[i].pool)
  {
    hide Next, GoodSystem, VotesCast, PredecessorsBelow, TimelyStep;
    if i == 0 {
      assert PredecessorsBelow(Init(cfg).pool) by { NothingProposed(Init(cfg).pool); }
    } else {
      TimelyRunBelow(cfg, trace, steps, i - 1);
      RunGood(cfg, trace, steps, i - 1);
      PredecessorsStep(cfg, trace[i - 1], steps[i - 1], trace[i]);
    }
  }

  /** In every state of a run every block lies above the block it names as its predecessor, if and only
      if every proposal of the run is timely. */
  lemma PredecessorsBelowIffTimely(cfg: Config, trace: seq<System>, steps: seq<Step>)
    requires IsRun(cfg, trace, steps)
    ensures (forall i | 0 <= i < |trace| :: PredecessorsBelow(trace[i].pool)) <==> TimelyRun(cfg, trace, steps)
  {
    hide Next, GoodSystem, VotesCast, PredecessorsBelow, TimelyStep;
    if TimelyRun(cfg, trace, steps) {
      forall i | 0 <= i < |trace| ensures PredecessorsBelow(trace[i].pool) {
        TimelyRunBelow(cfg, trace, steps, i);
      }
    } else {
      var i :| 0 <= i < |steps| && !TimelyStep(cfg, trace[i], steps[i]);
      RunGood(cfg, trace, steps, i);
      UntimelyStep(cfg, trace[i], steps[i], trace[i + 1]);
    }
  }
}
