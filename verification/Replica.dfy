/**
 A replica as the program keeps it: a pacemaker, a block chain and the fields of MTchs and MHotStuff,
 changed in place by the handlers. Each handler is tied to its function on replica values.
 */
module Replicas {
  import opened Types
  import opened ForestModel
  import opened ChainModel
  import opened Quorums
  import opened BlockChains
  import opened Pacemakers
  import opened ReplicaModel

  /** What the collector of votes waits for before it uses a certificate. */
  datatype SignalV = Continue(view: View) | Drop(view: View)

  /** A drop signal counts only for a certificate of an earlier view. */
  predicate Decides(s: SignalV, view: View) {
    s.Continue? || s.view > view
  }

  /** Reads signals up to the first that decides about a certificate of the given view. */
  method AwaitSignal(signals: seq<SignalV>, view: View) returns (decision: Option<bool>)
    ensures decision.None? <==> forall s | s in signals :: !Decides(s, view)
    ensures decision.Some? ==>
              exists k | 0 <= k < |signals| ::
                && Decides(signals[k], view) && decision.value == signals[k].Continue?
                && forall s | s in signals[..k] :: !Decides(s, view)
  {
    for k := 0 to |signals|
      invariant forall s | s in signals[..k] :: !Decides(s, view)
    {
      if signals[k].Continue? {
        assert Decides(signals[k], view);
        return Some(true);
      } else if signals[k].view > view {
        assert Decides(signals[k], view);
        return Some(false);
      }
    }
    return None;
  }

  class HotStuff {
    const cfg: Config
    const id: NodeID
    const pm: Pacemaker
    const bc: BlockChain
    var highQC: QC
    var secHighQC: QC
    var highTC: Option<TC>
    var secHighTC: Option<TC>
    var highBlock: Block
    var voteType: ProposeType
    var preferredSeq: Seq
    var secPreferredSeq: Seq
    var lastVotedSeq: Seq
    var bufferedQCs: map<Identifier, QC>
    var bufferedBlocks: map<View, Block>
    var waiting: Option<QC>
    // What was sent to vote aggregators and put on the channels of committed and forked blocks.
    var sentVotes: seq<Cast>
    var reports: seq<Report>

    ghost function State(): Replica
      reads this, pm, pm.timeoutController, bc, bc.forest, bc.quorum
    {
      Replica(id, pm.State(), bc.State(), highQC, secHighQC, highTC, secHighTC, highBlock, voteType, preferredSeq,
              secPreferredSeq, lastVotedSeq, bufferedQCs, bufferedBlocks, waiting, sentVotes, reports)
    }

    ghost predicate Valid()
      reads this, bc.forest, bc.forest.containers
    {
      && bc.Valid() && OneViewAhead(bufferedBlocks) && (waiting.Some? ==> waiting.value.leader == id)
      && pm.timeoutController.n == cfg.N() && bc.quorum.total == cfg.N()
    }

    constructor (cfg: Config, id: NodeID)
      ensures Valid() && State() == InitReplica(id) && this.cfg == cfg
      ensures fresh(pm) && fresh(pm.timeoutController) && fresh(bc) && fresh(bc.forest) && fresh(bc.quorum)
      ensures bc.forest.containers == {}
    {
      this.cfg, this.id := cfg, id;
      pm := new Pacemaker(cfg.N());
      bc := new BlockChain(cfg.N());
      highQC, secHighQC, highTC, secHighTC, highBlock := GenesisQC, GenesisQC, None, None, GenesisBlock;
      voteType, preferredSeq, secPreferredSeq, lastVotedSeq := NoTimeout, 0, 0, 0;
      bufferedQCs, bufferedBlocks, waiting, sentVotes, reports := map[], map[], None, [], [];
    }

    // ---------- certificates ----------

    method UpdateHighQC(qc: QC)
      modifies this`highQC, this`secHighQC
      ensures State() == ReplicaModel.UpdateHighQC(old(State()), qc)
    {
      if qc.view > highQC.view {
        secHighQC := highQC;
        highQC := qc;
      }
    }

    method UpdateHighTC(tc: Option<TC>)
      modifies this`highTC, this`secHighTC
      ensures State() == old(State()).(secHighTC := old(highTC), highTC := tc)
    {
      secHighTC := highTC;
      highTC := tc;
    }

    /** Not found: a block the lock depends on is missing. */
    method UpdatePreferredSeq(qc: QC) returns (found: bool)
      requires Valid()
      modifies this`preferredSeq, this`secPreferredSeq
      ensures var s := ReplicaModel.UpdatePreferredSeq(cfg, old(State()), qc);
              found == s.Some? && State() == if found then s.value else old(State())
    {
      hide GetBlock, BlockChain.Valid;
      if cfg.protocol.MTchs? {
        if qc.seqNo < 2 {
          return true;
        }
        var b := bc.GetBlockByID(qc.blockID);
        if b.None? {
          return false;
        }
        if qc.seqNo > preferredSeq {
          secPreferredSeq := preferredSeq;
          preferredSeq := qc.seqNo;
        }
        return true;
      }
      if qc.seqNo < 4 {
        return true;
      }
      var b1 := bc.GetBlockByID(qc.blockID);
      if b1.None? {
        return false;
      }
      var grandParent := bc.GetBlockByID(b1.value.qc.blockID);
      if grandParent.None? {
        return false;
      }
      if grandParent.value.seqNo > preferredSeq {
        preferredSeq := grandParent.value.seqNo;
      }
      return true;
    }

    /** Keeps a certificate until the block it depends on arrives. */
    method BufferQC(qc: QC)
      requires Valid()
      modifies this`bufferedQCs
      ensures Valid() && State() == old(State()).(bufferedQCs := old(bufferedQCs)[qc.blockID := qc])
    {
      hide BlockChain.Valid;
      bufferedQCs := bufferedQCs[qc.blockID := qc];
    }

    method EnterView(view: View, seqNo: Seq, pt: ProposeType)
      requires Valid()
      modifies pm
      ensures Valid() && State() == old(State()).(pace := Pacemakers.EnterView(old(State()).pace, view, seqNo, pt))
    {
      hide BlockChain.Valid, Pacemakers.EnterView;
      pm.AdvanceView(view, seqNo, pt);
    }

    method ProcessCertificate(qc: QC)
      requires Valid() && !CertificateFails(State(), qc)
      modifies this`preferredSeq, this`secPreferredSeq, this`highQC, this`secHighQC, this`bufferedQCs, pm
      ensures Valid() && State() == ReplicaModel.ProcessCertificate(cfg, old(State()), qc)
    {
      hide Pacemakers.EnterView, ReplicaModel.UpdatePreferredSeq, VerifiesQuorum, RunsPastEnd, BlockChain.Valid,
        State;
      assert FieldsMatch() by { FieldsOfState(); }
      if qc.view < pm.curView {
        return;
      }
      if qc.leader != id {
        var ok := VerifyQuorumSignature(qc.aggSig, qc.blockID, qc.signers);
        if !ok {
          return;
        }
      }
      var found := UpdatePreferredSeq(qc);
      if !found {
        assert FieldsMatch() by { FieldsOfState(); }
        BufferQC(qc);
        return;
      }
      UpdateHighQC(qc);
      EnterView(qc.view, qc.seqNo, NoTimeout);
    }

    // ---------- blocks ----------

    method UpdateHighBlock(b: Block)
      modifies this`highBlock
      ensures highBlock == if b.view > old(highBlock).view then b else old(highBlock)
    {
      if b.view > highBlock.view {
        highBlock := b;
      }
    }

    /** The source indexes the block's pair of timeout certificates; was is the view before its QC was used. */
    method FollowTC(was: View, b: Block)
      requires Valid() && ReplicaModel.FollowTC(cfg, was, State(), b).Some?
      modifies this`voteType, this`highTC, this`secHighTC, pm
      ensures Valid() && State() == ReplicaModel.FollowTC(cfg, was, old(State()), b).value
    {
      hide Pacemakers.EnterView, BlockChain.Valid;
      if b.tc.None? {
        if cfg.protocol.MTchs? {
          voteType := NoTimeout;
        }
        return;
      }
      if b.proposer == id {
        return;
      }
      var tc, maxView := b.tc.value, MaxTC(b).view;
      if cfg.protocol.MTchs? {
        if was <= tc.view {
          if tc.view + 1 == maxView {
            EnterView(tc.view, tc.seqNo, TimeoutF);
            voteType := TimeoutF;
          } else if tc.view == maxView {
            EnterView(tc.view, tc.seqNo, TimeoutS);
            voteType := TimeoutS;
            UpdateHighTC(None);
            UpdateHighTC(None);
          }
        }
      } else {
        if was <= tc.view {
          EnterView(tc.view, tc.seqNo, TimeoutF);
        }
        if tc.view == maxView {
          UpdateHighTC(None);
          UpdateHighTC(None);
        }
      }
    }

    /** What the leader of the next view does with the block's pair of timeout certificates. */
    method CollectTCs(b: Block)
      requires Valid() && ReplicaModel.CollectTCs(cfg, State(), b).Some?
      modifies this`voteType, this`highTC, this`secHighTC, pm
      ensures Valid() && State() == ReplicaModel.CollectTCs(cfg, old(State()), b).value
    {
      hide Pacemakers.EnterView, BlockChain.Valid;
      if !cfg.rotation.IsLeader(id, pm.curView + 1) || b.tc.None? {
        return;
      }
      var maxTC := MaxTC(b);
      if pm.curView <= maxTC.view {
        EnterView(maxTC.view, maxTC.seqNo, TimeoutS);
        if cfg.protocol.MTchs? {
          voteType := TimeoutS;
        }
        UpdateHighTC(b.tcs[0]);
        UpdateHighTC(b.tcs[1]);
      }
    }

    method CommitRule(qc: QC) returns (target: Option<Block>)
      requires Valid()
      ensures target == CommitTarget(cfg, State().chain.forest, qc)
    {
      hide GetBlock, BlockChain.Valid;
      var b1 := bc.GetBlockByID(qc.blockID);
      if b1.None? {
        return None;
      }
      var b0 := bc.GetBlockByID(b1.value.qc.blockID);
      if b0.None? || cfg.protocol.MTchs? {
        return b0;
      }
      target := bc.GetBlockByID(b0.value.qc.blockID);
    }

    /** Whether ProcessBlock goes on after checking the commit rule. */
    method Commit(b: Block) returns (goOn: bool)
      requires Valid() && !CommitStep(cfg, State(), b).Panic?
      modifies this`reports, bc, bc.quorum, bc.forest
      ensures Valid() && bc.forest.containers == old(bc.forest.containers)
      ensures CommitStep(cfg, old(State()), b) == if goOn then GoOn(State()) else Return(State())
    {
      hide HashLinked, CommitTarget, ChainModel.CommitBlock;
      if !CommitGuard(cfg, b) {
        return true;
      }
      var target := CommitRule(b.qc);
      if target.None? {
        return false;
      }
      var ok, committed, forked := bc.CommitBlock(target.value.id, pm.curSeq);
      if !ok {
        return false;
      }
      reports := reports + [Report(b, target.value, committed, forked)];
      return true;
    }

    method UseBufferedQC(b: Block)
      requires Valid() && (b.id in bufferedQCs ==> !CertificateFails(State(), bufferedQCs[b.id]))
      modifies this`preferredSeq, this`secPreferredSeq, this`highQC, this`secHighQC, this`bufferedQCs, pm
      ensures Valid() && State() == ReplicaModel.UseBufferedQC(cfg, old(State()), b)
    {
      hide BlockChain.Valid, ReplicaModel.ProcessCertificate, CertificateFails;
      if b.id in bufferedQCs {
        ProcessCertificate(bufferedQCs[b.id]);
        bufferedQCs := bufferedQCs - {b.id};
      }
    }

    function Context(): StateContext
      reads this
    {
      StateContext(voteType, preferredSeq, secPreferredSeq, lastVotedSeq)
    }

    method VotingRule(b: Block, ctx: StateContext) returns (ok: bool)
      requires Valid()
      ensures ok == ReplicaModel.VotingRule(cfg, State().chain.forest, ctx, b)
    {
      if b.view < FirstChecked(cfg) {
        return true;
      }
      var parent := bc.GetBlockByID(b.qc.blockID);
      if parent.None? {
        return false;
      }
      return b.seqNo > ctx.lastVotedSeq && parent.value.seqNo >= Lock(cfg, ctx);
    }

    method StoreBlock(b: Block)
      requires Valid()
      modifies this`highBlock, bc.forest, bc.forest.containers
      ensures Valid() && State() == ReplicaModel.StoreBlock(old(State()), b)
      ensures fresh(bc.forest.containers - old(bc.forest.containers))
    {
      hide BlockChain.Valid, AddVertex;
      bc.AddBlock(b);
      UpdateHighBlock(b);
    }

    /** Tells whether a vote was sent; stored is the context from just after storing the block. */
    method VoteOn(b: Block, stored: StateContext) returns (voted: bool)
      requires Valid() && !VoteStep(cfg, State(), stored, b).Panic?
      modifies this, pm
      ensures Valid() && VoteStep(cfg, old(State()), stored, b) == if voted then GoOn(State()) else Return(State())
    {
      hide BlockChain.Valid, ReplicaModel.UseBufferedQC, ReplicaModel.VotingRule, CertificateFails;
      UseBufferedQC(b);
      var ctx := if cfg.protocol.MTchs? then stored else Context();
      voted := VotingRule(b, ctx);
      if voted {
        sentVotes := sentVotes + [Cast(MakeVote(b.view, b.seqNo, id, b.id), Lock(cfg, ctx))];
      }
    }

    /** From the point where the block is accepted; tells whether a vote was sent. */
    method AcceptBlock(b: Block) returns (voted: bool)
      requires Valid() && !ReplicaModel.AcceptBlock(cfg, State(), b).Panic?
      modifies this, pm, bc, bc.quorum, bc.forest, bc.forest.containers
      ensures Valid() && fresh(bc.forest.containers - old(bc.forest.containers))
      ensures ReplicaModel.AcceptBlock(cfg, old(State()), b) == if voted then GoOn(State()) else Return(State())
    {
      hide Valid, State, ReplicaModel.StoreBlock, ReplicaModel.CollectTCs, CommitStep, VoteStep;
      StoreBlock(b);
      var stored := Context();
      assert stored == ContextOf(State()) by { ContextOfState(); }
      CollectTCs(b);
      var goOn := Commit(b);
      if !goOn {
        return false;
      }
      voted := VoteOn(b, stored);
    }

    lemma ContextOfState()
      ensures Context() == ContextOf(State())
    {
    }

    method BufferBlock(b: Block)
      requires Valid() && b.view >= 1
      modifies this`bufferedBlocks
      ensures Valid() && State() == old(State()).(bufferedBlocks := old(bufferedBlocks)[b.view - 1 := b])
    {
      hide BlockChain.Valid;
      bufferedBlocks := bufferedBlocks[b.view - 1 := b];
    }

    /** ProcessBlock without the block buffered behind it; tells whether a vote was sent. */
    method ProcessOne(b: Block) returns (voted: bool)
      requires Valid() && !ReplicaModel.ProcessOne(cfg, State(), b).Panic?
      modifies this, pm, bc, bc.quorum, bc.forest, bc.forest.containers
      ensures Valid() && fresh(bc.forest.containers - old(bc.forest.containers))
      ensures ReplicaModel.ProcessOne(cfg, old(State()), b) == if voted then GoOn(State()) else Return(State())
    {
      hide Valid, State, ReplicaModel.ProcessCertificate, ReplicaModel.FollowTC, ReplicaModel.AcceptBlock,
        CertificateFails;
      assert FieldsMatch() by { FieldsOfState(); }
      var was := pm.curView;
      if b.view > was + 1 {
        BufferBlock(b);
        return false;
      }
      CertificateKeeps(cfg, State(), b.qc);
      if b.proposer != id {
        ProcessCertificate(b.qc);
      }
      FollowKeeps(cfg, was, State(), b);
      FollowTC(was, b);
      assert FieldsMatch() by { FieldsOfState(); }
      if b.view < pm.curView || !cfg.rotation.IsLeader(b.proposer, b.view) {
        return false;
      }
      voted := AcceptBlock(b);
    }

    ghost predicate FieldsMatch()
      reads this, pm, pm.timeoutController, bc, bc.forest, bc.quorum
    {
      && State().pace.curView == pm.curView && State().id == id
      && State().bufferedBlocks == bufferedBlocks && State().bufferedQCs == bufferedQCs
    }

    lemma FieldsOfState()
      ensures FieldsMatch()
    {
    }

    method ForgetBlock(v: View)
      requires Valid()
      modifies this`bufferedBlocks
      ensures Valid() && State() == old(State()).(bufferedBlocks := old(bufferedBlocks) - {v})
    {
      hide BlockChain.Valid;
      bufferedBlocks := bufferedBlocks - {v};
    }

    /** Processes the block and, after voting for it, the block buffered behind it. */
    method ProcessBlock(b: Block)
      requires Valid() && OneViewAhead(State().bufferedBlocks)
      requires ReplicaModel.ProcessBlock(cfg, State(), b).Some?
      modifies this, pm, bc, bc.quorum, bc.forest, bc.forest.containers
      ensures Valid() && fresh(bc.forest.containers - old(bc.forest.containers))
      ensures Some(State()) == ReplicaModel.ProcessBlock(cfg, old(State()), b)
      decreases |KeysFrom(State().bufferedBlocks, b.view)|
    {
      hide Valid, State, ReplicaModel.ProcessOne, KeysFrom;
      OneKeepsBuffer(cfg, State(), b);
      var voted := ProcessOne(b);
      assert FieldsMatch() by { FieldsOfState(); }
      if voted && b.view in bufferedBlocks {
        FewerKeys(bufferedBlocks, b.view);
        ProcessBlock(bufferedBlocks[b.view]);
        assert FieldsMatch() by { FieldsOfState(); }
        ForgetBlock(b.view);
      }
    }

    // ---------- votes and timeouts ----------

    /** ProcessVote up to the point where it waits with the certificate it built. */
    method CollectVote(v: Vote) returns (ghost qc: QC)
      requires Valid()
      modifies this`waiting, bc.quorum
      ensures Valid()
      ensures BuildsQC(cfg, old(State()), v) ==> Certificate(cfg.N(), old(State()).chain.votes, v, qc)
      ensures State() == ReplicaModel.CollectVote(cfg, old(State()), v, qc)
    {
      hide BlockChain.Valid, AddVote, Completes, Certificate;
      qc := GenesisQC;
      if v.voter != id && !PubVerify(v.signature, v.blockID, v.voter) {
        return;
      }
      var built, cert := bc.quorum.Add(v);
      if !built {
        return;
      }
      qc := cert.value;
      waiting := Some(cert.value.(leader := id));
    }

    /** ProcessVote from the point where it waits for a signal; it goes on waiting if none decides. */
    method FinishVote(signals: seq<SignalV>) returns (decision: Option<bool>)
      requires Valid() && waiting.Some?
      modifies this, pm
      ensures Valid()
      ensures State() == if decision.None? then old(State())
                         else ReplicaModel.FinishVote(cfg, old(State()), decision.value)
    {
      hide BlockChain.Valid, ReplicaModel.ProcessCertificate, GetBlock;
      var qc := waiting.value;
      decision := AwaitSignal(signals, qc.view);
      if decision.None? {
        return;
      }
      waiting := None;
      if decision == Some(false) {
        return;
      }
      var b := bc.GetBlockByID(qc.blockID);
      if b.None? && qc.view != 1 {
        bufferedQCs := bufferedQCs[qc.blockID := qc];
        return;
      }
      ProcessCertificate(qc);
    }

    method ProcessTC(tc: TC)
      requires Valid()
      modifies this`voteType, pm
      ensures Valid()
      ensures var r := old(State());
              State() == if tc.view < r.pace.curView then r
                         else SetVoteType(cfg, r.(pace := Pacemakers.EnterView(r.pace, tc.view, tc.seqNo, TimeoutF)),
                                          TimeoutF)
    {
      hide BlockChain.Valid, Pacemakers.EnterView;
      if tc.view < pm.curView {
        return;
      }
      EnterView(tc.view, tc.seqNo, TimeoutF);
      if cfg.protocol.MTchs? {
        voteType := TimeoutF;
      }
    }

    method ProcessRemoteTmo(tmo: TMO)
      requires Valid() && !CertificateFails(State(), tmo.highQC)
      modifies this, pm, pm.timeoutController
      ensures Valid() && State() == ReceiveTmo(cfg, old(State()), tmo)
    {
      hide BlockChain.Valid, ReplicaModel.ProcessCertificate, ProcessTmo, BuiltTCs, Pacemakers.EnterView;
      ProcessCertificate(tmo.highQC);
      var built, ftc, stc := pm.ProcessRemoteTmo(tmo);
      if !built {
        return;
      }
      UpdateHighTC(ftc);
      UpdateHighTC(stc);
      ProcessTC(ftc.value);
    }

    /** The timeout broadcast when the timer of the view fires. */
    method ProcessLocalTmo() returns (tmo: TMO)
      ensures tmo == LocalTmo(State())
    {
      tmo := TMO(pm.curView + 1, pm.curSeq, pm.curSeq + 1, id, highQC);
    }

    // ---------- proposing ----------

    method MakeProposal(nv: NewView, payload: seq<string>) returns (b: Block)
      requires Valid()
      modifies this`highTC, this`secHighTC
      ensures Valid() && State() == AfterProposal(old(State()), nv)
      ensures b == ReplicaModel.MakeProposal(old(State()), nv, payload)
    {
      hide BlockChain.Valid;
      var qc, tc, tcs, prevID := highQC, None, [], highBlock.id;
      match nv.proposeType {
        case NoTimeout =>
        case TimeoutF =>
          qc, prevID, tc := secHighQC, highQC.blockID, secHighTC;
          tcs := [tc, highTC];
        case TimeoutS =>
          tc := highTC;
          tcs := [secHighTC, tc];
          UpdateHighTC(None);
          UpdateHighTC(None);
      }
      b := MakeBlock(nv.view, nv.seqNo, qc, tc, tcs, prevID, payload, id);
    }

    /** Takes the next announced view; the leader of that view proposes. */
    method ProcessNewView(payload: seq<string>) returns (proposal: Option<Block>)
      requires Valid() && pm.newViewChan != []
      modifies this, pm
      ensures Valid()
      ensures var r := old(State()); var nv, d := r.pace.newViews[0], DropNewView(r);
              if cfg.rotation.IsLeader(id, nv.view)
              then State() == AfterProposal(d, nv) && proposal == Some(ReplicaModel.MakeProposal(d, nv, payload))
              else State() == d && proposal == None
    {
      hide BlockChain.Valid, AfterProposal, ReplicaModel.MakeProposal;
      var nv := pm.TakeNewView();
      if !cfg.rotation.IsLeader(id, nv.view) {
        return None;
      }
      var b := MakeProposal(nv, payload);
      return Some(b);
    }

    /** The leader of view 1 starts the protocol. */
    method KickOff() returns (vote: Option<Vote>)
      requires Valid()
      modifies pm
      ensures Valid()
      ensures if old(State()).pace.curView == 0 && cfg.rotation.IsLeader(id, 1)
              then State() == Kickoff(old(State())) && vote == Some(KickoffVote(id))
              else State() == old(State()) && vote == None
    {
      hide BlockChain.Valid, Pacemakers.EnterView;
      if pm.curView != 0 || !cfg.rotation.IsLeader(id, 1) {
        return None;
      }
      EnterView(0, 0, NoTimeout);
      return Some(Vote(0, 0, id, NoID, NoSig));
    }
  }
}
