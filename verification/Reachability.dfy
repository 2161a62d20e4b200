/** Building runs step by step. */
module Reachability {
  import opened Types
  import opened Quorums
  import opened ReplicaModel
  import opened Invariants
  import opened ReplicaSystem

  ghost predicate Reachable(cfg: Config, s: System) {
    exists trace, steps :: IsRun(cfg, trace, steps) && trace[|steps|] == s
  }

  lemma OneStepOn(cfg: Config, s: System, step: Step, s': System)
    requires Reachable(cfg, s) && Next(cfg, s, step, s')
    ensures Reachable(cfg, s')
  {
    hide Next;
    var trace, steps :| IsRun(cfg, trace, steps) && trace[|steps|] == s;
    var trace', steps' := trace + [s'], steps + [step];
    forall i | 0 <= i < |steps'| ensures Next(cfg, trace'[i], steps'[i], trace'[i + 1]) {
      if i < |steps| {
        assert trace'[i] == trace[i] && trace'[i + 1] == trace[i + 1] && steps'[i] == steps[i];
      }
    }
    assert IsRun(cfg, trace', steps') && trace'[|steps'|] == s';
  }

  /** A run leads to these replicas and has sent at least these messages. */
  ghost predicate Have(cfg: Config, rs: seq<Replica>, k: Pool) {
    exists s :: Reachable(cfg, s) && s.replicas == rs && Within(k, s.pool)
  }

  lemma Forget(cfg: Config, rs: seq<Replica>, k: Pool, l: Pool)
    requires Have(cfg, rs, k) && Within(l, k)
    ensures Have(cfg, rs, l)
  {
    hide Reachable;
    var s :| Reachable(cfg, s) && s.replicas == rs && Within(k, s.pool);
    assert Within(l, s.pool);
  }

  lemma Initially(cfg: Config)
    ensures Have(cfg, Init(cfg).replicas, Pool({}, {}, {}))
  {
    var none: seq<Step> := [];
    assert IsRun(cfg, [Init(cfg)], none) && [Init(cfg)][|none|] == Init(cfg);
    assert Reachable(cfg, Init(cfg));
  }

  lemma RunTo(cfg: Config, rs: seq<Replica>, k: Pool) returns (trace: seq<System>, steps: seq<Step>)
    requires Have(cfg, rs, k)
    ensures IsRun(cfg, trace, steps) && trace[|steps|].replicas == rs && Within(k, trace[|steps|].pool)
  {
    hide Next;
    var s :| Reachable(cfg, s) && s.replicas == rs && Within(k, s.pool);
    trace, steps :| IsRun(cfg, trace, steps) && trace[|steps|] == s;
  }

  lemma StepTo(cfg: Config, s: System, step: Step, s': System, k: Pool)
    requires Reachable(cfg, s) && Next(cfg, s, step, s') && Within(k, s'.pool)
    ensures Have(cfg, s'.replicas, k)
  {
    hide Next, Reachable, Within;
    OneStepOn(cfg, s, step, s');
  }

  lemma TimerFires(cfg: Config, rs: seq<Replica>, k: Pool, i: nat)
    requires Have(cfg, rs, k) && i < |rs|
    ensures Have(cfg, rs, k.(tmos := k.tmos + {LocalTmo(rs[i])}))
  {
    hide Reachable, LocalTmo;
    var s :| Reachable(cfg, s) && s.replicas == rs && Within(k, s.pool);
    StepTo(cfg, s, OnTimer(i), s.(pool := s.pool.(tmos := s.pool.tmos + {LocalTmo(rs[i])})),
           k.(tmos := k.tmos + {LocalTmo(rs[i])}));
  }

  lemma TmoArrives(cfg: Config, rs: seq<Replica>, k: Pool, i: nat, t: TMO)
    requires Have(cfg, rs, k) && i < |rs| && t in k.tmos
    ensures Have(cfg, rs[i := ReceiveTmo(cfg, rs[i], t)], k)
  {
    hide Reachable, ReceiveTmo;
    var s :| Reachable(cfg, s) && s.replicas == rs && Within(k, s.pool);
    StepTo(cfg, s, OnTimeout(i, t), s.(replicas := rs[i := ReceiveTmo(cfg, rs[i], t)]), k);
  }

  lemma NodeStarts(cfg: Config, rs: seq<Replica>, k: Pool, i: nat)
    requires Have(cfg, rs, k) && i < |rs| && rs[i].pace.curView == 0 && cfg.rotation.IsLeader(rs[i].id, 1)
    ensures Have(cfg, rs[i := Kickoff(rs[i])], k.(votes := k.votes + {KickoffVote(rs[i].id)}))
  {
    hide Reachable, Kickoff;
    var s :| Reachable(cfg, s) && s.replicas == rs && Within(k, s.pool);
    StepTo(cfg, s, Start(i),
           System(rs[i := Kickoff(rs[i])], s.pool.(votes := s.pool.votes + {KickoffVote(rs[i].id)})),
           k.(votes := k.votes + {KickoffVote(rs[i].id)}));
  }

  lemma BlockArrives(cfg: Config, rs: seq<Replica>, k: Pool, i: nat, b: Block, r: Replica)
    requires Have(cfg, rs, k) && i < |rs| && b in k.blocks
    requires OneViewAhead(rs[i].bufferedBlocks) && ProcessBlock(cfg, rs[i], b) == Some(r)
    ensures Have(cfg, rs[i := r], k.(votes := k.votes + VoteSet(r.sentVotes)))
  {
    hide Reachable, ProcessBlock, OneViewAhead, VoteSet;
    var s :| Reachable(cfg, s) && s.replicas == rs && Within(k, s.pool);
    StepTo(cfg, s, OnBlock(i, b), System(rs[i := r], s.pool.(votes := s.pool.votes + VoteSet(r.sentVotes))),
           k.(votes := k.votes + VoteSet(r.sentVotes)));
  }

  lemma VoteArrives(cfg: Config, rs: seq<Replica>, k: Pool, i: nat, v: Vote, qc: QC)
    requires Have(cfg, rs, k) && i < |rs| && v in k.votes && Collector(cfg, v) == rs[i].id && rs[i].waiting.None?
    requires BuildsQC(cfg, rs[i], v) ==> Certificate(cfg.N(), rs[i].chain.votes, v, qc)
    ensures Have(cfg, rs[i := CollectVote(cfg, rs[i], v, qc)], k)
  {
    hide Reachable, CollectVote, BuildsQC, Certificate, Collector;
    var s :| Reachable(cfg, s) && s.replicas == rs && Within(k, s.pool);
    StepTo(cfg, s, OnVote(i, v, qc), s.(replicas := rs[i := CollectVote(cfg, rs[i], v, qc)]), k);
  }

  lemma SignalArrives(cfg: Config, rs: seq<Replica>, k: Pool, i: nat)
    requires Have(cfg, rs, k) && i < |rs| && rs[i].waiting.Some?
    ensures Have(cfg, rs[i := FinishVote(cfg, rs[i], true)], k)
  {
    hide Reachable, FinishVote;
    var s :| Reachable(cfg, s) && s.replicas == rs && Within(k, s.pool);
    StepTo(cfg, s, OnSignal(i, true), s.(replicas := rs[i := FinishVote(cfg, rs[i], true)]), k);
  }

  /** Node i takes the oldest announced view, of which it is not the leader. */
  lemma DropsView(cfg: Config, rs: seq<Replica>, k: Pool, i: nat)
    requires Have(cfg, rs, k) && i < |rs| && rs[i].pace.newViews != []
    requires !cfg.rotation.IsLeader(rs[i].id, rs[i].pace.newViews[0].view)
    ensures Have(cfg, rs[i := DropNewView(rs[i])], k)
  {
    hide Reachable, MakeProposal, AfterProposal;
    var s :| Reachable(cfg, s) && s.replicas == rs && Within(k, s.pool);
    StepTo(cfg, s, OnNewView(i, []), s.(replicas := rs[i := DropNewView(rs[i])]), k);
  }

  /** Node i takes the oldest announced view, and proposes in it. */
  lemma Proposes(cfg: Config, rs: seq<Replica>, k: Pool, i: nat)
    requires Have(cfg, rs, k) && i < |rs| && rs[i].pace.newViews != []
    requires cfg.rotation.IsLeader(rs[i].id, rs[i].pace.newViews[0].view)
    ensures var nv, d := rs[i].pace.newViews[0], DropNewView(rs[i]);
            Have(cfg, rs[i := AfterProposal(d, nv)], k.(blocks := k.blocks + {MakeProposal(d, nv, [])}))
  {
    hide Reachable, MakeProposal, AfterProposal;
    var s :| Reachable(cfg, s) && s.replicas == rs && Within(k, s.pool);
    var nv, d := rs[i].pace.newViews[0], DropNewView(rs[i]);
    StepTo(cfg, s, OnNewView(i, []),
           System(rs[i := AfterProposal(d, nv)], s.pool.(blocks := s.pool.blocks + {MakeProposal(d, nv, [])})),
           k.(blocks := k.blocks + {MakeProposal(d, nv, [])}));
  }
}
