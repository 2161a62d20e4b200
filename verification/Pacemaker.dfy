/** Views, sequence numbers and timeout certificates. */
module Pacemakers {
  import opened Types
  import opened Collections

  type Timeouts = map<View, map<NodeID, TMO>>

  datatype Pace = Pace(curView: View, curSeq: Seq, newViews: seq<NewView>, timeouts: Timeouts)

  const InitPace := Pace(0, 0, [], map[])

  /** Enters view + 1 unless that would go back, and announces it. */
  function EnterView(p: Pace, view: View, seqNo: Seq, pt: ProposeType): Pace {
    if view < p.curView then p
    else p.(curView := view + 1, curSeq := seqNo + 2, newViews := p.newViews + [NewView(view + 1, seqNo + 2, pt)])
  }

  function TimeoutsFor(t: Timeouts, view: View): map<NodeID, TMO> {
    if view in t then t[view] else map[]
  }

  function PutTmo(t: Timeouts, tmo: TMO): Timeouts {
    t[tmo.view := TimeoutsFor(t, tmo.view)[tmo.nodeID := tmo]]
  }

  function KeepTmo(n: nat, t: Timeouts, tmo: TMO): Timeouts {
    if |TimeoutsFor(t, tmo.view)| > n * 2 / 3 then t else PutTmo(t, tmo)
  }

  /** Whether adding tmo completes the timeouts of its view. */
  predicate CompletesTmo(n: nat, t: Timeouts, tmo: TMO) {
    && |TimeoutsFor(t, tmo.view)| <= n * 2 / 3
    && |TimeoutsFor(PutTmo(t, tmo), tmo.view)| > n * 2 / 3
  }

  function ProcessTmo(n: nat, p: Pace, tmo: TMO): Pace {
    if tmo.view < p.curView then p else p.(timeouts := KeepTmo(n, p.timeouts, tmo))
  }

  /** The pair of certificates for the two blocks that timed out, if tmo completes the timeouts. */
  function BuiltTCs(n: nat, p: Pace, tmo: TMO): Option<(TC, TC)> {
    if tmo.view >= p.curView && CompletesTmo(n, p.timeouts, tmo)
    then Some((TC(tmo.fSeq, tmo.fSeq), TC(tmo.sSeq, tmo.sSeq)))
    else None
  }

  class TimeoutController {
    const n: nat
    var timeouts: Timeouts

    constructor (n: nat)
      ensures this.n == n && timeouts == map[]
    {
      this.n, timeouts := n, map[];
    }

    function Total(view: View): nat
      reads this
    {
      |TimeoutsFor(timeouts, view)|
    }

    method AddTmo(tmo: TMO) returns (built: bool, ftc: Option<TC>, stc: Option<TC>)
      modifies this
      ensures timeouts == KeepTmo(n, old(timeouts), tmo)
      ensures built == CompletesTmo(n, old(timeouts), tmo)
      ensures built ==> ftc == Some(TC(tmo.fSeq, tmo.fSeq)) && stc == Some(TC(tmo.sSeq, tmo.sSeq))
    {
      if Total(tmo.view) > n * 2 / 3 {
        return false, None, None;
      }
      if tmo.view !in timeouts {
        timeouts := timeouts[tmo.view := map[]];
      }
      var byNode: map<NodeID, TMO> := timeouts[tmo.view];
      timeouts := timeouts[tmo.view := byNode[tmo.nodeID := tmo]];
      assert timeouts == PutTmo(old(timeouts), tmo);
      if Total(tmo.view) > n * 2 / 3 {
        return true, Some(TC(tmo.fSeq, tmo.fSeq)), Some(TC(tmo.sSeq, tmo.sSeq));
      }
      return false, None, None;
    }
  }

  class Pacemaker {
    var curView: View
    var curSeq: Seq
    var newViewChan: seq<NewView>
    const timeoutController: TimeoutController

    ghost function State(): Pace
      reads this, timeoutController
    {
      Pace(curView, curSeq, newViewChan, timeoutController.timeouts)
    }

    constructor (n: nat)
      ensures State() == InitPace && timeoutController.n == n && fresh(timeoutController)
    {
      curView, curSeq, newViewChan := 0, 0, [];
      timeoutController := new TimeoutController(n);
    }

    method ProcessRemoteTmo(tmo: TMO) returns (built: bool, ftc: Option<TC>, stc: Option<TC>)
      modifies timeoutController
      ensures State() == ProcessTmo(timeoutController.n, old(State()), tmo)
      ensures built == BuiltTCs(timeoutController.n, old(State()), tmo).Some?
      ensures built ==> ftc.Some? && stc.Some?
      ensures built ==> BuiltTCs(timeoutController.n, old(State()), tmo) == Some((ftc.value, stc.value))
    {
      if tmo.view < curView {
        return false, None, None;
      }
      built, ftc, stc := timeoutController.AddTmo(tmo);
    }

    method AdvanceView(view: View, seqNo: Seq, pt: ProposeType)
      modifies this
      ensures State() == EnterView(old(State()), view, seqNo, pt)
    {
      if view < curView {
        return;
      }
      curView := view + 1;
      curSeq := seqNo + 2;
      newViewChan := newViewChan + [NewView(view + 1, seqNo + 2, pt)];
    }

    /** Takes the next announced view off the channel. */
    method TakeNewView() returns (v: NewView)
      requires newViewChan != []
      modifies this
      ensures v == old(newViewChan)[0]
      ensures State() == old(State()).(newViews := old(newViewChan)[1..])
    {
      v := newViewChan[0];
      newViewChan := newViewChan[1..];
    }
  }

  // ---------- the pacemaker against the history of its calls ----------

  /** A timeout arrived, or a view was left by a certificate or a pair of timeout certificates. */
  datatype PaceEvent = Heard(tmo: TMO) | Left(view: View, seqNo: Seq, pt: ProposeType)

  function After(n: nat, h: seq<PaceEvent>): Pace {
    if h == [] then InitPace
    else
      var p := After(n, h[..|h| - 1]);
      match h[|h| - 1]
      case Heard(tmo) => ProcessTmo(n, p, tmo)
      case Left(view, seqNo, pt) => EnterView(p, view, seqNo, pt)
  }

  /** The distinct nodes heard to time out with a timeout of the view. */
  function Senders(h: seq<PaceEvent>, view: View): set<NodeID> {
    if h == [] then {}
    else
      var before := Senders(h[..|h| - 1], view);
      match h[|h| - 1]
      case Heard(tmo) => if tmo.view == view then before + {tmo.nodeID} else before
      case Left(_, _, _) => before
  }

  /** The timeouts kept for a view, against all nodes heard: all of them up to a quorum, then no more. */
  ghost predicate KeptUpTo(n: nat, kept: map<NodeID, TMO>, heard: set<NodeID>) {
    && kept.Keys <= heard && |kept| <= n * 2 / 3 + 1
    && (|kept| <= n * 2 / 3 ==> kept.Keys == heard)
  }

  lemma OneMoreSender(m: map<NodeID, TMO>, tmo: TMO)
    ensures m[tmo.nodeID := tmo].Keys == m.Keys + {tmo.nodeID}
    ensures |m[tmo.nodeID := tmo]| == |m| + if tmo.nodeID in m then 0 else 1
  {
    MapSize(m);
    MapSize(m[tmo.nodeID := tmo]);
    assert m[tmo.nodeID := tmo].Keys == m.Keys + {tmo.nodeID};
  }

  lemma KeepsUpTo(n: nat, ts: Timeouts, tmo: TMO, view: View, heard: set<NodeID>)
    requires KeptUpTo(n, TimeoutsFor(ts, view), heard)
    ensures KeptUpTo(n, TimeoutsFor(KeepTmo(n, ts, tmo), view),
                     if tmo.view == view then heard + {tmo.nodeID} else heard)
  {
    OneMoreSender(TimeoutsFor(ts, view), tmo);
  }

  /** What a pair is built on: the number of nodes heard before, and that this one is new. */
  lemma CompletesUpTo(n: nat, ts: Timeouts, tmo: TMO, heard: set<NodeID>)
    requires KeptUpTo(n, TimeoutsFor(ts, tmo.view), heard)
    ensures CompletesTmo(n, ts, tmo) <==> |heard| == n * 2 / 3 && tmo.nodeID !in heard
  {
    var kept := TimeoutsFor(ts, tmo.view);
    OneMoreSender(kept, tmo);
    MapSize(kept);
    SubsetSize(kept.Keys, heard);
  }

  /** Until a view is left, all its timeouts are kept, up to a quorum. */
  lemma {:induction false} KeepsHistory(n: nat, h: seq<PaceEvent>, view: View)
    requires view >= After(n, h).curView
    ensures KeptUpTo(n, TimeoutsFor(After(n, h).timeouts, view), Senders(h, view))
  {
    if h == [] {
    } else {
      var p := After(n, h[..|h| - 1]);
      KeepsHistory(n, h[..|h| - 1], view);
      if h[|h| - 1].Heard? { KeepsUpTo(n, p.timeouts, h[|h| - 1].tmo, view, Senders(h[..|h| - 1], view)); }
    }
  }

  /** After any history, a pair is built exactly by a timeout of a view not yet left that comes from a new
      node and brings the distinct nodes of its view to n * 2 / 3 + 1; it names the two blocks it names. */
  lemma BuildsPairIff(n: nat, h: seq<PaceEvent>, tmo: TMO)
    ensures var p, heard := After(n, h), Senders(h, tmo.view);
            BuiltTCs(n, p, tmo) ==
            if tmo.view >= p.curView && tmo.nodeID !in heard && |heard + {tmo.nodeID}| == n * 2 / 3 + 1
            then Some((TC(tmo.fSeq, tmo.fSeq), TC(tmo.sSeq, tmo.sSeq))) else None
  {
    if tmo.view >= After(n, h).curView {
      KeepsHistory(n, h, tmo.view);
      CompletesUpTo(n, After(n, h).timeouts, tmo, Senders(h, tmo.view));
    }
  }

  /** No second pair is built for a view. */
  lemma AtMostOnePair(n: nat, h: seq<PaceEvent>, t: TMO, more: seq<PaceEvent>, u: TMO)
    requires t.view == u.view && BuiltTCs(n, After(n, h), t).Some?
    ensures BuiltTCs(n, After(n, h + [Heard(t)] + more), u).None?
  {
    var h' := h + [Heard(t)];
    assert h'[..|h'| - 1] == h;
    BuildsPairIff(n, h, t);
    BuildsPairIff(n, h' + more, u);
    SendersGrow(h', more, t.view);
    SubsetSize(Senders(h', t.view), Senders(h' + more, t.view));
  }

  lemma {:induction false} SendersGrow(h: seq<PaceEvent>, more: seq<PaceEvent>, view: View)
    ensures Senders(h, view) <= Senders(h + more, view)
  {
    if more == [] {
      assert h + more == h;
    } else {
      var front := more[..|more| - 1];
      assert (h + more)[..|h + more| - 1] == h + front;
      SendersGrow(h, front, view);
    }
  }
}
