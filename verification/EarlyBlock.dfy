/** Blocks that arrive ahead of their turn are kept, and processed in their turn. */
module EarlyBlocks {
  import opened Types
  import opened ChainModel
  import opened Quorums
  import opened Pacemakers
  import opened ReplicaModel

  /** r with other blocks buffered. */
  function Holding(r: Replica, m: map<View, Block>): Replica {
    r.(bufferedBlocks := m)
  }

  function FlowHolding(f: Flow, m: map<View, Block>): Flow {
    match f
    case Panic => Panic
    case Return(r) => Return(Holding(r, m))
    case GoOn(r) => GoOn(Holding(r, m))
  }

  // ---------- a block in its turn does not look at the buffer ----------

  lemma LockHolding(cfg: Config, r: Replica, qc: QC, m: map<View, Block>)
    ensures match UpdatePreferredSeq(cfg, r, qc)
            case None => UpdatePreferredSeq(cfg, Holding(r, m), qc).None?
            case Some(s) => UpdatePreferredSeq(cfg, Holding(r, m), qc) == Some(Holding(s, m))
  {
    hide GetBlock;
  }

  lemma CertificateHolding(cfg: Config, r: Replica, qc: QC, m: map<View, Block>)
    ensures ProcessCertificate(cfg, Holding(r, m), qc) == Holding(ProcessCertificate(cfg, r, qc), m)
    ensures CertificateFails(Holding(r, m), qc) == CertificateFails(r, qc)
  {
    hide EnterView, VerifiesQuorum, UpdatePreferredSeq, RunsPastEnd;
    LockHolding(cfg, r, qc, m);
  }

  lemma FollowHolding(cfg: Config, was: View, r: Replica, b: Block, m: map<View, Block>)
    ensures match FollowTC(cfg, was, r, b)
            case None => FollowTC(cfg, was, Holding(r, m), b).None?
            case Some(s) => FollowTC(cfg, was, Holding(r, m), b) == Some(Holding(s, m))
  {
    hide EnterView;
  }

  lemma CollectHolding(cfg: Config, r: Replica, b: Block, m: map<View, Block>)
    ensures match CollectTCs(cfg, r, b)
            case None => CollectTCs(cfg, Holding(r, m), b).None?
            case Some(s) => CollectTCs(cfg, Holding(r, m), b) == Some(Holding(s, m))
  {
    hide EnterView;
  }

  lemma CommitHolding(cfg: Config, r: Replica, b: Block, m: map<View, Block>)
    ensures CommitStep(cfg, Holding(r, m), b) == FlowHolding(CommitStep(cfg, r, b), m)
  {
    hide CommitBlock, CommitTarget, CommitGuard;
  }

  lemma VoteHolding(cfg: Config, r: Replica, stored: StateContext, b: Block, m: map<View, Block>)
    ensures VoteStep(cfg, Holding(r, m), stored, b) == FlowHolding(VoteStep(cfg, r, stored, b), m)
  {
    hide ProcessCertificate, CertificateFails, VotingRule, Lock;
    if b.id in r.bufferedQCs { CertificateHolding(cfg, r, r.bufferedQCs[b.id], m); }
    var s := UseBufferedQC(cfg, r, b);
    assert UseBufferedQC(cfg, Holding(r, m), b) == Holding(s, m);
  }

  lemma AcceptHolding(cfg: Config, r: Replica, b: Block, m: map<View, Block>)
    ensures AcceptBlock(cfg, Holding(r, m), b) == FlowHolding(AcceptBlock(cfg, r, b), m)
  {
    hide CollectTCs, CommitStep, VoteStep, AddBlock;
    var s := StoreBlock(r, b);
    assert StoreBlock(Holding(r, m), b) == Holding(s, m);
    CollectHolding(cfg, s, b, m);
    match CollectTCs(cfg, s, b)
    case None =>
    case Some(t) =>
      CommitHolding(cfg, t, b, m);
      match CommitStep(cfg, t, b)
      case Panic =>
      case Return(_) =>
      case GoOn(u) => VoteHolding(cfg, u, ContextOf(s), b, m);
  }

  lemma OneHolding(cfg: Config, r: Replica, b: Block, m: map<View, Block>)
    requires b.view <= r.pace.curView + 1
    ensures ProcessOne(cfg, Holding(r, m), b) == FlowHolding(ProcessOne(cfg, r, b), m)
    ensures !ProcessOne(cfg, r, b).Panic? ==> ProcessOne(cfg, r, b).r.bufferedBlocks == r.bufferedBlocks
  {
    hide ProcessCertificate, FollowTC, AcceptBlock, CertificateFails;
    CertificateHolding(cfg, r, b.qc, m);
    CertificateKeeps(cfg, r, b.qc);
    var s := if b.proposer != r.id then ProcessCertificate(cfg, r, b.qc) else r;
    FollowHolding(cfg, r.pace.curView, s, b, m);
    FollowKeeps(cfg, r.pace.curView, s, b);
    match FollowTC(cfg, r.pace.curView, s, b)
    case None =>
    case Some(t) =>
      AcceptHolding(cfg, t, b, m);
      AcceptKeepsBuffer(cfg, t, b);
  }

  /** Nor does processing it, and those behind it, touch what is buffered under an earlier view. */
  lemma {:induction false} EarlierUntouched(cfg: Config, r: Replica, b: Block, k: View)
    requires OneViewAhead(r.bufferedBlocks) && k < b.view && (b.view <= r.pace.curView + 1 || k + 1 < b.view)
    ensures OneViewAhead(r.bufferedBlocks - {k})
    ensures var s := Holding(r, r.bufferedBlocks - {k});
            match ProcessBlock(cfg, r, b)
            case None => ProcessBlock(cfg, s, b).None?
            case Some(t) => ProcessBlock(cfg, s, b) == Some(Holding(t, t.bufferedBlocks - {k}))
    decreases |KeysFrom(r.bufferedBlocks, b.view)|
  {
    hide ProcessOne, KeysFrom;
    var m := r.bufferedBlocks - {k};
    var s := Holding(r, m);
    if b.view > r.pace.curView + 1 {
      EarlyIsBuffered(cfg, r, b);
      EarlyIsBuffered(cfg, s, b);
      assert r.bufferedBlocks[b.view - 1 := b] - {k} == m[b.view - 1 := b];
    } else {
      OneHolding(cfg, r, b, m);
      OneKeepsBuffer(cfg, r, b);
      OneKeepsBuffer(cfg, s, b);
      var f := ProcessOne(cfg, r, b);
      if f.GoOn? && b.view in r.bufferedBlocks {
        FewerKeys(r.bufferedBlocks, b.view);
        FewerKeys(m, b.view);
        EarlierUntouched(cfg, f.r, r.bufferedBlocks[b.view], k);
        var t := ProcessBlock(cfg, f.r, r.bufferedBlocks[b.view]);
        if t.Some? {
          assert t.value.bufferedBlocks - {k} - {b.view} == t.value.bufferedBlocks - {b.view} - {k};
        }
      }
    }
  }

  lemma EarlyIsBuffered(cfg: Config, r: Replica, b: Block)
    requires b.view > r.pace.curView + 1 && OneViewAhead(r.bufferedBlocks)
    ensures ProcessBlock(cfg, r, b) == Some(Holding(r, r.bufferedBlocks[b.view - 1 := b]))
  {
  }

  // ---------- early delivery loses nothing ----------

  /** r after the blocks, one after the other. */
  function ProcessAll(cfg: Config, r: Replica, bs: seq<Block>): Option<Replica>
    requires OneViewAhead(r.bufferedBlocks)
    decreases |bs|
  {
    if bs == [] then Some(r)
    else
      hide ProcessBlock, OneViewAhead;
      ProcessKeepsBuffer(cfg, r, bs[0]);
      match ProcessBlock(cfg, r, bs[0])
      case None => None
      case Some(s) => ProcessAll(cfg, s, bs[1..])
  }

  lemma {:induction false} ProcessKeepsBuffer(cfg: Config, r: Replica, b: Block)
    requires OneViewAhead(r.bufferedBlocks)
    ensures var s := ProcessBlock(cfg, r, b); s.Some? ==> OneViewAhead(s.value.bufferedBlocks)
    decreases |KeysFrom(r.bufferedBlocks, b.view)|
  {
    hide ProcessOne, KeysFrom;
    OneKeepsBuffer(cfg, r, b);
    var f := ProcessOne(cfg, r, b);
    if f.GoOn? && b.view in f.r.bufferedBlocks {
      FewerKeys(r.bufferedBlocks, b.view);
      ProcessKeepsBuffer(cfg, f.r, f.r.bufferedBlocks[b.view]);
    }
  }

  lemma {:induction false} ProcessAllSplit(cfg: Config, r: Replica, bs: seq<Block>, cs: seq<Block>)
    requires OneViewAhead(r.bufferedBlocks)
    ensures match ProcessAll(cfg, r, bs)
            case None => ProcessAll(cfg, r, bs + cs).None?
            case Some(s) =>
              OneViewAhead(s.bufferedBlocks) && ProcessAll(cfg, r, bs + cs) == ProcessAll(cfg, s, cs)
    decreases |bs|
  {
    hide ProcessBlock, OneViewAhead;
    if bs == [] {
      assert bs + cs == cs;
    } else {
      ProcessKeepsBuffer(cfg, r, bs[0]);
      assert (bs + cs)[0] == bs[0] && (bs + cs)[1..] == bs[1..] + cs;
      match ProcessBlock(cfg, r, bs[0])
      case None =>
      case Some(s) => ProcessAllSplit(cfg, s, bs[1..], cs);
    }
  }

  /** Blocks of consecutive views, each but the last voted for in its turn, after which the replica is in
      the view of the block or a later one; none was buffered behind them before. */
  ghost predicate InTurn(cfg: Config, r: Replica, bs: seq<Block>)
    requires bs != []
    decreases |bs|
  {
    |bs| > 1 ==>
      && bs[0].view <= r.pace.curView + 1 && bs[1].view == bs[0].view + 1 && bs[0].view !in r.bufferedBlocks
      && var f := ProcessOne(cfg, r, bs[0]);
         f.GoOn? && f.r.pace.curView >= bs[0].view && InTurn(cfg, f.r, bs[1..])
  }

  /** The view a block is buffered under. */
  function Under(b: Block): View
    requires b.view > 0
  {
    b.view - 1
  }

  /** m is what was buffered, and these blocks too. */
  ghost predicate Buffers(m: map<View, Block>, was: map<View, Block>, bs: seq<Block>) {
    && (forall x | x in bs :: x.view > 0 && Under(x) in m && m[Under(x)] == x)
    && (forall k | k in was :: k in m)
    && forall k | k in m :: (k in was && m[k] == was[k]) || (m[k] in bs && m[k].view == k + 1)
  }

  lemma {:induction false} ViewsRise(cfg: Config, r: Replica, bs: seq<Block>, i: nat)
    requires bs != [] && InTurn(cfg, r, bs) && i < |bs|
    ensures bs[i].view == bs[0].view + i
    decreases |bs|
  {
    hide ProcessOne;
    if i > 0 {
      ViewsRise(cfg, ProcessOne(cfg, r, bs[0]).r, bs[1..], i - 1);
    }
  }

  /** The first of these blocks, when it comes last, has all of them processed in their turn. */
  lemma {:induction false} BufferedInTurn(cfg: Config, r: Replica, bs: seq<Block>, m: map<View, Block>)
    requires bs != [] && OneViewAhead(r.bufferedBlocks) && InTurn(cfg, r, bs)
    requires Buffers(m, r.bufferedBlocks, bs[1..])
    ensures OneViewAhead(m)
    ensures ProcessBlock(cfg, Holding(r, m), bs[0]) == ProcessAll(cfg, r, bs)
    decreases |bs|
  {
    hide ProcessOne, KeysFrom;
    BufferStays(m, r.bufferedBlocks, bs[1..]);
    if |bs| == 1 {
      assert m == r.bufferedBlocks && Holding(r, m) == r;
      AllOfOne(cfg, r, bs[0]);
      assert bs == [bs[0]];
    } else {
      OneHolding(cfg, r, bs[0], m);
      OneKeepsBuffer(cfg, r, bs[0]);
      var s, k := ProcessOne(cfg, r, bs[0]).r, bs[0].view;
      assert bs[1] in bs[1..] && m[k] == bs[1];
      EarlierUntouched(cfg, Holding(s, m), bs[1], k);
      NextBuffers(cfg, r, bs, m);
      BufferedInTurn(cfg, s, bs[1..], m - {k});
      assert Holding(Holding(s, m), m - {k}) == Holding(s, m - {k});
    }
  }

  lemma AllOfOne(cfg: Config, r: Replica, b: Block)
    requires OneViewAhead(r.bufferedBlocks)
    ensures ProcessAll(cfg, r, [b]) == ProcessBlock(cfg, r, b)
  {
    hide ProcessBlock, OneViewAhead;
    ProcessKeepsBuffer(cfg, r, b);
  }

  lemma BufferStays(m: map<View, Block>, was: map<View, Block>, bs: seq<Block>)
    requires Buffers(m, was, bs) && OneViewAhead(was)
    ensures OneViewAhead(m) && (bs == [] ==> m == was)
  {
  }

  lemma NextBuffers(cfg: Config, r: Replica, bs: seq<Block>, m: map<View, Block>)
    requires |bs| > 1 && InTurn(cfg, r, bs) && Buffers(m, r.bufferedBlocks, bs[1..])
    ensures Buffers(m - {bs[0].view}, r.bufferedBlocks, bs[1..][1..])
  {
    hide ProcessOne;
    var k, later := bs[0].view, bs[1..][1..];
    forall x | x in later ensures x.view > k + 1 {
      var i :| 0 <= i < |later| && later[i] == x;
      ViewsRise(cfg, r, bs, i + 2);
    }
    hide InTurn;
    OneLess(m, r.bufferedBlocks, bs[1..], k);
  }

  lemma OneLess(m: map<View, Block>, was: map<View, Block>, bs: seq<Block>, k: View)
    requires bs != [] && Buffers(m, was, bs) && k !in was && bs[0].view == k + 1
    requires forall x | x in bs[1..] :: x.view > k + 1
    ensures Buffers(m - {k}, was, bs[1..])
  {
    assert forall x | x in bs :: x == bs[0] || x in bs[1..];
  }

  lemma OneBuffered(m: map<View, Block>, was: map<View, Block>, bs: seq<Block>)
    requires bs != [] && bs[0].view > 0 && Buffers(m, was[Under(bs[0]) := bs[0]], bs[1..])
    requires forall x | x in bs :: x.view == bs[0].view ==> x == bs[0]
    ensures Buffers(m, was, bs)
  {
    assert forall x | x in bs :: x == bs[0] || x in bs[1..];
  }

  /** Blocks ahead of their turn are all buffered, in whatever order they come. */
  lemma {:induction false} EarlyAllBuffered(cfg: Config, r: Replica, order: seq<Block>) returns (m: map<View, Block>)
    requires OneViewAhead(r.bufferedBlocks)
    requires forall x | x in order :: x.view > r.pace.curView + 1
    requires forall x, y | x in order && y in order :: x.view == y.view ==> x == y
    ensures ProcessAll(cfg, r, order) == Some(Holding(r, m)) && Buffers(m, r.bufferedBlocks, order)
    decreases |order|
  {
    hide ProcessBlock, OneViewAhead;
    if order == [] {
      m := r.bufferedBlocks;
    } else {
      EarlyIsBuffered(cfg, r, order[0]);
      ProcessKeepsBuffer(cfg, r, order[0]);
      m := EarlyAllBuffered(cfg, Holding(r, r.bufferedBlocks[order[0].view - 1 := order[0]]), order[1..]);
      OneBuffered(m, r.bufferedBlocks, order);
    }
  }

  /** Early delivery loses nothing: blocks of consecutive views, all but the first delivered ahead of their
      turn in any order, any number of times, and the first at last, leave the replica as if each had come
      in its turn. */
  lemma EarlyDeliveryLosesNothing(cfg: Config, r: Replica, bs: seq<Block>, order: seq<Block>)
    requires bs != [] && OneViewAhead(r.bufferedBlocks) && InTurn(cfg, r, bs)
    requires forall x :: x in order <==> x in bs[1..]
    requires forall x | x in order :: x.view > r.pace.curView + 1
    ensures ProcessAll(cfg, r, order + [bs[0]]) == ProcessAll(cfg, r, bs)
  {
    hide ProcessBlock, ProcessOne, OneViewAhead, InTurn;
    forall x, y | x in order && y in order && x.view == y.view ensures x == y {
      var i, j :| 0 <= i < |bs[1..]| && 0 <= j < |bs[1..]| && bs[1..][i] == x && bs[1..][j] == y;
      ViewsRise(cfg, r, bs, i + 1);
      ViewsRise(cfg, r, bs, j + 1);
    }
    var m := EarlyAllBuffered(cfg, r, order);
    assert Buffers(m, r.bufferedBlocks, bs[1..]);
    BufferedInTurn(cfg, r, bs, m);
    ProcessAllSplit(cfg, r, order, [bs[0]]);
    AllOfOne(cfg, Holding(r, m), bs[0]);
  }
}
