/**
 One replica as a value. The two protocols share their handlers; they differ in the lock a
 certificate moves, in the voting and commit rules, and in what a block's timeout certificates do.

 A handler returns None when the program would dereference nil or never return.
 */
module ReplicaModel {
  import opened Types
  import opened Election
  import opened ForestModel
  import opened ChainModel
  import opened Quorums
  import opened Pacemakers

  datatype Protocol = MTchs | MHotStuff

  datatype Config = Config(rotation: Rotation, protocol: Protocol) {
    function N(): nat { rotation.peerNo }
  }

  /** What one CommitBlock call put on the channels, and the block that triggered it. */
  datatype Report = Report(trigger: Block, target: Block, committed: seq<Block>, forked: seq<Block>)

  /** A vote sent, and the lock its block's parent was compared with. */
  datatype Cast = Cast(vote: Vote, lock: Seq)

  datatype Replica = Replica(
    id: NodeID,
    pace: Pace,
    chain: Chain,
    highQC: QC,
    secHighQC: QC,
    highTC: Option<TC>,
    secHighTC: Option<TC>,
    highBlock: Block,
    voteType: ProposeType,
    preferredSeq: Seq,
    secPreferredSeq: Seq,
    lastVotedSeq: Seq,
    bufferedQCs: map<Identifier, QC>,
    bufferedBlocks: map<View, Block>,
    waiting: Option<QC>,
    sentVotes: seq<Cast>,
    reports: seq<Report>)

  function InitReplica(id: NodeID): Replica {
    Replica(id, InitPace, EmptyChain, GenesisQC, GenesisQC, None, None, GenesisBlock, NoTimeout,
            0, 0, 0, map[], map[], None, [], [])
  }

  function FindBlock(r: Replica, id: Identifier): Option<Block> {
    GetBlock(r.chain.forest, id)
  }

  /** A block is buffered under the view before its own. */
  predicate OneViewAhead(blocks: map<View, Block>) {
    forall k | k in blocks :: blocks[k].view == k + 1
  }

  /** Stored and buffered blocks carry the hash of their fields. */
  ghost predicate Sound(r: Replica) {
    && HashLinked(r.chain.forest) && OneViewAhead(r.bufferedBlocks)
    && forall k | k in r.bufferedBlocks :: Hashed(r.bufferedBlocks[k])
  }

  function SetVoteType(cfg: Config, r: Replica, t: ProposeType): Replica {
    if cfg.protocol.MTchs? then r.(voteType := t) else r
  }

  // ---------- certificates ----------

  /** None when a block the lock depends on is missing. */
  function UpdatePreferredSeq(cfg: Config, r: Replica, qc: QC): Option<Replica> {
    match cfg.protocol
    case MTchs =>
      if qc.seqNo < 2 then Some(r)
      else if FindBlock(r, qc.blockID).None? then None
      else if qc.seqNo > r.preferredSeq then Some(r.(secPreferredSeq := r.preferredSeq, preferredSeq := qc.seqNo))
      else Some(r)
    case MHotStuff =>
      if qc.seqNo < 4 then Some(r)
      else
        match FindBlock(r, qc.blockID)
        case None => None
        case Some(b1) =>
          match FindBlock(r, b1.qc.blockID)
          case None => None
          case Some(b0) => if b0.seqNo > r.preferredSeq then Some(r.(preferredSeq := b0.seqNo)) else Some(r)
  }

  function UpdateHighQC(r: Replica, qc: QC): Replica {
    if qc.view > r.highQC.view then r.(secHighQC := r.highQC, highQC := qc) else r
  }

  predicate Verified(r: Replica, qc: QC) {
    qc.leader == r.id || VerifiesQuorum(qc.aggSig, qc.blockID, qc.signers)
  }

  /** Whether checking the signatures of qc would index past their end. */
  predicate CertificateFails(r: Replica, qc: QC) {
    qc.view >= r.pace.curView && qc.leader != r.id && RunsPastEnd(qc.aggSig, qc.blockID, qc.signers)
  }

  /** What a certificate changes, unless CertificateFails. */
  function ProcessCertificate(cfg: Config, r: Replica, qc: QC): Replica {
    if qc.view < r.pace.curView || !Verified(r, qc) then r
    else
      match UpdatePreferredSeq(cfg, r, qc)
      case None => r.(bufferedQCs := r.bufferedQCs[qc.blockID := qc])
      case Some(s) =>
        var t := UpdateHighQC(s, qc);
        t.(pace := EnterView(t.pace, qc.view, qc.seqNo, NoTimeout))
  }

  // ---------- blocks ----------

  predicate TCsPresent(b: Block) {
    |b.tcs| >= 2 && b.tcs[0].Some? && b.tcs[1].Some?
  }

  function MaxTC(b: Block): TC
    requires TCsPresent(b)
  {
    if b.tcs[1].value.view > b.tcs[0].value.view then b.tcs[1].value else b.tcs[0].value
  }

  /** What the timeout certificates of another node's block do; was is the view before its QC was processed. */
  function FollowTC(cfg: Config, was: View, r: Replica, b: Block): Option<Replica> {
    if b.tc.None? then Some(SetVoteType(cfg, r, NoTimeout))
    else if b.proposer == r.id then Some(r)
    else if !TCsPresent(b) then None
    else
      var tc, maxView := b.tc.value, MaxTC(b).view;
      match cfg.protocol
      case MTchs =>
        if was > tc.view then Some(r)
        else if tc.view + 1 == maxView then
          Some(r.(pace := EnterView(r.pace, tc.view, tc.seqNo, TimeoutF), voteType := TimeoutF))
        else if tc.view == maxView then
          Some(r.(pace := EnterView(r.pace, tc.view, tc.seqNo, TimeoutS), voteType := TimeoutS,
                  highTC := None, secHighTC := None))
        else Some(r)
      case MHotStuff =>
        var s := if was <= tc.view then r.(pace := EnterView(r.pace, tc.view, tc.seqNo, TimeoutF)) else r;
        Some(if tc.view == maxView then s.(highTC := None, secHighTC := None) else s)
  }

  function StoreBlock(r: Replica, b: Block): Replica {
    r.(chain := AddBlock(r.chain, b), highBlock := if b.view > r.highBlock.view then b else r.highBlock)
  }

  /** The next leader follows the block's pair of timeout certificates and keeps them to propose with. */
  function CollectTCs(cfg: Config, r: Replica, b: Block): Option<Replica> {
    if !cfg.rotation.IsLeader(r.id, r.pace.curView + 1) || b.tc.None? then Some(r)
    else if !TCsPresent(b) then None
    else
      var m := MaxTC(b);
      if r.pace.curView > m.view then Some(r)
      else
        var s := SetVoteType(cfg, r, TimeoutS);
        Some(s.(pace := EnterView(s.pace, m.view, m.seqNo, TimeoutS), secHighTC := b.tcs[0], highTC := b.tcs[1]))
  }

  predicate CommitGuard(cfg: Config, b: Block) {
    && b.qc.seqNo + 2 == b.seqNo
    && if cfg.protocol.MTchs? then b.qc.view > 3 else b.qc.seqNo > 5
  }

  /** The block the commit rule picks: following QC links, one below the certified block, or two. */
  function CommitTarget(cfg: Config, f: Forest, qc: QC): Option<Block> {
    match GetBlock(f, qc.blockID)
    case None => None
    case Some(b1) =>
      match GetBlock(f, b1.qc.blockID)
      case None => None
      case Some(b0) => if cfg.protocol.MTchs? then Some(b0) else GetBlock(f, b0.qc.blockID)
  }

  /** How a part of ProcessBlock ends: by returning, or by going on. */
  datatype Flow = Panic | Return(r: Replica) | GoOn(r: Replica)

  function CommitStep(cfg: Config, r: Replica, b: Block): Flow {
    if !CommitGuard(cfg, b) then GoOn(r)
    else
      match CommitTarget(cfg, r.chain.forest, b.qc)
      case None => Return(r)
      case Some(target) =>
        match CommitBlock(r.chain, target.id, r.pace.curSeq)
        case NotFound => Return(r)
        case Stuck => Panic
        case Refused(c) => Return(r.(chain := c))
        case Committed(c, cs, fs) => GoOn(r.(chain := c, reports := r.reports + [Report(b, target, cs, fs)]))
  }

  function UseBufferedQC(cfg: Config, r: Replica, b: Block): Replica {
    if b.id !in r.bufferedQCs then r
    else
      var s := ProcessCertificate(cfg, r, r.bufferedQCs[b.id]);
      s.(bufferedQCs := s.bufferedQCs - {b.id})
  }

  /** The first view in which the voting rule looks at the parent. */
  function FirstChecked(cfg: Config): View {
    if cfg.protocol.MTchs? then 3 else 5
  }

  /** What a replica decides a vote on, besides its store. */
  datatype StateContext = StateContext(voteType: ProposeType, preferredSeq: Seq, secPreferredSeq: Seq,
                                       lastVotedSeq: Seq)

  function ContextOf(r: Replica): StateContext {
    StateContext(r.voteType, r.preferredSeq, r.secPreferredSeq, r.lastVotedSeq)
  }

  /** The lock a parent must reach: the second lock after the first of two timeouts (MTchs). */
  function Lock(cfg: Config, ctx: StateContext): Seq {
    if cfg.protocol.MTchs? && ctx.voteType.TimeoutF? then ctx.secPreferredSeq else ctx.preferredSeq
  }

  predicate VotingRule(cfg: Config, f: Forest, ctx: StateContext, b: Block) {
    if b.view < FirstChecked(cfg) then true
    else
      var parent := GetBlock(f, b.qc.blockID);
      && parent.Some?
      && b.seqNo > ctx.lastVotedSeq
      && parent.value.seqNo >= Lock(cfg, ctx)
  }

  function SendVote(r: Replica, b: Block, lock: Seq): Replica {
    r.(sentVotes := r.sentVotes + [Cast(MakeVote(b.view, b.seqNo, r.id, b.id), lock)])
  }

  /** GoOn means a vote was sent. MTchs votes on the context from just after storing the block,
      MHotStuff on the current one. */
  function VoteStep(cfg: Config, r: Replica, stored: StateContext, b: Block): Flow {
    if b.id in r.bufferedQCs && CertificateFails(r, r.bufferedQCs[b.id]) then Panic
    else
      var s := UseBufferedQC(cfg, r, b);
      var ctx := if cfg.protocol.MTchs? then stored else ContextOf(s);
      if VotingRule(cfg, s.chain.forest, ctx, b) then GoOn(SendVote(s, b, Lock(cfg, ctx))) else Return(s)
  }

  /** From the point where the block is accepted. */
  function AcceptBlock(cfg: Config, r: Replica, b: Block): Flow {
    var s := StoreBlock(r, b);
    match CollectTCs(cfg, s, b)
    case None => Panic
    case Some(t) =>
      match CommitStep(cfg, t, b)
      case Panic => Panic
      case Return(u) => Return(u)
      case GoOn(u) => VoteStep(cfg, u, ContextOf(s), b)
  }

  /** ProcessBlock without the block buffered behind it. */
  function ProcessOne(cfg: Config, r: Replica, b: Block): Flow {
    if b.view > r.pace.curView + 1 then Return(r.(bufferedBlocks := r.bufferedBlocks[b.view - 1 := b]))
    else if b.proposer != r.id && CertificateFails(r, b.qc) then Panic
    else
      var s := if b.proposer != r.id then ProcessCertificate(cfg, r, b.qc) else r;
      match FollowTC(cfg, r.pace.curView, s, b)
      case None => Panic
      case Some(t) =>
        if b.view < t.pace.curView || !cfg.rotation.IsLeader(b.proposer, b.view) then Return(t)
        else AcceptBlock(cfg, t, b)
  }

  /** The replica just before it stores b, if it accepts b. */
  function Accepting(cfg: Config, r: Replica, b: Block): Option<Replica> {
    if b.view > r.pace.curView + 1 || (b.proposer != r.id && CertificateFails(r, b.qc)) then None
    else
      match FollowTC(cfg, r.pace.curView, if b.proposer != r.id then ProcessCertificate(cfg, r, b.qc) else r, b)
      case None => None
      case Some(t) =>
        if b.view < t.pace.curView || !cfg.rotation.IsLeader(b.proposer, b.view) then None else Some(t)
  }

  function KeysFrom(m: map<View, Block>, v: View): set<View> {
    set k | k in m && k >= v
  }

  function ProcessBlock(cfg: Config, r: Replica, b: Block): Option<Replica>
    requires OneViewAhead(r.bufferedBlocks)
    decreases |KeysFrom(r.bufferedBlocks, b.view)|
  {
    hide ProcessOne, KeysFrom;
    match ProcessOne(cfg, r, b)
    case Panic => None
    case Return(s) => Some(s)
    case GoOn(s) =>
      OneKeepsBuffer(cfg, r, b);
      if b.view !in s.bufferedBlocks then Some(s)
      else
        FewerKeys(r.bufferedBlocks, b.view);
        match ProcessBlock(cfg, s, s.bufferedBlocks[b.view])
        case None => None
        case Some(t) => Some(t.(bufferedBlocks := t.bufferedBlocks - {b.view}))
  }

  /** The buffered block behind b leaves strictly fewer buffered views at or above its own. */
  lemma FewerKeys(m: map<View, Block>, v: View)
    requires v in m
    ensures |KeysFrom(m, v + 1)| < |KeysFrom(m, v)|
  {
    assert KeysFrom(m, v) == KeysFrom(m, v + 1) + {v};
  }

  lemma CertificateKeeps(cfg: Config, r: Replica, qc: QC)
    ensures var s := ProcessCertificate(cfg, r, qc);
            && s.chain == r.chain && s.bufferedBlocks == r.bufferedBlocks && s.id == r.id
  {
    hide EnterView, VerifiesQuorum, GetBlock;
  }

  lemma FollowKeeps(cfg: Config, was: View, r: Replica, b: Block)
    ensures var s := FollowTC(cfg, was, r, b);
            s.Some? ==>
              s.value.chain == r.chain && s.value.bufferedBlocks == r.bufferedBlocks && s.value.id == r.id
  {
    hide EnterView;
  }

  lemma CollectKeeps(cfg: Config, r: Replica, b: Block)
    ensures var s := CollectTCs(cfg, r, b);
            s.Some? ==>
              s.value.chain == r.chain && s.value.bufferedBlocks == r.bufferedBlocks && s.value.id == r.id
  {
    hide EnterView;
  }

  lemma CommitKeepsHashLinks(c: Chain, id: Identifier, seqNo: Seq)
    requires HashLinked(c.forest)
    ensures var r := CommitBlock(c, id, seqNo);
            && (r.Committed? ==> HashLinked(r.chain.forest))
            && (r.Refused? ==> r.chain.forest == c.forest)
  {
    hide Traverse;
    match GetBlock(c.forest, id)
    case None =>
    case Some(target) => CutKeepsHashLinks(c.forest, target.seqNo);
  }

  lemma CommitStepKeeps(cfg: Config, r: Replica, b: Block)
    requires HashLinked(r.chain.forest)
    ensures var f := CommitStep(cfg, r, b);
            !f.Panic? ==>
              HashLinked(f.r.chain.forest) && f.r.bufferedBlocks == r.bufferedBlocks && f.r.id == r.id
  {
    hide CommitBlock, HashLinked;
    match CommitTarget(cfg, r.chain.forest, b.qc)
    case None =>
    case Some(target) => CommitKeepsHashLinks(r.chain, target.id, r.pace.curSeq);
  }

  lemma BufferedQCKeeps(cfg: Config, r: Replica, b: Block)
    ensures var s := UseBufferedQC(cfg, r, b);
            s.chain == r.chain && s.bufferedBlocks == r.bufferedBlocks && s.id == r.id
  {
    hide ProcessCertificate;
    if b.id in r.bufferedQCs { CertificateKeeps(cfg, r, r.bufferedQCs[b.id]); }
  }

  lemma CommitStepKeepsBuffer(cfg: Config, r: Replica, b: Block)
    ensures var f := CommitStep(cfg, r, b); !f.Panic? ==> f.r.bufferedBlocks == r.bufferedBlocks
  {
    hide CommitBlock;
  }

  lemma AcceptKeepsBuffer(cfg: Config, r: Replica, b: Block)
    ensures var f := AcceptBlock(cfg, r, b); !f.Panic? ==> f.r.bufferedBlocks == r.bufferedBlocks
  {
    hide CollectTCs, CommitStep, UseBufferedQC, AddVertex, VotingRule, CertificateFails;
    var s := StoreBlock(r, b);
    CollectKeeps(cfg, s, b);
    match CollectTCs(cfg, s, b)
    case None =>
    case Some(t) =>
      CommitStepKeepsBuffer(cfg, t, b);
      match CommitStep(cfg, t, b)
      case Panic =>
      case Return(_) =>
      case GoOn(u) => BufferedQCKeeps(cfg, u, b);
  }

  /** Processing a block keeps every buffered block under the view before its own, whatever the block. */
  lemma OneKeepsBuffer(cfg: Config, r: Replica, b: Block)
    ensures var f := ProcessOne(cfg, r, b);
            && (!f.Panic? && OneViewAhead(r.bufferedBlocks) ==> OneViewAhead(f.r.bufferedBlocks))
            && (f.GoOn? ==> f.r.bufferedBlocks == r.bufferedBlocks)
  {
    hide ProcessCertificate, AcceptBlock, FollowTC, CertificateFails;
    if b.view <= r.pace.curView + 1 {
      CertificateKeeps(cfg, r, b.qc);
      var s := if b.proposer != r.id then ProcessCertificate(cfg, r, b.qc) else r;
      FollowKeeps(cfg, r.pace.curView, s, b);
      match FollowTC(cfg, r.pace.curView, s, b)
      case None =>
      case Some(t) => AcceptKeepsBuffer(cfg, t, b);
    }
  }

  lemma AcceptKeepsSound(cfg: Config, r: Replica, b: Block)
    requires Sound(r) && Hashed(b)
    ensures var f := AcceptBlock(cfg, r, b);
            !f.Panic? ==> Sound(f.r) && f.r.bufferedBlocks == r.bufferedBlocks
  {
    hide CollectTCs, CommitStep, UseBufferedQC, AddVertex, VotingRule, HashLinked, CertificateFails;
    AddKeepsHashLinks(r.chain.forest, b);
    var s := StoreBlock(r, b);
    CollectKeeps(cfg, s, b);
    match CollectTCs(cfg, s, b)
    case None =>
    case Some(t) =>
      CommitStepKeeps(cfg, t, b);
      match CommitStep(cfg, t, b)
      case Panic =>
      case Return(_) =>
      case GoOn(u) => BufferedQCKeeps(cfg, u, b);
  }

  lemma OneKeepsSound(cfg: Config, r: Replica, b: Block)
    requires Sound(r) && Hashed(b)
    ensures var f := ProcessOne(cfg, r, b);
            && (!f.Panic? ==> Sound(f.r))
            && (f.GoOn? ==> f.r.bufferedBlocks == r.bufferedBlocks)
  {
    hide ProcessCertificate, AcceptBlock, FollowTC, HashLinked, CertificateFails;
    if b.view <= r.pace.curView + 1 {
      CertificateKeeps(cfg, r, b.qc);
      var s := if b.proposer != r.id then ProcessCertificate(cfg, r, b.qc) else r;
      FollowKeeps(cfg, r.pace.curView, s, b);
      match FollowTC(cfg, r.pace.curView, s, b)
      case None =>
      case Some(t) => AcceptKeepsSound(cfg, t, b);
    }
  }

  // ---------- votes and timeouts ----------

  predicate VoteVerified(r: Replica, v: Vote) {
    v.voter == r.id || PubVerify(v.signature, v.blockID, v.voter)
  }

  predicate BuildsQC(cfg: Config, r: Replica, v: Vote) {
    VoteVerified(r, v) && (v.view == 0 || Completes(cfg.N(), r.chain.votes, v))
  }

  /** ProcessVote up to the point where it waits for a signal with the certificate qc it built. */
  function CollectVote(cfg: Config, r: Replica, v: Vote, qc: QC): Replica {
    if !VoteVerified(r, v) then r
    else
      var s := r.(chain := r.chain.(votes := AddVote(cfg.N(), r.chain.votes, v)));
      if BuildsQC(cfg, r, v) then s.(waiting := Some(qc.(leader := r.id))) else s
  }

  /** ProcessVote once it was told to continue with its certificate, or to drop it. */
  function FinishVote(cfg: Config, r: Replica, proceed: bool): Replica
    requires r.waiting.Some?
  {
    var s, qc := r.(waiting := None), r.waiting.value;
    if !proceed then s
    else if FindBlock(s, qc.blockID).None? && qc.view != 1 then s.(bufferedQCs := s.bufferedQCs[qc.blockID := qc])
    else ProcessCertificate(cfg, s, qc)
  }

  function ReceiveTmo(cfg: Config, r: Replica, tmo: TMO): Replica {
    var s := ProcessCertificate(cfg, r, tmo.highQC);
    var t := s.(pace := ProcessTmo(cfg.N(), s.pace, tmo));
    match BuiltTCs(cfg.N(), s.pace, tmo)
    case None => t
    case Some((ftc, stc)) =>
      var u := t.(secHighTC := Some(ftc), highTC := Some(stc));
      if ftc.view < u.pace.curView then u
      else SetVoteType(cfg, u.(pace := EnterView(u.pace, ftc.view, ftc.seqNo, TimeoutF)), TimeoutF)
  }

  /** What ProcessLocalTmo sends when the timer fires. */
  function LocalTmo(r: Replica): TMO {
    TMO(r.pace.curView + 1, r.pace.curSeq, r.pace.curSeq + 1, r.id, r.highQC)
  }

  // ---------- proposing ----------

  function MakeProposal(r: Replica, nv: NewView, payload: seq<string>): Block {
    match nv.proposeType
    case NoTimeout =>
      MakeBlock(nv.view, nv.seqNo, r.highQC, None, [], r.highBlock.id, payload, r.id)
    case TimeoutF =>
      MakeBlock(nv.view, nv.seqNo, r.secHighQC, r.secHighTC, [r.secHighTC, r.highTC], r.highQC.blockID, payload, r.id)
    case TimeoutS =>
      MakeBlock(nv.view, nv.seqNo, r.highQC, r.highTC, [r.secHighTC, r.highTC], r.highBlock.id, payload, r.id)
  }

  function AfterProposal(r: Replica, nv: NewView): Replica {
    if nv.proposeType.TimeoutS? then r.(highTC := None, secHighTC := None) else r
  }

  function DropNewView(r: Replica): Replica
    requires r.pace.newViews != []
  {
    r.(pace := r.pace.(newViews := r.pace.newViews[1..]))
  }

  /** The first leader starts the protocol by entering view 1. */
  function Kickoff(r: Replica): Replica {
    r.(pace := EnterView(r.pace, 0, 0, NoTimeout))
  }

  function KickoffVote(id: NodeID): Vote {
    Vote(0, 0, id, NoID, NoSig)
  }
}
