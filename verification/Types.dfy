/**
 The values replicas exchange: certificates, timeouts, votes and blocks.

 A block ID is the collision-free constructor BlockHash applied to the hashed fields, so an ID
 determines what was hashed and the hash links between blocks cannot form a cycle. A signature is
 the pair of the signer and the signed ID. Node IDs are the integers 1..n.
 */
module Types {

  datatype Option<+T> = None | Some(value: T)

  type View = nat
  type Seq = nat
  type NodeID = nat
  type Positive = n: nat | n > 0 witness 1

  datatype ProposeType = NoTimeout | TimeoutF | TimeoutS

  datatype Identifier =
    | NoID
    | BlockHash(seqNo: Seq, qc: QC, proposer: NodeID, payload: seq<string>, prevID: Identifier)

  datatype Signature = NoSig | Signature(signer: NodeID, data: Identifier)

  datatype QC = QC(leader: NodeID, view: View, seqNo: Seq, blockID: Identifier,
                   signers: seq<NodeID>, aggSig: seq<Signature>)

  datatype TC = TC(view: View, seqNo: Seq)

  datatype Vote = Vote(view: View, seqNo: Seq, voter: NodeID, blockID: Identifier, signature: Signature)

  datatype TMO = TMO(view: View, fSeq: Seq, sSeq: Seq, nodeID: NodeID, highQC: QC)

  datatype Block = Block(view: View, seqNo: Seq, qc: QC, tc: Option<TC>, tcs: seq<Option<TC>>,
                         proposer: NodeID, payload: seq<string>, prevID: Identifier,
                         sig: Signature, id: Identifier)

  datatype NewView = NewView(view: View, seqNo: Seq, proposeType: ProposeType)

  function PrivSign(id: Identifier, node: NodeID): Signature {
    Signature(node, id)
  }

  predicate PubVerify(sig: Signature, id: Identifier, node: NodeID) {
    sig == PrivSign(id, node)
  }

  /** The ID a block with these fields gets; View, TC and TCs are not hashed. */
  function IDOf(b: Block): Identifier {
    BlockHash(b.seqNo, b.qc, b.proposer, b.payload, b.prevID)
  }

  predicate Hashed(b: Block) {
    b.id == IDOf(b)
  }

  function MakeBlock(view: View, seqNo: Seq, qc: QC, tc: Option<TC>, tcs: seq<Option<TC>>,
                     prevID: Identifier, payload: seq<string>, proposer: NodeID): (b: Block)
    ensures Hashed(b)
    ensures PubVerify(b.sig, b.id, b.proposer)
  {
    var id := BlockHash(seqNo, qc, proposer, payload, prevID);
    Block(view, seqNo, qc, tc, tcs, proposer, payload, prevID, PrivSign(id, proposer), id)
  }

  function MakeVote(view: View, seqNo: Seq, voter: NodeID, id: Identifier): (v: Vote)
    ensures PubVerify(v.signature, v.blockID, v.voter)
  {
    Vote(view, seqNo, voter, id, PrivSign(id, voter))
  }

  /** The certificates a replica starts with, and the one the kick-off vote stands for. */
  const GenesisQC := QC(0, 0, 0, NoID, [], [])
  const KickoffQC := QC(0, 1, 1, NoID, [], [])

  /** highBlock before any block was processed. */
  const GenesisBlock := Block(0, 1, GenesisQC, None, [], 0, [], NoID, NoSig, NoID)
}
