/** Votes collected per block, and the certificate built when a super majority voted. */
module Quorums {
  import opened Types
  import opened Collections

  type Votes = map<Identifier, map<NodeID, Vote>>

  /** The size a quorum reaches when its certificate is built. */
  function QuorumSize(total: nat): nat {
    total * 2 / 3 + 1
  }

  function VotesFor(votes: Votes, id: Identifier): map<NodeID, Vote> {
    if id in votes then votes[id] else map[]
  }

  predicate SuperMajority(total: nat, votes: Votes, id: Identifier) {
    |VotesFor(votes, id)| > total * 2 / 3
  }

  function Put(votes: Votes, v: Vote): Votes {
    votes[v.blockID := VotesFor(votes, v.blockID)[v.voter := v]]
  }

  /** The votes kept after adding v. */
  function AddVote(total: nat, votes: Votes, v: Vote): Votes {
    if v.view == 0 || SuperMajority(total, votes, v.blockID) then votes else Put(votes, v)
  }

  /** Whether adding v completes a quorum. */
  predicate Completes(total: nat, votes: Votes, v: Vote) {
    && v.view != 0
    && !SuperMajority(total, votes, v.blockID)
    && SuperMajority(total, Put(votes, v), v.blockID)
  }

  function SignerSet(s: seq<NodeID>): (r: set<NodeID>)
    ensures forall x :: x in r <==> x in s
  {
    if s == [] then {} else SignerSet(s[..|s| - 1]) + {s[|s| - 1]}
  }

  /** qc lists the voters of m, each once, and their signatures at the same positions. */
  predicate ListsVotes(m: map<NodeID, Vote>, signers: seq<NodeID>, sigs: seq<Signature>) {
    && |sigs| == |signers|
    && NoDup(signers)
    && SignerSet(signers) == m.Keys
    && forall i | 0 <= i < |signers| :: signers[i] in m && sigs[i] == m[signers[i]].signature
  }

  /** A certificate Add may return for v; the order of its signers is the map's iteration order. */
  predicate Certificate(total: nat, votes: Votes, v: Vote, qc: QC) {
    if v.view == 0 then qc == KickoffQC
    else
      && qc.leader == 0 && qc.view == v.seqNo && qc.seqNo == v.seqNo && qc.blockID == v.blockID
      && ListsVotes(VotesFor(Put(votes, v), v.blockID), qc.signers, qc.aggSig)
  }

  /** Every signer signed, and the signatures are at the positions of their signers. */
  predicate VerifiesQuorum(aggSig: seq<Signature>, id: Identifier, signers: seq<NodeID>) {
    |aggSig| >= |signers| && forall i | 0 <= i < |signers| :: PubVerify(aggSig[i], id, signers[i])
  }

  /** Checking signer by signer reaches a signer without a signature before one that fails. */
  predicate RunsPastEnd(aggSig: seq<Signature>, id: Identifier, signers: seq<NodeID>) {
    |aggSig| < |signers| && forall i | 0 <= i < |aggSig| :: PubVerify(aggSig[i], id, signers[i])
  }

  method VerifyQuorumSignature(aggSig: seq<Signature>, id: Identifier, signers: seq<NodeID>) returns (ok: bool)
    requires !RunsPastEnd(aggSig, id, signers)
    ensures ok <==> VerifiesQuorum(aggSig, id, signers)
  {
    for i := 0 to |signers|
      invariant i <= |aggSig|
      invariant forall j | 0 <= j < i :: PubVerify(aggSig[j], id, signers[j])
    {
      if !PubVerify(aggSig[i], id, signers[i]) {
        return false;
      }
    }
    return true;
  }

  // ---------- the collector against the history of its calls ----------

  datatype Event = Add(vote: Vote) | Remove(id: Identifier)

  function After(total: nat, h: seq<Event>): Votes {
    if h == [] then map[]
    else
      match h[|h| - 1]
      case Add(v) => AddVote(total, After(total, h[..|h| - 1]), v)
      case Remove(id) => After(total, h[..|h| - 1]) - {id}
  }

  /** The distinct voters offered for id since it was last removed. */
  function Voters(h: seq<Event>, id: Identifier): set<NodeID> {
    if h == [] then {}
    else
      var before := Voters(h[..|h| - 1], id);
      match h[|h| - 1]
      case Add(v) => if v.view != 0 && v.blockID == id then before + {v.voter} else before
      case Remove(r) => if r == id then {} else before
  }

  /** The votes kept for id are those of its voters until a quorum is complete; then they are frozen. */
  ghost predicate Counts(total: nat, h: seq<Event>, id: Identifier) {
    var kept, voters := VotesFor(After(total, h), id), Voters(h, id);
    && kept.Keys <= voters
    && |kept| <= QuorumSize(total)
    && (|kept| < QuorumSize(total) ==> kept.Keys == voters)
  }

  lemma {:induction false} CountsHistory(total: nat, h: seq<Event>, id: Identifier)
    ensures Counts(total, h, id)
  {
    if h == [] {
    } else {
      var before := h[..|h| - 1];
      CountsHistory(total, before, id);
      match h[|h| - 1] {
        case Add(v) => CountsAdd(total, After(total, before), v, id);
        case Remove(r) =>
      }
    }
  }

  lemma CountsAdd(total: nat, votes: Votes, v: Vote, id: Identifier)
    requires |VotesFor(votes, id)| <= QuorumSize(total)
    ensures var kept, next := VotesFor(votes, id), VotesFor(AddVote(total, votes, v), id);
            if v.view != 0 && v.blockID == id && |kept| < QuorumSize(total)
            then next.Keys == kept.Keys + {v.voter} && |next| <= QuorumSize(total)
            else next == kept
  {
    OneMoreVoter(VotesFor(votes, id), v);
  }

  lemma OneMoreVoter(m: map<NodeID, Vote>, v: Vote)
    ensures m[v.voter := v].Keys == m.Keys + {v.voter}
    ensures |m[v.voter := v]| == |m| + if v.voter in m then 0 else 1
  {
    MapSize(m);
    MapSize(m[v.voter := v]);
    assert m[v.voter := v].Keys == m.Keys + {v.voter};
  }

  /** A certificate for a block is built exactly by the vote that brings the distinct voters offered
      since its last removal to a quorum. */
  lemma CompletesIff(total: nat, h: seq<Event>, v: Vote)
    requires v.view != 0
    ensures Completes(total, After(total, h), v) <==>
            |Voters(h, v.blockID)| == QuorumSize(total) - 1 && v.voter !in Voters(h, v.blockID)
  {
    CountsHistory(total, h, v.blockID);
    var kept, voters := VotesFor(After(total, h), v.blockID), Voters(h, v.blockID);
    OneMoreVoter(kept, v);
    MapSize(kept);
    if |kept| == QuorumSize(total) {
      SubsetSize(kept.Keys, voters);
    }
  }

  /** Without a removal in between, no second certificate is built for the same block. */
  lemma AtMostOneCertificate(total: nat, h: seq<Event>, v: Vote, more: seq<Event>, w: Vote)
    requires v.view != 0 && w.view != 0 && w.blockID == v.blockID && Remove(v.blockID) !in more
    requires Completes(total, After(total, h), v)
    ensures !Completes(total, After(total, h + [Add(v)] + more), w)
  {
    var h' := h + [Add(v)];
    assert h'[..|h' | - 1] == h;
    CompletesIff(total, h, v);
    VotersGrow(h', more, v.blockID);
    CompletesIff(total, h' + more, w);
    SubsetSize(Voters(h', v.blockID), Voters(h' + more, v.blockID));
  }

  lemma {:induction false} VotersGrow(h: seq<Event>, more: seq<Event>, id: Identifier)
    requires Remove(id) !in more
    ensures Voters(h, id) <= Voters(h + more, id)
  {
    if more == [] {
      assert h + more == h;
    } else {
      var front := more[..|more| - 1];
      assert (h + more)[..|h + more| - 1] == h + front;
      VotersGrow(h, front, id);
      assert more[|more| - 1] in more;
    }
  }

  /** A certificate carries QuorumSize distinct signers, and verifies if every kept vote did. */
  lemma CertificateVerifies(total: nat, votes: Votes, v: Vote, qc: QC)
    requires v.view != 0 && |VotesFor(votes, v.blockID)| <= QuorumSize(total)
    requires Completes(total, votes, v) && Certificate(total, votes, v, qc)
    requires forall m | m in Put(votes, v)[v.blockID] ::
               PubVerify(Put(votes, v)[v.blockID][m].signature, v.blockID, m)
    ensures |qc.signers| == QuorumSize(total) && NoDup(qc.signers)
    ensures VerifiesQuorum(qc.aggSig, qc.blockID, qc.signers)
  {
    var kept := VotesFor(votes, v.blockID);
    OneMoreVoter(kept, v);
    SignerSetSize(qc.signers);
    MapSize(kept[v.voter := v]);
  }

  lemma {:induction false} SignerSetSize(s: seq<NodeID>)
    requires NoDup(s)
    ensures |SignerSet(s)| == |s|
  {
    if s == [] {
    } else {
      SignerSetSize(s[..|s| - 1]);
      assert s[|s| - 1] !in s[..|s| - 1];
    }
  }

  function Nodes(n: nat): (r: set<NodeID>)
    ensures forall x :: x in r <==> 1 <= x <= n
    ensures |r| == n
  {
    if n == 0 then {} else Nodes(n - 1) + {n}
  }

  /** Two quorums among n nodes share more than a third of the nodes. */
  lemma QuorumsIntersect(n: nat, a: set<NodeID>, b: set<NodeID>)
    requires |a| == |b| == QuorumSize(n)
    requires forall m | m in a + b :: 1 <= m <= n
    ensures 3 * |a * b| > n
  {
    SubsetSize(a + b, Nodes(n));
    assert |a + b| + |a * b| == |a| + |b|;
  }

  class Quorum {
    const total: nat
    var votes: Votes

    constructor (total: nat)
      ensures this.total == total && votes == map[]
    {
      this.total, votes := total, map[];
    }

    predicate VotesExist(id: Identifier)
      reads this
    {
      id in votes
    }

    method RemoveVote(id: Identifier)
      modifies this
      ensures votes == old(votes) - {id}
    {
      votes := votes - {id};
    }

    method Add(v: Vote) returns (built: bool, qc: Option<QC>)
      modifies this
      ensures votes == AddVote(total, old(votes), v)
      ensures built == qc.Some? == (v.view == 0 || Completes(total, old(votes), v))
      ensures built ==> Certificate(total, old(votes), v, qc.value)
    {
      if v.view == 0 {
        return true, Some(KickoffQC);
      }
      if SuperMajority(total, votes, v.blockID) {
        return false, None;
      }
      if v.blockID !in votes {
        votes := votes[v.blockID := map[]];
      }
      var byVoter: map<NodeID, Vote> := votes[v.blockID];
      votes := votes[v.blockID := byVoter[v.voter := v]];
      assert votes == Put(old(votes), v);
      if SuperMajority(total, votes, v.blockID) {
        var sigs, signers := GetSigs(v.blockID);
        return true, Some(QC(0, v.seqNo, v.seqNo, v.blockID, signers, sigs));
      }
      return false, None;
    }

    /** Goes through the votes in an arbitrary order, as the iteration over a map does. */
    method GetSigs(id: Identifier) returns (sigs: seq<Signature>, signers: seq<NodeID>)
      requires id in votes
      ensures ListsVotes(votes[id], signers, sigs)
    {
      sigs, signers := [], [];
      var left := votes[id].Keys;
      while left != {}
        invariant left <= votes[id].Keys && |sigs| == |signers| && NoDup(signers)
        invariant SignerSet(signers) == votes[id].Keys - left
        invariant forall i | 0 <= i < |signers| ::
                    signers[i] in votes[id] && sigs[i] == votes[id][signers[i]].signature
      {
        var voter :| voter in left;
        assert (signers + [voter])[..|signers|] == signers;
        sigs, signers := sigs + [votes[id][voter].signature], signers + [voter];
        left := left - {voter};
      }
    }
  }
}
