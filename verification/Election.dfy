/** Leader rotation over an arbitrary hash of the view. */
module Election {
  import opened Types

  datatype Rotation = Rotation(peerNo: Positive, hash: nat -> nat) {

    /** The last node leads views 0..3; later views are drawn by the hash of view + 1. */
    predicate IsLeader(id: NodeID, view: View) {
      if view <= 3 then id >= peerNo else hash(view + 1) % peerNo == id as int - 1
    }

    function FindLeaderFor(view: View): (id: NodeID)
      ensures 1 <= id <= peerNo
    {
      if view <= 3 then peerNo else hash(view + 1) % peerNo + 1
    }
  }

  /** Among the nodes 1..peerNo, every view has exactly one leader: the one FindLeaderFor names. */
  lemma OneLeaderPerView(r: Rotation, id: NodeID, view: View)
    requires 1 <= id <= r.peerNo
    ensures r.IsLeader(id, view) <==> id == r.FindLeaderFor(view)
  {
  }

  /** From view 4 on, a node leads exactly the views whose successors' hashes are one less than its number, up
      to multiples of the number of nodes; so two views have one leader exactly if these hashes differ by
      such a multiple. The last node leads the views before. */
  lemma LeaderByHash(r: Rotation, id: NodeID, v: View, w: View)
    requires 1 <= id <= r.peerNo && v > 3 && w > 3
    ensures r.IsLeader(id, v) <==> (r.hash(v + 1) - (id - 1)) % r.peerNo == 0
    ensures r.FindLeaderFor(v) == r.FindLeaderFor(w) <==> (r.hash(v + 1) - r.hash(w + 1)) % r.peerNo == 0
    ensures forall u | u <= 3 :: r.FindLeaderFor(u) == r.peerNo
  {
    SameRemainder(r.hash(v + 1), id - 1, r.peerNo);
    SmallRemainder(id - 1, r.peerNo);
    SameRemainder(r.hash(v + 1), r.hash(w + 1), r.peerNo);
  }

  lemma SmallRemainder(a: nat, n: Positive)
    requires a < n
    ensures a % n == a
  {
  }

  lemma SameRemainder(a: nat, b: nat, n: Positive)
    ensures a % n == b % n <==> (a - b) % n == 0
  {
    var p, q := a / n, b / n;
    assert a == p * n + a % n && b == q * n + b % n;
    var d := a % n - b % n;
    assert a - b == (p - q) * n + d;
    if d == 0 {
      Multiple(p - q, 0, n);
    } else if d > 0 {
      Multiple(p - q, d, n);
    } else {
      assert a - b == (p - q - 1) * n + (d + n) by { assert (p - q - 1) * n == (p - q) * n - n; }
      Multiple(p - q - 1, d + n, n);
    }
  }

  lemma Multiple(k: int, d: nat, n: Positive)
    requires d < n
    ensures (k * n + d) % n == d
  {
    var q, m := DivMod(k * n + d, n);
    Distribute(k, q, n);
    if k > q {
      AtLeast(k - q, n);
    } else if k < q {
      Distribute(q, k, n);
      AtLeast(q - k, n);
    }
  }

  lemma DivMod(x: int, n: Positive) returns (q: int, m: nat)
    ensures x == q * n + m && m < n && m == x % n
  {
    q, m := x / n, x % n;
  }

  lemma Distribute(a: int, b: int, n: nat)
    ensures (a - b) * n == a * n - b * n
  {
  }

  lemma AtLeast(k: nat, n: nat)
    requires k >= 1
    ensures k * n >= n
  {
    Distribute(k, 1, n);
  }
}
