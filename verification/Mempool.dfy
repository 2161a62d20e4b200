/** The queue of pending transactions, indexed by ID, and the batches of new ones shared with peers. */
module Mempools {
  import opened Types
  import opened Collections

  /** Of a transaction's command only the size of its value matters here. */
  datatype Transaction = Transaction(id: string, size: nat)

  /** An element of the linked list. */
  class Element {
    const txn: Transaction

    constructor (txn: Transaction)
      ensures this.txn == txn
    {
      this.txn := txn;
    }
  }

  function Txns(list: seq<Element>): (ts: seq<Transaction>)
    ensures |ts| == |list| && forall i | 0 <= i < |list| :: ts[i] == list[i].txn
  {
    seq(|list|, i requires 0 <= i < |list| => list[i].txn)
  }

  /** q without the transactions that have the given ID. */
  function WithoutID(q: seq<Transaction>, id: string): seq<Transaction> {
    if q == [] then []
    else if q[|q| - 1].id == id then WithoutID(q[..|q| - 1], id)
    else WithoutID(q[..|q| - 1], id) + [q[|q| - 1]]
  }

  lemma {:induction false} WithoutUnknown(q: seq<Transaction>, id: string)
    requires forall i | 0 <= i < |q| :: q[i].id != id
    ensures WithoutID(q, id) == q
  {
    if q == [] {
    } else {
      WithoutUnknown(q[..|q| - 1], id);
    }
  }

  lemma {:induction false} WithoutOne(q: seq<Transaction>, k: nat)
    requires k < |q| && forall i | 0 <= i < |q| && i != k :: q[i].id != q[k].id
    ensures WithoutID(q, q[k].id) == q[..k] + q[k + 1..]
  {
    var front := q[..|q| - 1];
    if k == |q| - 1 {
      WithoutUnknown(front, q[k].id);
    } else {
      WithoutOne(front, k);
      assert q[..k] == front[..k] && q[k + 1..] == front[k + 1..] + [q[|q| - 1]];
    }
  }

  class Backend {
    var order: map<string, Element>
    var txns: seq<Element>
    var totalReceived: nat
    const limit: int
    // How often a transaction was inserted, removed by its ID, and handed out.
    ghost var inserted: nat
    ghost var removed: nat
    ghost var handedOut: nat

    /** Every indexed ID names an element of the list that holds a transaction with that ID, and every
        transaction inserted is still queued, was removed or was handed out. */
    ghost predicate Valid()
      reads this
    {
      && NoDup(txns) && (forall id | id in order :: order[id] in txns && order[id].txn.id == id)
      && inserted == |txns| + removed + handedOut
    }

    /** Every element of the list is indexed: no ID is queued twice. */
    ghost predicate Exact()
      reads this
    {
      Valid() && forall e | e in txns :: e.txn.id in order && order[e.txn.id] == e
    }

    ghost function Queue(): seq<Transaction>
      reads this
    {
      Txns(txns)
    }

    constructor (limit: int)
      ensures Exact() && Queue() == [] && this.limit == limit && totalReceived == 0
    {
      order, txns, totalReceived := map[], [], 0;
      inserted, removed, handedOut := 0, 0, 0;
      this.limit := limit;
    }

    function Size(): (n: nat)
      reads this
      ensures n == |Queue()|
    {
      |txns|
    }

    method InsertBack(txn: Transaction) returns (ok: bool)
      requires Valid()
      modifies this
      ensures Valid() && ok == (|old(Queue())| < limit)
      ensures if ok then Queue() == old(Queue()) + [txn] && totalReceived == old(totalReceived) + 1
                    else unchanged(this)
      ensures ok && old(Exact()) ==> (Exact() <==> txn.id !in old(order))
    {
      if Size() + 1 > limit {
        return false;
      }
      InsertNoLimit(txn);
      return true;
    }

    /** The index stays exact exactly if the ID was not queued. */
    method InsertNoLimit(txn: Transaction)
      requires Valid()
      modifies this
      ensures Valid() && Queue() == old(Queue()) + [txn] && totalReceived == old(totalReceived) + 1
      ensures inserted == old(inserted) + 1 && removed == old(removed) && handedOut == old(handedOut)
      ensures old(Exact()) ==> (Exact() <==> txn.id !in old(order))
    {
      totalReceived := totalReceived + 1;
      var e := new Element(txn);
      txns := txns + [e];
      order := order[txn.id := e];
      inserted := inserted + 1;
      assert e in txns;
      if txn.id in old(order) {
        assert old(order[txn.id]) in txns;
      }
    }

    method InsertFront(txn: Transaction)
      requires Valid()
      modifies this
      ensures Valid() && Queue() == [txn] + old(Queue()) && totalReceived == old(totalReceived)
      ensures inserted == old(inserted) + 1 && removed == old(removed) && handedOut == old(handedOut)
      ensures old(Exact()) ==> (Exact() <==> txn.id !in old(order))
    {
      var e := new Element(txn);
      txns := [e] + txns;
      order := order[txn.id := e];
      inserted := inserted + 1;
      assert e in txns;
      if txn.id in old(order) {
        assert old(order[txn.id]) in txns;
      }
    }

    /** Removes the indexed transaction with this ID; if no ID is queued twice, all that have it. */
    method Remove(id: string)
      requires Valid()
      modifies this
      ensures Valid() && totalReceived == old(totalReceived)
      ensures removed == old(removed) + (if id in old(order) then 1 else 0)
      ensures inserted == old(inserted) && handedOut == old(handedOut)
      ensures id !in order && (id !in old(order) ==> Queue() == old(Queue()))
      ensures old(Exact()) ==> Exact() && Queue() == WithoutID(old(Queue()), id)
    {
      if id !in order {
        if Exact() { WithoutUnknown(Queue(), id); }
        return;
      }
      var e := order[id];
      var k :| 0 <= k < |txns| && txns[k] == e;
      if Exact() { WithoutOne(Queue(), k); }
      Unlink(k, false);
    }

    /** Takes the k-th element off the list, and its ID off the index. */
    method Unlink(k: nat, ghost handOut: bool)
      requires Valid() && k < |txns|
      modifies this
      ensures Valid() && totalReceived == old(totalReceived)
      ensures Queue() == old(Queue())[..k] + old(Queue())[k + 1..] && old(txns)[k].txn.id !in order
      ensures inserted == old(inserted)
      ensures handedOut == old(handedOut) + (if handOut then 1 else 0)
      ensures removed == old(removed) + (if handOut then 0 else 1)
      ensures old(Exact()) ==> Exact()
    {
      var e := txns[k];
      txns := txns[..k] + txns[k + 1..];
      order := order - {e.txn.id};
      if handOut {
        handedOut := handedOut + 1;
      } else {
        removed := removed + 1;
      }
      forall i | i in order ensures order[i] in txns {
        assert order[i] in old(txns);
      }
    }

    method Front() returns (txn: Option<Transaction>)
      requires Valid()
      modifies this
      ensures Valid() && totalReceived == old(totalReceived)
      ensures txn.None? <==> old(Queue()) == []
      ensures old(Queue()) == (if txn.Some? then [txn.value] else []) + Queue()
      ensures inserted == old(inserted) && removed == old(removed)
      ensures old(Exact()) ==> Exact()
    {
      if txns == [] {
        return None;
      }
      txn := Option.Some(txns[0].txn);
      Unlink(0, true);
    }

    /** Hands out the first transactions, at most n, in order. */
    method Some(n: nat) returns (batch: seq<Transaction>)
      requires Valid()
      modifies this
      ensures Valid() && totalReceived == old(totalReceived)
      ensures old(Queue()) == batch + Queue()
      ensures |batch| == if |old(Queue())| < n then |old(Queue())| else n
      ensures inserted == old(inserted) && removed == old(removed)
      ensures old(Exact()) ==> Exact()
    {
      hide Valid, Exact, Queue;
      var batchSize := Size();
      if batchSize >= n {
        batchSize := n;
      }
      batch := [];
      for i := 0 to batchSize
        invariant Valid() && totalReceived == old(totalReceived) && |batch| == i
        invariant old(Queue()) == batch + Queue()
        invariant inserted == old(inserted) && removed == old(removed)
        invariant old(Exact()) ==> Exact()
      {
        ghost var rest := Queue();
        var txn := Front();
        OneDone(old(Queue()), batch, rest);
        batch := batch + [txn.value];
      }
    }
  }

  // ---------- sharing new transactions in batches ----------

  datatype Sharing = Sharing(buffer: seq<Transaction>, bufferSize: nat, deliverSize: int)

  /** What sharing an accepted transaction emits and leaves buffered; late: the share interval is over. */
  function Share(s: Sharing, txn: Transaction, late: bool): (seq<Transaction>, Sharing) {
    if s.bufferSize + txn.size > s.deliverSize || late
    then (s.buffer, s.(buffer := [txn], bufferSize := txn.size))
    else ([], s.(buffer := s.buffer + [txn], bufferSize := s.bufferSize + txn.size))
  }

  class MemPool {
    const backend: Backend
    var buffer: seq<Transaction>
    var bufferSize: nat
    const deliverSize: int

    ghost function State(): Sharing
      reads this
    {
      Sharing(buffer, bufferSize, deliverSize)
    }

    constructor (limit: int, deliverSize: int)
      ensures backend.Exact() && backend.Queue() == [] && State() == Sharing([], 0, deliverSize)
      ensures fresh(backend)
    {
      backend := new Backend(limit);
      buffer, bufferSize, this.deliverSize := [], 0, deliverSize;
    }

    /** A transaction the queue refuses changes nothing and emits nothing. */
    method AddNew(txn: Transaction, late: bool) returns (batch: seq<Transaction>)
      requires backend.Valid()
      modifies this, backend
      ensures backend.Valid()
      ensures if |old(backend.Queue())| < backend.limit
              then (batch, State()) == Share(old(State()), txn, late) && backend.Queue() == old(backend.Queue()) + [txn]
              else batch == [] && State() == old(State()) && backend.Queue() == old(backend.Queue())
    {
      batch := [];
      var ok := backend.InsertBack(txn);
      if !ok {
        return;
      }
      if bufferSize + txn.size > deliverSize || late {
        batch := buffer;
        buffer, bufferSize := [], 0;
      }
      assert [] + [txn] == [txn];
      buffer := buffer + [txn];
      bufferSize := bufferSize + txn.size;
    }
  }

  /** The state after sharing the transactions, and everything emitted so far, in order. */
  function Shared(deliverSize: int, txns: seq<(Transaction, bool)>): (seq<Transaction>, Sharing) {
    if txns == [] then ([], Sharing([], 0, deliverSize))
    else
      var (emitted, s) := Shared(deliverSize, txns[..|txns| - 1]);
      var (batch, s') := Share(s, txns[|txns| - 1].0, txns[|txns| - 1].1);
      (emitted + batch, s')
  }

  function Accepted(txns: seq<(Transaction, bool)>): seq<Transaction> {
    if txns == [] then [] else Accepted(txns[..|txns| - 1]) + [txns[|txns| - 1].0]
  }

  function Bytes(txns: seq<Transaction>): nat {
    if txns == [] then 0 else Bytes(txns[..|txns| - 1]) + txns[|txns| - 1].size
  }

  /** All batches emitted, followed by the buffer, are the accepted transactions in order; bufferSize is
      the size of the buffer, and a buffer of several transactions stays within the size to deliver. */
  lemma {:induction false} SharingLosesNothing(deliverSize: int, txns: seq<(Transaction, bool)>)
    ensures var (emitted, s) := Shared(deliverSize, txns);
            && emitted + s.buffer == Accepted(txns)
            && s.bufferSize == Bytes(s.buffer) && s.deliverSize == deliverSize
            && (|s.buffer| > 1 ==> s.bufferSize <= deliverSize)
  {
    if txns == [] {
    } else {
      SharingLosesNothing(deliverSize, txns[..|txns| - 1]);
      var (emitted, s) := Shared(deliverSize, txns[..|txns| - 1]);
      var txn := txns[|txns| - 1].0;
      assert (s.buffer + [txn])[..|s.buffer|] == s.buffer && [txn][..0] == [];
      assert emitted + (s.buffer + [txn]) == emitted + s.buffer + [txn];
      assert emitted + [] == emitted;
    }
  }

  /** A further transaction has the whole buffer emitted, and exactly if it would make the bytes waiting
      exceed the size to deliver or the share interval is over; else it only joins the buffer. */
  lemma EmitsIff(deliverSize: int, txns: seq<(Transaction, bool)>, txn: Transaction, late: bool)
    ensures var (emitted, s) := Shared(deliverSize, txns);
            Shared(deliverSize, txns + [(txn, late)]) ==
            if Bytes(s.buffer + [txn]) > deliverSize || late
            then (emitted + s.buffer, Sharing([txn], Bytes([txn]), deliverSize))
            else (emitted, Sharing(s.buffer + [txn], Bytes(s.buffer + [txn]), deliverSize))
  {
    SharingLosesNothing(deliverSize, txns);
    var s := Shared(deliverSize, txns).1;
    assert (txns + [(txn, late)])[..|txns|] == txns;
    BytesOfOne(s.buffer, txn);
    BytesOfOne([], txn);
    assert [] + [txn] == [txn];
    assert Shared(deliverSize, txns).0 + [] == Shared(deliverSize, txns).0;
  }

  lemma BytesOfOne(txns: seq<Transaction>, txn: Transaction)
    ensures Bytes(txns + [txn]) == Bytes(txns) + txn.size
  {
    assert (txns + [txn])[..|txns|] == txns;
  }
}
