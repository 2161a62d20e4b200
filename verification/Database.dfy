/** The key-value store, and when two batches of commands can be executed in either order. */
module Databases {
  import opened Types

  type Key = int
  type Value = seq<bv8>

  /** A command without a value reads; an empty value is a value. */
  datatype Command = Command(key: Key, value: Option<Value>, clientID: string, commandID: int) {
    predicate IsRead() { value.None? }
  }

  datatype Store = Store(data: map<Key, Value>, version: nat, multiversion: bool, history: map<Key, seq<Value>>)

  function Get(s: Store, k: Key): Option<Value> {
    if k in s.data then Some(s.data[k]) else None
  }

  function History(s: Store, k: Key): seq<Value> {
    if k in s.history then s.history[k] else []
  }

  function Updated(s: Store, k: Key, v: Option<Value>): Store {
    if v.None? then s
    else s.(data := s.data[k := v.value], version := s.version + 1,
            history := if s.multiversion then s.history[k := History(s, k) + [v.value]] else s.history)
  }

  class Database {
    var data: map<Key, Value>
    var version: nat
    const multiversion: bool
    var history: map<Key, seq<Value>>

    ghost function State(): Store
      reads this
    {
      Store(data, version, multiversion, history)
    }

    constructor (multiversion: bool)
      ensures State() == Store(map[], 0, multiversion, map[])
    {
      data, version, this.multiversion, history := map[], 0, multiversion, map[];
    }

    method Put(k: Key, v: Option<Value>)
      modifies this
      ensures State() == Updated(old(State()), k, v)
    {
      if v.Some? {
        data := data[k := v.value];
        version := version + 1;
        if multiversion {
          if k !in history {
            history := history[k := []];
          }
          history := history[k := history[k] + [v.value]];
        }
      }
    }

    /** Returns the value the key had before. */
    method Execute(c: Command) returns (v: Option<Value>)
      modifies this
      ensures v == Get(old(State()), c.key) && State() == Updated(old(State()), c.key, c.value)
    {
      v := if c.key in data then Some(data[c.key]) else None;
      Put(c.key, c.value);
    }
  }

  predicate Conflict(gamma: Command, delta: Command) {
    gamma.key == delta.key && (!gamma.IsRead() || !delta.IsRead())
  }

  predicate Conflicting(a: seq<Command>, b: seq<Command>) {
    exists i, j :: 0 <= i < |a| && 0 <= j < |b| && Conflict(a[i], b[j])
  }

  method ConflictBatch(a: seq<Command>, b: seq<Command>) returns (r: bool)
    ensures r <==> Conflicting(a, b)
  {
    for i := 0 to |a|
      invariant forall k, j | 0 <= k < i && 0 <= j < |b| :: !Conflict(a[k], b[j])
    {
      for j := 0 to |b|
        invariant forall k | 0 <= k < j :: !Conflict(a[i], b[k])
      {
        if Conflict(a[i], b[j]) {
          return true;
        }
      }
    }
    return false;
  }

  // ---------- executing batches ----------

  function Run(s: Store, b: seq<Command>): Store {
    if b == [] then s
    else
      var last := b[|b| - 1];
      Updated(Run(s, b[..|b| - 1]), last.key, last.value)
  }

  /** What the commands of b return. */
  function Values(s: Store, b: seq<Command>): (vs: seq<Option<Value>>)
    ensures |vs| == |b|
  {
    if b == [] then []
    else
      var front := b[..|b| - 1];
      Values(s, front) + [Get(Run(s, front), b[|b| - 1].key)]
  }

  /** From s, the two orders end in one state, and every command returns the same in both. */
  ghost predicate Commute(s: Store, a: seq<Command>, b: seq<Command>) {
    && Run(Run(s, a), b) == Run(Run(s, b), a)
    && Values(s, a) == Values(Run(s, b), a)
    && Values(s, b) == Values(Run(s, a), b)
  }

  lemma CommandsCommute(s: Store, c: Command, d: Command)
    requires !Conflict(c, d)
    ensures Updated(Updated(s, c.key, c.value), d.key, d.value) == Updated(Updated(s, d.key, d.value), c.key, c.value)
    ensures Get(Updated(s, c.key, c.value), d.key) == Get(s, d.key)
  {
    if c.key != d.key && c.value.Some? && d.value.Some? {
      var x, y := c.value.value, d.value.value;
      assert s.data[c.key := x][d.key := y] == s.data[d.key := y][c.key := x];
      var hc, hd := History(s, c.key) + [x], History(s, d.key) + [y];
      assert s.history[c.key := hc][d.key := hd] == s.history[d.key := hd][c.key := hc];
    }
  }

  /** A command without conflict moves past a batch. */
  lemma {:induction false} CommandPasses(s: Store, c: Command, b: seq<Command>)
    requires forall d | d in b :: !Conflict(c, d)
    ensures var s' := Updated(s, c.key, c.value);
            && Run(s', b) == Updated(Run(s, b), c.key, c.value)
            && Values(s', b) == Values(s, b)
            && Get(Run(s, b), c.key) == Get(s, c.key)
  {
    if b == [] {
    } else {
      var front, d := b[..|b| - 1], b[|b| - 1];
      CommandPasses(s, c, front);
      assert d in b;
      CommandsCommute(Run(s, front), c, d);
      CommandsCommute(Run(s, front), d, c);
    }
  }

  lemma {:induction false} BatchesCommute(s: Store, a: seq<Command>, b: seq<Command>)
    requires !Conflicting(a, b)
    ensures Commute(s, a, b)
  {
    if a == [] {
    } else {
      var front, c := a[..|a| - 1], a[|a| - 1];
      assert forall i | 0 <= i < |front| :: front[i] == a[i];
      BatchesCommute(s, front, b);
      CommandPasses(Run(s, front), c, b);
    }
  }

  // ---------- conflicting batches are told apart ----------

  predicate Touches(b: seq<Command>, k: Key) {
    exists i :: 0 <= i < |b| && b[i].key == k
  }

  predicate Writes(b: seq<Command>, k: Key) {
    exists i :: 0 <= i < |b| && b[i].key == k && !b[i].IsRead()
  }

  /** After a batch that writes k, the value of k does not depend on the state before. */
  lemma {:induction false} LastWrite(s: Store, t: Store, b: seq<Command>, k: Key)
    requires Writes(b, k)
    ensures Get(Run(s, b), k) == Get(Run(t, b), k)
  {
    var front, last := b[..|b| - 1], b[|b| - 1];
    if last.key != k || last.IsRead() {
      var i :| 0 <= i < |b| && b[i].key == k && !b[i].IsRead();
      assert front[i] == b[i];
      LastWrite(s, t, front, k);
    }
  }

  /** Two states that differ at k are told apart by the first command of b on k. */
  lemma {:induction false} FirstTouchTells(s: Store, t: Store, b: seq<Command>, k: Key)
    requires Touches(b, k) && Get(s, k) != Get(t, k)
    ensures Values(s, b) != Values(t, b)
  {
    var front, last := b[..|b| - 1], b[|b| - 1];
    if Touches(front, k) {
      FirstTouchTells(s, t, front, k);
      assert Values(s, b)[..|front|] == Values(s, front) && Values(t, b)[..|front|] == Values(t, front);
    } else {
      forall n | 0 <= n < |front| ensures b[n].key != k {
        assert front[n] == b[n];
      }
      Untouched(s, front, k);
      Untouched(t, front, k);
      assert Values(s, b)[|Values(s, b)| - 1] == Get(s, k);
      assert Values(t, b)[|Values(t, b)| - 1] == Get(t, k);
    }
  }

  lemma {:induction false} Untouched(s: Store, b: seq<Command>, k: Key)
    requires !Touches(b, k)
    ensures Get(Run(s, b), k) == Get(s, k)
  {
    if b == [] {
    } else {
      var front := b[..|b| - 1];
      assert forall i | 0 <= i < |front| :: front[i] == b[i];
      Untouched(s, front, k);
      assert b[|b| - 1].key != k;
    }
  }

  function Empty(multiversion: bool): Store {
    Store(map[], 0, multiversion, map[])
  }

  /** One write into an empty store gives k a value other than v. */
  function Other(multiversion: bool, k: Key, v: Option<Value>): (puts: seq<Command>)
    ensures Get(Run(Empty(multiversion), puts), k) != v
  {
    var puts := [Command(k, Some(if v.Some? then v.value + [0] else []), "", 0)];
    assert puts[..0] == [] && Run(Empty(multiversion), []) == Empty(multiversion);
    puts
  }

  lemma WriterTold(multiversion: bool, a: seq<Command>, b: seq<Command>, k: Key)
    requires Writes(a, k) && Touches(b, k)
    ensures exists puts :: var s := Run(Empty(multiversion), puts); Values(s, b) != Values(Run(s, a), b)
  {
    var last := Get(Run(Empty(multiversion), a), k);
    var puts := Other(multiversion, k, last);
    var s := Run(Empty(multiversion), puts);
    LastWrite(s, Empty(multiversion), a, k);
    FirstTouchTells(s, Run(s, a), b, k);
  }

  /** ConflictBatch is exact: if it reports no conflict, then from every state executing the batches in
      either order ends in the same data, version and history and every command returns the same value;
      and if it reports one, this fails from some state that writes to an empty database lead to. */
  lemma NoConflictIffCommute(multiversion: bool, a: seq<Command>, b: seq<Command>)
    ensures !Conflicting(a, b) <==> forall s :: Commute(s, a, b)
    ensures !Conflicting(a, b) <==> forall puts :: Commute(Run(Empty(multiversion), puts), a, b)
  {
    if !Conflicting(a, b) {
      forall s ensures Commute(s, a, b) { BatchesCommute(s, a, b); }
    } else {
      var i, j :| 0 <= i < |a| && 0 <= j < |b| && Conflict(a[i], b[j]);
      if a[i].IsRead() {
        WriterTold(multiversion, b, a, a[i].key);
        var puts :| var s := Run(Empty(multiversion), puts); Values(s, a) != Values(Run(s, b), a);
        assert !Commute(Run(Empty(multiversion), puts), a, b);
      } else {
        WriterTold(multiversion, a, b, a[i].key);
        var puts :| var s := Run(Empty(multiversion), puts); Values(s, b) != Values(Run(s, a), b);
        assert !Commute(Run(Empty(multiversion), puts), a, b);
      }
    }
  }

  // ---------- what is remembered ----------

  /** The values b writes to k, in order. */
  function Written(b: seq<Command>, k: Key): seq<Value> {
    if b == [] then []
    else
      var front, last := Written(b[..|b| - 1], k), b[|b| - 1];
      if last.key == k && last.value.Some? then front + [last.value.value] else front
  }

  function Last(vs: seq<Value>): Option<Value> {
    if vs == [] then None else Some(vs[|vs| - 1])
  }

  function Writers(b: seq<Command>): seq<Command> {
    if b == [] then [] else Writers(b[..|b| - 1]) + if b[|b| - 1].IsRead() then [] else [b[|b| - 1]]
  }

  /** A store that started empty holds the last value written to each key, counts the writes, and with
      multiple versions remembers every value written, in order. */
  lemma {:induction false} HoldsLastWrite(multiversion: bool, b: seq<Command>, k: Key)
    ensures var s := Run(Empty(multiversion), b);
            && Get(s, k) == Last(Written(b, k)) && s.version == |Writers(b)| && s.multiversion == multiversion
            && History(s, k) == if multiversion then Written(b, k) else []
  {
    if b == [] {
    } else {
      var front, last := b[..|b| - 1], b[|b| - 1];
      HoldsLastWrite(multiversion, front, k);
    }
  }

  /** Every command returns the last value written to its key before it. */
  lemma {:induction false} ReturnsLastWrite(multiversion: bool, b: seq<Command>, n: nat)
    requires n < |b|
    ensures Values(Empty(multiversion), b)[n] == Last(Written(b[..n], b[n].key))
  {
    var front := b[..|b| - 1];
    if n == |b| - 1 {
      HoldsLastWrite(multiversion, front, b[n].key);
    } else {
      ReturnsLastWrite(multiversion, front, n);
      assert front[..n] == b[..n];
    }
  }
}
