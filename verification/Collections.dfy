/** Facts about sequences without repetition and about sizes. */
module Collections {

  predicate NoDup<T(==)>(s: seq<T>) {
    forall i, j | 0 <= i < j < |s| :: s[i] != s[j]
  }

  lemma {:induction false} SetOfNoDup<T>(s: seq<T>)
    requires NoDup(s)
    ensures |set x | x in s| == |s|
  {
    if s == [] {
    } else {
      SetOfNoDup(s[1..]);
      assert (set x | x in s) == (set x | x in s[1..]) + {s[0]};
      assert s[0] !in s[1..];
    }
  }

  lemma DisjointSum<T>(whole: set<T>, a: set<T>, b: set<T>)
    requires whole == a + b && a !! b
    ensures |whole| == |a| + |b|
  {
  }

  lemma MapSize<K, V>(m: map<K, V>)
    ensures |m| == |m.Keys|
  {
  }

  lemma OneMore<T>(c: seq<T>, x: T)
    requires NoDup(c) && x !in c
    ensures NoDup(c + [x])
    ensures forall y :: y in c + [x] <==> y in c || y == x
  {
  }

  lemma {:induction false} CountOfNoDup<T>(s: seq<T>, x: T)
    requires NoDup(s)
    ensures multiset(s)[x] == if x in s then 1 else 0
  {
    if s == [] {
    } else {
      CountOfNoDup(s[1..], x);
      assert s == [s[0]] + s[1..];
      assert multiset(s) == multiset{s[0]} + multiset(s[1..]);
    }
  }

  lemma NoDupMultiset<T>(s: seq<T>, t: seq<T>)
    requires NoDup(s) && NoDup(t)
    requires forall x :: x in s <==> x in t
    ensures multiset(s) == multiset(t)
  {
    forall x: T ensures multiset(s)[x] == multiset(t)[x] {
      CountOfNoDup(s, x);
      CountOfNoDup(t, x);
    }
  }

  lemma {:induction false} SubsetSize<T>(a: set<T>, b: set<T>)
    requires a <= b
    ensures |a| <= |b|
    ensures |a| == |b| ==> a == b
  {
    if a == {} {
    } else {
      var x :| x in a;
      SubsetSize(a - {x}, b - {x});
    }
  }

  lemma NoneDone<T>(all: seq<T>)
    ensures all == [] + all
  {
  }

  lemma OneDone<T>(all: seq<T>, done: seq<T>, rest: seq<T>)
    requires all == done + rest && rest != []
    ensures all == done + [rest[0]] + rest[1..]
  {
  }
}
