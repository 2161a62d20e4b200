/** The rate limiter of the benchmark clients. Times and durations are in nanoseconds. */
module Limiters {
  import opened Collections

  const SECOND := 1_000_000_000

  /** Go's integer division, which truncates toward zero. */
  function Quotient(a: int, b: int): int
    requires b != 0
  {
    if (a >= 0) == (b > 0) then Abs(a) / Abs(b) else -(Abs(a) / Abs(b))
  }

  function Abs(a: int): nat {
    if a < 0 then -a else a
  }

  /** last is meaningful once the first permit was given. */
  datatype State = State(started: bool, last: int, sleep: int, interval: int, slack: int)

  function New(rate: int): State
    requires rate != 0
  {
    State(false, 0, 0, Quotient(SECOND, rate), Quotient(-10 * SECOND, rate))
  }

  /** One call of Wait at time now; last is then the time of its permit. */
  function Permit(l: State, now: int): State {
    if !l.started then l.(started := true, last := now)
    else
      var owed := l.sleep + l.interval - (now - l.last);
      var sleep := if owed < l.slack then l.slack else owed;
      if sleep > 0 then l.(last := now + sleep, sleep := 0) else l.(last := now, sleep := sleep)
  }

  class Limiter {
    var started: bool
    var last: int
    var sleep: int
    const interval: int
    const slack: int

    ghost function Value(): State
      reads this
    {
      State(started, last, sleep, interval, slack)
    }

    constructor (rate: int)
      requires rate != 0
      ensures Value() == New(rate)
    {
      started, last, sleep := false, 0, 0;
      interval, slack := Quotient(SECOND, rate), Quotient(-10 * SECOND, rate);
    }

    /** Called at time now, returns the time to sleep before the permit. */
    method Wait(now: int) returns (pause: nat)
      modifies this
      ensures Value() == Permit(old(Value()), now) && last == now + pause
    {
      pause := 0;
      if !started {
        started, last := true, now;
        return;
      }
      sleep := sleep + interval - (now - last);
      if sleep < slack {
        sleep := slack;
      }
      if sleep > 0 {
        pause := sleep;
        last := now + sleep;
        sleep := 0;
      } else {
        last := now;
      }
    }
  }

  // ---------- whole runs ----------

  /** The limiter after one call at each of the given times. */
  function After(l: State, nows: seq<int>): State {
    if nows == [] then l else Permit(After(l, nows[..|nows| - 1]), nows[|nows| - 1])
  }

  /** When the i-th call was permitted. */
  function PermitTime(l: State, nows: seq<int>, i: nat): int
    requires i < |nows|
  {
    After(l, nows[..i + 1]).last
  }

  /** A started limiter owes no sleep, and is ahead by no more than the slack. */
  predicate InSlack(l: State) {
    l.sleep <= 0 && (l.sleep >= l.slack || l.sleep == 0)
  }

  /** Whatever the clock shows, two successive permits are an interval apart up to what sleep changed. */
  lemma OnePermit(l: State, now: int)
    requires l.started && InSlack(l)
    ensures var m := Permit(l, now);
            && m.started && InSlack(m) && m.interval == l.interval && m.slack == l.slack
            && m.last - l.last >= l.interval + l.sleep - m.sleep
  {
  }

  lemma {:induction false} RunInSlack(l: State, nows: seq<int>)
    requires !l.started && l.sleep == 0
    ensures var m := After(l, nows);
            InSlack(m) && m.started == (nows != []) && m.interval == l.interval && m.slack == l.slack
  {
    if nows == [] {
    } else {
      RunInSlack(l, nows[..|nows| - 1]);
    }
  }

  lemma {:induction false} Telescope(l: State, nows: seq<int>, i: nat, j: nat)
    requires !l.started && l.sleep == 0 && i <= j < |nows|
    ensures PermitTime(l, nows, j) - PermitTime(l, nows, i) >=
            (j - i) * l.interval + After(l, nows[..i + 1]).sleep - After(l, nows[..j + 1]).sleep
    decreases j
  {
    if i < j {
      Telescope(l, nows, i, j - 1);
      RunInSlack(l, nows[..j]);
      assert nows[..j + 1][..j] == nows[..j];
      OnePermit(After(l, nows[..j]), nows[j]);
      assert (j - i) * l.interval == (j - 1 - i) * l.interval + l.interval;
    }
  }

  function Credit(l: State): int {
    if l.slack < 0 then l.slack else 0
  }

  /** Any two permits of a run are as many intervals apart as calls lie between them, less the slack,
      whenever Wait was called and whatever was clamped. */
  lemma PermitsApart(rate: int, nows: seq<int>, i: nat, j: nat)
    requires rate != 0 && i <= j < |nows|
    ensures var l := New(rate);
            PermitTime(l, nows, j) - PermitTime(l, nows, i) >= (j - i) * l.interval + Credit(l)
  {
    var l := New(rate);
    Telescope(l, nows, i, j);
    RunInSlack(l, nows[..i + 1]);
    RunInSlack(l, nows[..j + 1]);
  }

  lemma {:induction false} Spread(s: set<nat>) returns (i: nat, j: nat)
    requires s != {}
    ensures i in s && j in s && i <= j && forall x | x in s :: i <= x <= j
  {
    var x :| x in s;
    var rest := s - {x};
    assert forall y | y in s :: y == x || y in rest;
    if rest == {} {
      i, j := x, x;
    } else {
      i, j := Spread(rest);
      if x < i { i := x; } else if x > j { j := x; }
    }
  }

  function Between(i: nat, j: nat): (s: set<nat>)
    requires i <= j
    ensures |s| == j - i && forall x :: x in s <==> i <= x < j
    decreases j
  {
    if i == j then {} else Between(i, j - 1) + {j - 1}
  }

  /** No window of length w sees more than 1 + (w - slack) / interval permits. */
  lemma WindowBound(rate: int, nows: seq<int>, calls: set<nat>, start: int, w: nat)
    requires 0 < rate <= SECOND
    requires forall i | i in calls :: i < |nows| && start <= PermitTime(New(rate), nows, i) <= start + w
    ensures New(rate).interval >= 1
    ensures |calls| <= 1 + (w - New(rate).slack) / New(rate).interval
  {
    var l := New(rate);
    assert l.interval >= 1 && l.slack <= 0;
    if calls == {} {
    } else {
      var i, j := Spread(calls);
      SubsetSize(calls, Between(i, j + 1));
      PermitsApart(rate, nows, i, j);
      if j - i > (w - l.slack) / l.interval {
        DivideBound(j - i, l.interval, w - l.slack);
      }
    }
  }

  lemma DivideBound(n: nat, d: nat, x: nat)
    requires d >= 1 && n > x / d
    ensures n * d > x
  {
    assert n * d >= (x / d + 1) * d;
  }

  /** A call that comes after the last permit is never delayed by more than an interval. */
  lemma DelayBound(rate: int, nows: seq<int>, now: int)
    requires rate > 0 && nows != [] && now >= After(New(rate), nows).last
    ensures 0 <= Permit(After(New(rate), nows), now).last - now <= New(rate).interval
  {
    RunInSlack(New(rate), nows);
  }

  // ---------- no permit comes later than it must ----------

  /** The earliest the i-th call lets the j-th be permitted: the first call by the intervals between them,
      a later one by these less the slack. */
  function Earliest(l: State, nows: seq<int>, i: nat, j: nat): int
    requires i <= j < |nows|
  {
    nows[i] + (j - i) * l.interval + if i == 0 then 0 else l.slack
  }

  /** The time up to which permits have been given out, which may lie before the last of them. */
  function Schedule(l: State): int {
    l.last + l.sleep
  }

  lemma OneSchedule(l: State, now: int)
    requires l.started && InSlack(l) && l.slack <= 0
    ensures var m, due := Permit(l, now), Schedule(l) + l.interval;
            && Schedule(m) == (if due < now + l.slack then now + l.slack else due)
            && m.last == if Schedule(m) < now then now else Schedule(m)
  {
  }

  lemma EarliestStep(l: State, nows: seq<int>, i: nat, j: nat)
    requires i <= j < |nows| - 1
    ensures Earliest(l, nows, i, j + 1) == Earliest(l, nows, i, j) + l.interval
  {
    assert (j + 1 - i) * l.interval == (j - i) * l.interval + l.interval;
  }

  lemma {:induction false} ScheduleIsEarliest(l: State, nows: seq<int>, j: nat)
    requires !l.started && l.sleep == 0 && l.slack <= 0 && j < |nows|
    ensures var at := Schedule(After(l, nows[..j + 1]));
            && (forall i | 0 <= i <= j :: at >= Earliest(l, nows, i, j))
            && exists i | 0 <= i <= j :: at == Earliest(l, nows, i, j)
    ensures var m := After(l, nows[..j + 1]); m.last == if Schedule(m) < nows[j] then nows[j] else Schedule(m)
  {
    assert nows[..j + 1][..j] == nows[..j];
    var before, m := After(l, nows[..j]), After(l, nows[..j + 1]);
    RunInSlack(l, nows[..j]);
    if j == 0 {
      assert Schedule(m) == Earliest(l, nows, 0, 0);
    } else {
      ScheduleIsEarliest(l, nows, j - 1);
      OneSchedule(before, nows[j]);
      forall i | 0 <= i <= j ensures Schedule(m) >= Earliest(l, nows, i, j) {
        if i < j { EarliestStep(l, nows, i, j - 1); }
      }
      var i :| 0 <= i <= j - 1 && Schedule(before) == Earliest(l, nows, i, j - 1);
      EarliestStep(l, nows, i, j - 1);
      assert Schedule(m) == Earliest(l, nows, i, j) || Schedule(m) == Earliest(l, nows, j, j);
    }
  }

  lemma RateOf(rate: nat)
    requires rate > 0
    ensures New(rate).interval == 1_000_000_000 / rate && New(rate).slack == -(10_000_000_000 / rate)
  {
  }

  /** The same with the rate written out: an interval is 1/rate seconds, and ten of them can be caught up. */
  function Bound(rate: nat, nows: seq<int>, i: nat, j: nat): int
    requires rate > 0 && i <= j < |nows|
  {
    nows[i] + (j - i) * (1_000_000_000 / rate) - if i == 0 then 0 else 10_000_000_000 / rate
  }

  /** A permit is given at the earliest time that is not before its call nor before any of these bounds,
      whatever the clock shows: idle time up to the slack is granted in full, and not more. */
  lemma PermitEarliest(rate: nat, nows: seq<int>, j: nat, t: int)
    requires rate > 0 && j < |nows|
    ensures PermitTime(New(rate), nows, j) <= t <==>
            nows[j] <= t && forall i | 0 <= i <= j :: Bound(rate, nows, i, j) <= t
  {
    RateOf(rate);
    assert forall i | 0 <= i <= j :: Bound(rate, nows, i, j) == Earliest(New(rate), nows, i, j);
    ScheduleIsEarliest(New(rate), nows, j);
    var i :| 0 <= i <= j && Schedule(After(New(rate), nows[..j + 1])) == Earliest(New(rate), nows, i, j);
  }
}
