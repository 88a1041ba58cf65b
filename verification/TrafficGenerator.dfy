/** The send loop of src/collectd-tg.c: value lists wait in a priority queue ordered by
    their next send time; the earliest one is sent, moved ahead by the interval and put
    back. Times and the common interval are exact reals. */
module TrafficGenerator {

  /** Result of compare_time. */
  function CompareTime(t0: real, t1: real): int {
    if t0 < t1 then -1 else if t0 > t1 then 1 else 0
  }

  /** Value list i is one that the queue may hand out: no other one compares below it. */
  predicate Earliest(times: seq<real>, i: nat) {
    i < |times| && forall j :: 0 <= j < |times| ==> CompareTime(times[i], times[j]) <= 0
  }

  /** The next send times and how often each value list has been sent. */
  datatype Queue = Queue(times: seq<real>, counts: seq<nat>) {
    predicate Valid() {
      |times| == |counts|
    }
  }

  /** send_value and the reinsertion, for value list i. */
  function Sent(q: Queue, interval: real, i: nat): (r: Queue)
    requires q.Valid() && i < |q.times|
    ensures r.Valid() && |r.times| == |q.times|
  {
    Queue(q.times[i := q.times[i] + interval], q.counts[i := q.counts[i] + 1])
  }

  /** A run: which value list each send picked. Ties may be broken in any way. */
  ghost predicate Schedule(q: Queue, interval: real, picks: seq<nat>)
    requires q.Valid()
    decreases |picks|
  {
    picks == [] ||
    (Earliest(q.times, picks[0]) && Schedule(Sent(q, interval, picks[0]), interval, picks[1..]))
  }

  ghost function After(q: Queue, interval: real, picks: seq<nat>): (r: Queue)
    requires q.Valid() && Schedule(q, interval, picks)
    ensures r.Valid() && |r.times| == |q.times|
    decreases |picks|
  {
    if picks == [] then q else After(Sent(q, interval, picks[0]), interval, picks[1..])
  }

  /** The times at which the sends were due. */
  ghost function SendTimes(q: Queue, interval: real, picks: seq<nat>): (r: seq<real>)
    requires q.Valid() && Schedule(q, interval, picks)
    ensures |r| == |picks|
    decreases |picks|
  {
    if picks == [] then []
    else [q.times[picks[0]]] + SendTimes(Sent(q, interval, picks[0]), interval, picks[1..])
  }

  /** All next send times lie within `spread` of each other. */
  predicate Within(times: seq<real>, spread: real) {
    forall i, j :: 0 <= i < |times| && 0 <= j < |times| ==> times[i] - times[j] <= spread
  }

  predicate NotBefore(times: seq<real>, t: real) {
    forall j :: 0 <= j < |times| ==> t <= times[j]
  }

  lemma SentWithin(q: Queue, interval: real, i: nat, spread: real)
    requires q.Valid() && Earliest(q.times, i) && 0.0 < interval <= spread && Within(q.times, spread)
    ensures Within(Sent(q, interval, i).times, spread)
    ensures NotBefore(Sent(q, interval, i).times, q.times[i])
  {
    assert forall j :: 0 <= j < |q.times| ==> q.times[i] <= q.times[j];
  }

  predicate NeverDecreasing(times: seq<real>) {
    forall i, j :: 0 <= i < j < |times| ==> times[i] <= times[j]
  }

  /** Send times never decrease, and none is before a bound on all waiting times. */
  lemma {:induction false} SendTimesSorted(q: Queue, interval: real, picks: seq<nat>, t: real)
    requires q.Valid() && 0.0 < interval && Schedule(q, interval, picks) && NotBefore(q.times, t)
    ensures NeverDecreasing(SendTimes(q, interval, picks))
    ensures NotBefore(SendTimes(q, interval, picks), t)
    decreases |picks|
  {
    if picks != [] {
      var i := picks[0];
      assert forall j :: 0 <= j < |q.times| ==> q.times[i] <= q.times[j];
      assert NotBefore(Sent(q, interval, i).times, q.times[i]);
      SendTimesSorted(Sent(q, interval, i), interval, picks[1..], q.times[i]);
    }
  }

  /** The difference of two send counts. */
  function Lead(a: int, b: int): int {
    a - b
  }

  /** Each value list has been moved ahead once for every time it was sent. */
  ghost predicate Accounts(q: Queue, start: Queue, interval: real)
    requires q.Valid() && start.Valid()
  {
    |q.times| == |start.times| &&
    forall i :: 0 <= i < |q.times| ==>
      q.times[i] == start.times[i] + Lead(q.counts[i], start.counts[i]) as real * interval
  }

  lemma SentAccounts(q: Queue, start: Queue, interval: real, i: nat)
    requires q.Valid() && start.Valid() && i < |q.times| && Accounts(q, start, interval)
    ensures Accounts(Sent(q, interval, i), start, interval)
  {
    var k := Lead(q.counts[i], start.counts[i]);
    assert (k + 1) as real * interval == k as real * interval + interval;
  }

  lemma {:induction false} SpreadKept(q: Queue, start: Queue, interval: real, picks: seq<nat>, spread: real)
    requires q.Valid() && start.Valid() && 0.0 < interval <= spread
    requires Schedule(q, interval, picks) && Within(q.times, spread) && Accounts(q, start, interval)
    ensures var r := After(q, interval, picks); Within(r.times, spread) && Accounts(r, start, interval)
    decreases |picks|
  {
    if picks != [] {
      SentWithin(q, interval, picks[0], spread);
      SentAccounts(q, start, interval, picks[0]);
      SpreadKept(Sent(q, interval, picks[0]), start, interval, picks[1..], spread);
    }
  }

  function Max(a: real, b: real): real {
    if a < b then b else a
  }

  function Abs(x: real): real {
    if x < 0.0 then -x else x
  }

  /** Two send counts differ by at most `bound`, measured in time. */
  predicate Apart(ki: nat, kj: nat, interval: real, bound: real) {
    Abs(Lead(ki, kj) as real) * interval <= bound
  }

  lemma StartAccounts(start: Queue, interval: real)
    requires start.Valid()
    ensures Accounts(start, start, interval)
  {
    assert forall i :: 0 <= i < |start.counts| ==> Lead(start.counts[i], start.counts[i]) == 0;
  }

  /** Fairness for ever: after any number of sends the next times are within
      max(S0, I) of each other, where S0 is the initial spread and I the interval, and
      the send counts of any two value lists satisfy |ki - kj| * I <= max(S0, I) + S0. */
  lemma Fairness(start: Queue, interval: real, spread0: real, picks: seq<nat>, i: nat, j: nat)
    requires start.Valid() && 0.0 < interval && Within(start.times, spread0)
    requires (forall k :: 0 <= k < |start.counts| ==> start.counts[k] == 0)
    requires Schedule(start, interval, picks) && i < |start.times| && j < |start.times|
    ensures var r := After(start, interval, picks);
            Within(r.times, Max(spread0, interval)) && Apart(r.counts[i], r.counts[j], interval, Max(spread0, interval) + spread0)
  {
    StartAccounts(start, interval);
    SpreadKept(start, start, interval, picks, Max(spread0, interval));
    CountsBounded(After(start, interval, picks), start, interval, Max(spread0, interval), spread0, i, j);
  }

  lemma CountsBounded(q: Queue, start: Queue, interval: real, spread: real, spread0: real, i: nat, j: nat)
    requires q.Valid() && start.Valid() && 0.0 < interval && i < |start.times| && j < |start.times|
    requires start.counts[i] == 0 && start.counts[j] == 0
    requires Within(q.times, spread) && Within(start.times, spread0) && Accounts(q, start, interval)
    ensures Apart(q.counts[i], q.counts[j], interval, spread + spread0)
  {
    var di, dj := q.times[i] - start.times[i], q.times[j] - start.times[j];
    CountsFromTimes(q.counts[i], q.counts[j], di, dj, interval);
    assert Abs(di - dj) <= spread + spread0;
  }

  lemma CountsFromTimes(ki: nat, kj: nat, di: real, dj: real, interval: real)
    requires 0.0 < interval && di == ki as real * interval && dj == kj as real * interval
    ensures Abs(Lead(ki, kj) as real) * interval == Abs(di - dj)
  {
    var d := Lead(ki, kj) as real;
    assert d == ki as real - kj as real;
    assert d * interval == di - dj;
    if d < 0.0 {
      assert (-d) * interval == -(d * interval);
      assert (-d) * interval > 0.0;
    } else {
      assert d * interval >= 0.0;
    }
  }

  // ---------------------------------------------------------------- the procedures

  /** The value lists waiting in values_heap. */
  class Generator {
    const interval: real
    var times: seq<real>
    var counts: seq<nat>

    ghost predicate Valid()
      reads this
    {
      |times| == |counts| && 0.0 < interval
    }

    ghost function View(): (q: Queue)
      requires Valid()
      reads this
      ensures q.Valid()
    {
      Queue(times, counts)
    }

    constructor (interval: real, times: seq<real>)
      requires 0.0 < interval
      ensures Valid() && this.interval == interval && this.times == times
      ensures forall k :: 0 <= k < |counts| ==> counts[k] == 0
    {
      this.interval := interval;
      this.times := times;
      counts := seq(|times|, _ => 0);
    }

    /** c_heap_get_root: a value list with the smallest time. */
    method GetRoot() returns (i: nat)
      requires Valid() && times != []
      ensures Earliest(times, i)
    {
      i := 0;
      for j := 1 to |times|
        invariant i < |times| && forall k :: 0 <= k < j ==> times[i] <= times[k]
      {
        if CompareTime(times[j], times[i]) < 0 {
          i := j;
        }
      }
    }

    /** send_value and c_heap_insert */
    method SendValue(i: nat)
      requires Valid() && i < |times|
      modifies this
      ensures Valid() && View() == Sent(old(View()), interval, i)
    {
      counts := counts[i := counts[i] + 1];
      times := times[i := times[i] + interval];
    }

    /** The main loop for a number of sends: the picks form a schedule. */
    method Generate(n: nat) returns (picks: seq<nat>)
      requires Valid() && times != []
      modifies this
      ensures Valid() && |picks| == n
      ensures Schedule(old(View()), interval, picks)
      ensures View() == After(old(View()), interval, picks)
    {
      picks := [];
      for k := 0 to n
        invariant Valid() && times != [] && |picks| == k
        invariant Schedule(old(View()), interval, picks)
        invariant View() == After(old(View()), interval, picks)
      {
        var i := GetRoot();
        Extend(old(View()), interval, picks, i);
        SendValue(i);
        picks := picks + [i];
      }
    }
  }

  lemma {:induction false} Extend(q: Queue, interval: real, picks: seq<nat>, i: nat)
    requires q.Valid() && Schedule(q, interval, picks) && Earliest(After(q, interval, picks).times, i)
    ensures Schedule(q, interval, picks + [i])
    ensures After(q, interval, picks + [i]) == Sent(After(q, interval, picks), interval, i)
    decreases |picks|
  {
    if picks == [] {
      assert (picks + [i])[1..] == [];
    } else {
      assert (picks + [i])[1..] == picks[1..] + [i];
      Extend(Sent(q, interval, picks[0]), interval, picks[1..], i);
    }
  }
}
