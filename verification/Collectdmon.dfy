/** The respawn limiter of src/collectdmon.c: check_respawn counts child exits from a
    fixed anchor and sleeps when there are too many; the main loop calls it after every
    exit. Times are whole seconds since the epoch. */
module Collectdmon {

  /** The static variables of check_respawn. */
  datatype Guard = Guard(timestamp: int, counter: int)

  const START: Guard := Guard(0, 0)
  const WINDOW: int := 120
  const LIMIT: int := 10
  const PAUSE: int := 300

  /** One call of check_respawn at time t. */
  function Check(g: Guard, t: int): Guard {
    if g.timestamp >= t - WINDOW then g.(counter := g.counter + 1) else Guard(t, 0)
  }

  /** Does this call end in the long sleep? */
  predicate Throttled(g: Guard) {
    g.counter >= LIMIT
  }

  /** The guard after the first k of these exits. */
  function GuardAfter(times: seq<int>, k: nat): Guard
    requires k <= |times|
  {
    if k == 0 then START else Check(GuardAfter(times, k - 1), times[k - 1])
  }

  /** Exit times of a run that no signal ended: the clock is past the first window and
      never goes back, and after a throttled exit the next one comes after the sleep. */
  ghost predicate Exits(times: seq<int>) {
    && (times != [] ==> times[0] > WINDOW)
    && (forall k {:trigger GuardAfter(times, k)} :: 0 < k < |times| ==>
          times[k - 1] + (if Throttled(GuardAfter(times, k)) then PAUSE else 0) <= times[k])
  }

  lemma {:induction false} Sorted(times: seq<int>, i: nat, j: nat)
    requires Exits(times) && i <= j < |times|
    ensures times[i] <= times[j]
    decreases j - i
  {
    if i < j {
      Sorted(times, i, j - 1);
      assert GuardAfter(times, j) == GuardAfter(times, j);
    }
  }

  /** The counter stays between 0 and the limit, and names the exit it was reset at. */
  lemma {:induction false} GuardInv(times: seq<int>, k: nat)
    requires Exits(times) && 0 < k <= |times|
    ensures var g := GuardAfter(times, k);
            && 0 <= g.counter <= LIMIT
            && g.counter < k
            && times[k - 1 - g.counter] == g.timestamp
            && g.timestamp <= times[k - 1] <= g.timestamp + WINDOW
  {
    if k > 1 {
      GuardInv(times, k - 1);
      assert GuardAfter(times, k - 1) == GuardAfter(times, k - 1);
      Sorted(times, k - 2, k - 1);
    }
  }

  /** Exit m resets the anchor that was in force after exit i, at most as many exits later
      as the counter has left; if it uses them all up, the long sleep lies between. */
  ghost predicate ResetAt(times: seq<int>, i: nat, m: nat)
    requires i < m < |times|
  {
    var g := GuardAfter(times, i + 1);
    && times[m] > g.timestamp + WINDOW
    && GuardAfter(times, m + 1) == Guard(times[m], 0)
    && m <= i + LIMIT + 1 - g.counter
    && (m == i + LIMIT + 1 - g.counter ==> times[m] >= times[i] + PAUSE)
  }

  lemma {:induction false} ResetComes(times: seq<int>, i: nat) returns (m: nat)
    requires Exits(times) && i < |times|
    requires i + LIMIT + 1 - GuardAfter(times, i + 1).counter < |times|
    ensures i < m < |times| && ResetAt(times, i, m)
    decreases LIMIT - GuardAfter(times, i + 1).counter
  {
    GuardInv(times, i + 1);
    var g, g' := GuardAfter(times, i + 1), GuardAfter(times, i + 2);
    Sorted(times, i, i + 1);
    if g.timestamp >= times[i + 1] - WINDOW {
      GuardInv(times, i + 2);
      assert g' == g.(counter := g.counter + 1);
      m := ResetComes(times, i + 1);
    } else {
      m := i + 1;
    }
  }

  /** Any twenty-one consecutive exits take more than 120 seconds. */
  lemma TwentyOneSpread(times: seq<int>, i: nat)
    requires Exits(times) && i + 20 < |times|
    ensures times[i + 20] - times[i] > WINDOW
  {
    GuardInv(times, i + 1);
    var c := GuardAfter(times, i + 1).counter;
    var m := ResetComes(times, i);
    Sorted(times, i, m);
    Sorted(times, m, i + 20);
    if m != i + LIMIT + 1 - c && c > 0 {
      // The reset at m opens a new anchor, and m is at most i + 9.
      var n := ResetComes(times, m);
      Sorted(times, n, i + 20);
    }
  }

  /** How many of these exits fall into the closed window of 120 seconds from `from`. */
  function InWindow(times: seq<int>, from: int): (n: nat)
    ensures n <= |times|
  {
    if times == [] then 0
    else
      var last := times[|times| - 1];
      InWindow(times[..|times| - 1], from) + (if from <= last <= from + WINDOW then 1 else 0)
  }

  lemma {:induction false} NoneBefore(times: seq<int>, from: int)
    requires forall i :: 0 <= i < |times| ==> times[i] < from
    ensures InWindow(times, from) == 0
  {
    if times != [] {
      NoneBefore(times[..|times| - 1], from);
    }
  }

  lemma {:induction false} WindowSplit(a: seq<int>, b: seq<int>, from: int)
    ensures InWindow(a + b, from) == InWindow(a, from) + InWindow(b, from)
  {
    if b == [] {
      assert a + b == a;
    } else {
      assert (a + b)[..|a + b| - 1] == a + b[..|b| - 1];
      WindowSplit(a, b[..|b| - 1], from);
    }
  }

  /** The bound, for every run: no closed window of 120 seconds has more than 20 exits. */
  lemma {:induction false} AtMostTwenty(times: seq<int>, from: int, k: nat)
    requires Exits(times) && k <= |times|
    ensures InWindow(times[..k], from) <= 20
    decreases k
  {
    if k > 20 {
      var last := times[k - 1];
      assert times[..k][..k - 1] == times[..k - 1];
      if from <= last <= from + WINDOW {
        assert times[..k] == times[..k - 20] + times[k - 20..k];
        WindowSplit(times[..k - 20], times[k - 20..k], from);
        var early := times[..k - 20];
        forall i | 0 <= i < |early| ensures early[i] < from {
          TwentyOneSpread(times, k - 21);
          Sorted(times, i, k - 21);
        }
        NoneBefore(early, from);
      } else {
        AtMostTwenty(times, from, k - 1);
      }
    }
  }

  /** Over any run: the counter never exceeds 10, and the window bound holds. */
  lemma RespawnBound(times: seq<int>, from: int)
    requires Exits(times)
    ensures forall k :: 0 <= k <= |times| ==> 0 <= GuardAfter(times, k).counter <= LIMIT
    ensures InWindow(times, from) <= 20
  {
    forall k | 0 <= k <= |times| ensures 0 <= GuardAfter(times, k).counter <= LIMIT {
      if k > 0 {
        GuardInv(times, k);
      }
    }
    AtMostTwenty(times, from, |times|);
    assert times[..|times|] == times;
  }

  /** n copies of t. */
  function Repeat(t: int, n: nat): (r: seq<int>)
    ensures |r| == n && forall i :: 0 <= i < n ==> r[i] == t
  {
    seq(n, _ => t)
  }

  lemma {:induction false} CountUp(times: seq<int>, k: nat, n: nat)
    requires k + n <= |times|
    requires forall i :: k <= i < k + n ==> times[i] <= GuardAfter(times, k).timestamp + WINDOW
    ensures GuardAfter(times, k + n) == GuardAfter(times, k).(counter := GuardAfter(times, k).counter + n)
  {
    if n > 0 {
      CountUp(times, k, n - 1);
    }
  }

  lemma {:induction false} AllInside(times: seq<int>, from: int)
    requires forall i :: 0 <= i < |times| ==> from <= times[i] <= from + WINDOW
    ensures InWindow(times, from) == |times|
  {
    if times != [] {
      AllInside(times[..|times| - 1], from);
    }
  }

  /** An anchor, nine exits 120 seconds later, and eleven more one second after these. */
  function Burst(): (r: seq<int>)
    ensures |r| == 21
    ensures forall i :: 0 <= i < 21 ==> r[i] == if i == 0 then 121 else if i < 10 then 241 else 242
  {
    [121] + Repeat(241, 9) + Repeat(242, 11)
  }

  lemma BurstGuards(k: nat)
    requires 0 < k <= 21
    ensures GuardAfter(Burst(), k) == if k <= 10 then Guard(121, k - 1) else Guard(242, k - 11)
  {
    var times := Burst();
    assert GuardAfter(times, 1) == Check(GuardAfter(times, 0), 121) == Guard(121, 0);
    if k <= 10 {
      CountUp(times, 1, k - 1);
    } else {
      CountUp(times, 1, 9);
      assert GuardAfter(times, 11) == Check(GuardAfter(times, 10), 242) == Guard(242, 0);
      CountUp(times, 11, k - 11);
    }
  }

  /** The bound is exact: this run puts twenty exits into one window. */
  lemma {:induction false} TwentyIsReached()
    ensures Exits(Burst()) && InWindow(Burst(), 241) == 20
  {
    var times := Burst();
    forall k {:trigger GuardAfter(times, k)} | 0 < k < |times|
      ensures times[k - 1] + (if Throttled(GuardAfter(times, k)) then PAUSE else 0) <= times[k]
    {
      BurstGuards(k);
    }
    var rest := Repeat(241, 9) + Repeat(242, 11);
    assert times == [121] + rest;
    WindowSplit([121], rest, 241);
    NoneBefore([121], 241);
    AllInside(rest, 241);
  }

  // ---------------------------------------------------------------- the procedures

  /** An answer of sleep: the seconds left when it returned, and `loop` at that time. */
  datatype Slept = Slept(left: nat, loop: int)

  /** Each call reports at most the time it was asked to sleep, and the last one none. */
  predicate Answers(answers: seq<Slept>) {
    && answers != [] && answers[|answers| - 1].left == 0
    && answers[0].left <= PAUSE
    && forall i :: 0 < i < |answers| ==> answers[i].left <= answers[i - 1].left
  }

  /** The sleep of check_respawn: while it is interrupted by signals that do not end the
      program it goes on for the remaining time. It ends after the full 300 seconds, or
      with the first interruption that does end the program. */
  method SleepLoop(answers: seq<Slept>) returns (slept: nat)
    requires Answers(answers)
    ensures exists k :: 0 <= k < |answers| && slept == 300 - answers[k].left
              && (answers[k].left == 0 || answers[k].loop != 0)
              && forall i :: 0 <= i < k ==> answers[i].left > 0 && answers[i].loop == 0
  {
    var timeLeft := 300;
    slept := 0;
    var i := 0;
    while i < |answers|
      invariant 0 <= i <= |answers| && slept + timeLeft == 300 && timeLeft >= 0
      invariant timeLeft == if i == 0 then 300 else answers[i - 1].left
      invariant forall k :: 0 <= k < i ==> answers[k].left > 0 && answers[k].loop == 0
    {
      var left := answers[i].left;
      slept := slept + (timeLeft - left);
      timeLeft := left;
      if !(timeLeft > 0 && answers[i].loop == 0) {
        return;
      }
      i := i + 1;
    }
  }

  /** The monitor: the static variables of check_respawn. */
  class Monitor {
    var timestamp: int
    var counter: int

    constructor ()
      ensures timestamp == 0 && counter == 0
    {
      timestamp, counter := 0, 0;
    }

    ghost function State(): Guard
      reads this
    {
      Guard(timestamp, counter)
    }

    /** check_respawn; the result says whether it sleeps. */
    method CheckRespawn(t: int) returns (sleeps: bool)
      modifies this
      ensures State() == Check(old(State()), t) && sleeps == Throttled(State())
    {
      if timestamp >= t - 120 {
        counter := counter + 1;
      } else {
        timestamp := t;
        counter := 0;
      }
      sleeps := counter >= 10;
    }

    /** The main loop over the exits of one run: it sleeps at most after every eleventh exit. */
    method Supervise(times: seq<int>) returns (pauses: nat)
      requires State() == START && Exits(times)
      modifies this
      ensures State() == GuardAfter(times, |times|)
      ensures 0 <= counter <= LIMIT
      ensures pauses * 11 <= |times|
    {
      pauses := 0;
      for i := 0 to |times|
        invariant State() == GuardAfter(times, i)
        invariant pauses * 11 + (if counter < LIMIT && i > 0 then counter + 1 else 0) <= i
        invariant 0 <= counter <= LIMIT
      {
        GuardInv(times, i + 1);
        var sleeps := CheckRespawn(times[i]);
        if sleeps {
          pauses := pauses + 1;
        }
      }
    }
  }
}
