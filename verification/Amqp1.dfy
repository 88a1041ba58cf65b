/** The outgoing message queue of src/amqp1.c. Writer threads enqueue under a lock and
    drop the oldest message when the queue is full; the event thread detaches as many
    messages as the link credit allows and sends them outside the lock. At shutdown the
    event thread frees what is left, without taking the lock.

    Messages are numbered in the order in which they were enqueued. The machine's steps
    are the critical sections, the test of `stopping` before a send, the single sends,
    and the reading, unlinking and freeing of a message by the drain. */
module Amqp1 {
  import opened Common

  /** A message sent under a delivery tag. */
  datatype Delivery = Delivery(tag: nat, msg: nat)

  /** The event thread: waiting for an event or sending a batch; past the test of
      `stopping` with this credit; in the drain before it reads the head, with the head
      read, with a message unlinked and the read one still to be freed; ended. */
  datatype Pc = Waiting | Tested(credit: int) | Between | Head(msg: nat) | Freeing(msg: nat) | Ended

  /** The shared queue and tag counter, the event thread's place, detached list and tag,
      and what has become of the messages: sent, evicted, or unlinked by the drain;
      `drainFrees` lists what the drain has freed, and `freed` all cd_message_free calls. */
  datatype State = State(
    limit: int, next: nat, queue: seq<nat>, cdTag: nat, stopping: bool, pc: Pc,
    toSend: seq<nat>, dtag: nat,
    sent: seq<Delivery>, evicted: seq<nat>, drained: seq<nat>, drainFrees: seq<nat>, freed: seq<nat>)

  /** cd_tag starts at 1. */
  function Init(limit: int): State {
    State(limit, 0, [], 1, false, Waiting, [], 0, [], [], [], [], [])
  }

  datatype Step = Enqueue | Test(credit: int) | Detach | SendOne | Stop | BeginDrain | ReadHead | RemoveHead | FreeRead

  /** How many messages a send call takes from the queue. */
  function Batch(s: State, credit: int): (n: nat)
    ensures n <= |s.queue|
  {
    if credit <= 0 then 0 else Min(credit, |s.queue|)
  }

  predicate Full(s: State) {
    0 < s.limit <= |s.queue|
  }

  /** The locked part of encqueue. */
  function Enqueued(s: State): State {
    var s1 := if Full(s) && s.queue != [] then
                s.(evicted := s.evicted + [s.queue[0]], freed := s.freed + [s.queue[0]], queue := s.queue[1..])
              else s;
    s1.(queue := s1.queue + [s.next], next := s.next + 1)
  }

  /** The locked part of amqp1_send_out_messages. */
  function Detached(s: State, credit: int): State {
    var n := Batch(s, credit);
    s.(toSend := s.queue[..n], queue := s.queue[n..], dtag := s.cdTag, cdTag := s.cdTag + n)
  }

  function SentOne(s: State): State
    requires s.toSend != []
  {
    s.(toSend := s.toSend[1..], dtag := s.dtag + 1,
       sent := s.sent + [Delivery(s.dtag + 1, s.toSend[0])], freed := s.freed + [s.toSend[0]])
  }

  /** DEQ_REMOVE_HEAD in the drain: it unlinks whatever is the head by now. */
  function Unlinked(s: State): State
    requires s.queue != []
  {
    s.(queue := s.queue[1..], drained := s.drained + [s.queue[0]])
  }

  function FreedRead(s: State, msg: nat): State {
    s.(drainFrees := s.drainFrees + [msg], freed := s.freed + [msg])
  }

  /** One step of some thread, or None if it is not possible now. The event thread is
      one thread: it tests and drains only after the last batch has been sent. */
  function Next(s: State, step: Step): Option<State> {
    match step
    case Enqueue => Some(Enqueued(s))
    case Test(credit) =>
      if s.pc == Waiting && s.toSend == [] then Some(if s.stopping then s else s.(pc := Tested(credit))) else None
    case Detach => if s.pc.Tested? then Some(Detached(s, s.pc.credit).(pc := Waiting)) else None
    case SendOne => if s.pc == Waiting && s.toSend != [] then Some(SentOne(s)) else None
    case Stop => Some(s.(stopping := true))
    case BeginDrain => if s.pc == Waiting && s.stopping && s.toSend == [] then Some(s.(pc := Between)) else None
    case ReadHead =>
      if s.pc == Between then Some(s.(pc := if s.queue == [] then Ended else Head(s.queue[0]))) else None
    case RemoveHead =>
      if s.pc.Head? && s.queue != [] then Some(Unlinked(s).(pc := Freeing(s.pc.msg))) else None
    case FreeRead => if s.pc.Freeing? then Some(FreedRead(s, s.pc.msg).(pc := Between)) else None
  }

  function Run(s: State, steps: seq<Step>): Option<State>
    decreases |steps|
  {
    if steps == [] then Some(s)
    else match Next(s, steps[0]) case None => None case Some(s') => Run(s', steps[1..])
  }

  // ------------------------------------------------------------------- invariant

  /** The numbers a, a + 1, ..., b - 1. */
  function Range(a: nat, b: nat): (r: seq<nat>)
    requires a <= b
    ensures |r| == b - a
    ensures forall i :: 0 <= i < |r| ==> r[i] == a + i
  {
    seq(b - a, i requires 0 <= i < b - a => a + i)
  }

  function Messages(sent: seq<Delivery>): (r: seq<nat>)
    ensures |r| == |sent|
    ensures forall i :: 0 <= i < |r| ==> r[i] == sent[i].msg
  {
    seq(|sent|, i requires 0 <= i < |sent| => sent[i].msg)
  }

  predicate Increasing(a: seq<nat>) {
    forall i, j :: 0 <= i < j < |a| ==> a[i] < a[j]
  }

  /** The number of messages that have left the queue. */
  function Front(s: State): int {
    s.next - |s.queue|
  }

  /** The queue holds the newest messages, in order, and respects the limit. */
  predicate QueueOk(s: State) {
    && |s.queue| <= s.next
    && s.queue == Range(Front(s), s.next)
    && (0 < s.limit ==> |s.queue| <= s.limit)
  }

  /** Tags are 2, 3, 4, ... in the order of sending, and cd_tag covers what is detached. */
  predicate TagsOk(s: State) {
    && (forall i :: 0 <= i < |s.sent| ==> s.sent[i].tag == i + 2)
    && s.cdTag == 1 + |s.sent| + |s.toSend|
    && (s.toSend != [] ==> s.dtag == 1 + |s.sent|)
  }

  /** Sending follows the order of enqueueing. */
  predicate OrderOk(s: State) {
    && Increasing(Messages(s.sent) + s.toSend)
    && (forall m :: m in Messages(s.sent) + s.toSend ==> m < Front(s))
  }

  /** Everything that has left the queue is in exactly one place. */
  predicate PlacesOk(s: State) {
    && |s.queue| <= s.next
    && multiset(Messages(s.sent)) + multiset(s.toSend) + multiset(s.evicted) + multiset(s.drained)
       == multiset(Range(0, Front(s)))
    && (s.evicted != [] ==> 0 < s.limit)
  }

  /** Who has called cd_message_free: the sends, the evictions, and the drain for what it
      read; all of it has left the queue. */
  predicate FreesOk(s: State) {
    && multiset(s.freed) == multiset(Messages(s.sent)) + multiset(s.evicted) + multiset(s.drainFrees)
    && (forall m :: m in s.drainFrees ==> m < Front(s))
  }

  /** The event thread's place. */
  predicate PcOk(s: State) {
    && (s.pc != Waiting ==> s.toSend == [])
    && (s.pc.Head? ==> s.queue != [] && s.pc.msg <= Front(s))
    && (s.pc.Freeing? ==> s.pc.msg < Front(s))
  }

  predicate Inv(s: State) {
    QueueOk(s) && TagsOk(s) && OrderOk(s) && PlacesOk(s) && FreesOk(s) && PcOk(s)
  }

  // ----------------------------------------------------------- it is invariant

  lemma RangeSnoc(a: nat, b: nat)
    requires a <= b
    ensures Range(a, b + 1) == Range(a, b) + [b]
  {
  }

  lemma RangeSplit(a: nat, b: nat, c: nat)
    requires a <= b <= c
    ensures Range(a, c) == Range(a, b) + Range(b, c)
    ensures Range(a, c)[..b - a] == Range(a, b) && Range(a, c)[b - a..] == Range(b, c)
  {
  }

  /** The queue after the oldest message has been taken out. */
  lemma PopQueue(s: State)
    requires QueueOk(s) && s.queue != []
    ensures s.queue[0] == Front(s)
    ensures s.queue[1..] == Range(Front(s) + 1, s.next)
    ensures multiset(Range(0, Front(s) + 1)) == multiset(Range(0, Front(s))) + multiset([s.queue[0]])
  {
    RangeSplit(Front(s), Front(s) + 1, s.next);
    RangeSnoc(0, Front(s));
  }

  lemma EnqueueInv(s: State)
    requires Inv(s)
    ensures Inv(Enqueued(s))
  {
    var s' := Enqueued(s);
    if Full(s) && s.queue != [] {
      PopQueue(s);
      RangeSnoc(Front(s) + 1, s.next);
    } else {
      RangeSnoc(Front(s), s.next);
    }
    assert QueueOk(s');
    EnqueuePlaces(s);
  }

  lemma EnqueuePlaces(s: State)
    requires Inv(s)
    ensures PlacesOk(Enqueued(s)) && FreesOk(Enqueued(s))
  {
    if Full(s) && s.queue != [] {
      PopQueue(s);
      var gone := multiset([s.queue[0]]);
      assert multiset(Enqueued(s).evicted) == multiset(s.evicted) + gone;
      assert multiset(Enqueued(s).freed) == multiset(s.freed) + gone;
    }
  }

  lemma DetachInv(s: State)
    requires Inv(s) && s.pc.Tested?
    ensures Inv(Next(s, Detach).value)
  {
    var s' := Next(s, Detach).value;
    var n := Batch(s, s.pc.credit);
    RangeSplit(Front(s), Front(s) + n, s.next);
    assert s'.toSend == Range(Front(s), Front(s'));
    DetachOrder(s, s');
    DetachPlaces(s, s');
  }

  lemma DetachPlaces(s: State, s': State)
    requires PlacesOk(s) && s.toSend == [] && Front(s) <= Front(s') && |s'.queue| <= s'.next
    requires s' == s.(toSend := s'.toSend, queue := s'.queue, dtag := s'.dtag, cdTag := s'.cdTag, pc := s'.pc)
    requires s'.toSend == Range(Front(s), Front(s'))
    ensures PlacesOk(s')
  {
    RangeSplit(0, Front(s), Front(s'));
  }

  lemma DetachOrder(s: State, s': State)
    requires OrderOk(s) && s.toSend == [] && s'.sent == s.sent && 0 <= Front(s) <= Front(s')
    requires s'.toSend == Range(Front(s), Front(s'))
    ensures OrderOk(s')
  {
    var all := Messages(s.sent) + s'.toSend;
    assert forall i :: 0 <= i < |s.sent| ==> (Messages(s.sent) + s.toSend)[i] == all[i];
    forall i | 0 <= i < |s.sent| ensures all[i] < Front(s) {
      assert all[i] in Messages(s.sent) + s.toSend;
    }
  }

  lemma SendInv(s: State)
    requires Inv(s) && s.pc == Waiting && s.toSend != []
    ensures Inv(SentOne(s))
  {
    var s' := SentOne(s);
    SendMoves(s);
    assert OrderOk(s');
    SendPlaces(s, s');
  }

  /** A send moves one message from the detached list to the sent ones. */
  lemma SendMoves(s: State)
    requires s.toSend != []
    ensures Messages(SentOne(s).sent) == Messages(s.sent) + [s.toSend[0]]
    ensures Messages(SentOne(s).sent) + SentOne(s).toSend == Messages(s.sent) + s.toSend
    ensures multiset(s.toSend) == multiset([s.toSend[0]]) + multiset(s.toSend[1..])
  {
    assert s.toSend == [s.toSend[0]] + s.toSend[1..];
  }

  lemma SendPlaces(s: State, s': State)
    requires PlacesOk(s) && FreesOk(s) && s.toSend != [] && s' == SentOne(s)
    ensures PlacesOk(s') && FreesOk(s')
  {
    SendMoves(s);
    var moved := multiset([s.toSend[0]]);
    assert multiset(Messages(s'.sent)) == multiset(Messages(s.sent)) + moved;
    assert multiset(s'.freed) == multiset(s.freed) + moved;
    assert multiset(Messages(s'.sent)) + multiset(s'.toSend) == multiset(Messages(s.sent)) + multiset(s.toSend);
  }

  lemma UnlinkInv(s: State)
    requires Inv(s) && s.pc.Head?
    ensures Inv(Next(s, RemoveHead).value)
  {
    PopQueue(s);
    assert QueueOk(Next(s, RemoveHead).value);
    assert multiset(Unlinked(s).drained) == multiset(s.drained) + multiset([s.queue[0]]);
  }

  lemma FreeInv(s: State)
    requires Inv(s) && s.pc.Freeing?
    ensures Inv(Next(s, FreeRead).value)
  {
    var s' := Next(s, FreeRead).value;
    var one := multiset([s.pc.msg]);
    assert multiset(s'.freed) == multiset(s.freed) + one;
    assert multiset(s'.drainFrees) == multiset(s.drainFrees) + one;
  }

  lemma NextInv(s: State, step: Step)
    requires Inv(s) && Next(s, step).Some?
    ensures Inv(Next(s, step).value)
  {
    match step
    case Enqueue => EnqueueInv(s);
    case Detach => DetachInv(s);
    case SendOne => SendInv(s);
    case RemoveHead => UnlinkInv(s);
    case FreeRead => FreeInv(s);
    case ReadHead => assert s.queue != [] ==> s.queue[0] == Front(s);
    case _ =>
  }

  lemma {:induction false} RunInv(s: State, steps: seq<Step>)
    requires Inv(s) && Run(s, steps).Some?
    ensures Inv(Run(s, steps).value)
    decreases |steps|
  {
    if steps != [] {
      NextInv(s, steps[0]);
      RunInv(Next(s, steps[0]).value, steps[1..]);
    }
  }

  ghost predicate Reachable(limit: int, s: State) {
    exists steps :: Run(Init(limit), steps) == Some(s)
  }

  lemma InitInv(limit: int)
    ensures Inv(Init(limit))
  {
    assert Range(0, 0) == [] && Messages([]) == [];
  }

  lemma ReachableInv(limit: int, s: State)
    requires Reachable(limit, s)
    ensures Inv(s) && s.limit == limit
  {
    var steps :| Run(Init(limit), steps) == Some(s);
    InitInv(limit);
    RunInv(Init(limit), steps);
    LimitKept(Init(limit), steps);
  }

  lemma {:induction false} LimitKept(s: State, steps: seq<Step>)
    requires Run(s, steps).Some?
    ensures Run(s, steps).value.limit == s.limit
    decreases |steps|
  {
    if steps != [] {
      LimitKept(Next(s, steps[0]).value, steps[1..]);
    }
  }

  // ------------------------------------------------------------ main statements

  /** In how many places message m is. */
  function Places(s: State, m: nat): nat {
    multiset(s.queue)[m] + multiset(Messages(s.sent))[m] + multiset(s.toSend)[m]
    + multiset(s.evicted)[m] + multiset(s.drained)[m]
  }

  lemma {:induction false} RangeCount(a: nat, b: nat, m: nat)
    requires a <= b
    ensures multiset(Range(a, b))[m] == if a <= m < b then 1 else 0
    decreases b - a
  {
    if a == b {
      assert Range(a, b) == [];
    } else {
      RangeSnoc(a, b - 1);
      RangeCount(a, b - 1, m);
    }
  }

  /** Conservation of places, under every interleaving: each message ever enqueued is in
      exactly one of queued, detached, sent, evicted, unlinked by the drain. */
  lemma Conservation(limit: int, s: State, m: nat)
    requires Reachable(limit, s)
    ensures Places(s, m) == if m < s.next then 1 else 0
  {
    ReachableInv(limit, s);
    OnePlace(s, m);
  }

  lemma OnePlace(s: State, m: nat)
    requires Inv(s)
    ensures Places(s, m) == if m < s.next then 1 else 0
  {
    RangeCount(Front(s), s.next, m);
    RangeCount(0, Front(s), m);
    var places := multiset(Messages(s.sent)) + multiset(s.toSend) + multiset(s.evicted) + multiset(s.drained);
    assert places[m] == multiset(Range(0, Front(s)))[m];
  }

  /** The last n elements. */
  function Newest(a: seq<nat>, n: nat): seq<nat>
    requires n <= |a|
  {
    a[|a| - n..]
  }

  /** Enqueueing puts the message behind all others and keeps as many of the newest ones as
      the limit allows, all of them without one; what does not stay was the oldest. */
  lemma EnqueueMeaning(limit: int, s: State)
    requires Reachable(limit, s)
    ensures var all, s' := s.queue + [s.next], Enqueued(s);
            var kept := if 0 < limit < |all| then limit else |all|;
            && s'.queue == Newest(all, kept) && s'.next == s.next + 1
            && s'.evicted == s.evicted + all[..|all| - kept]
            && s'.freed == s.freed + all[..|all| - kept]
            && s'.sent == s.sent && s'.toSend == s.toSend
  {
    ReachableInv(limit, s);
    var all := s.queue + [s.next];
    if 0 < limit < |all| {
      assert |s.queue| == limit;
      assert all[..1] == [s.queue[0]] && all[1..] == s.queue[1..] + [s.next];
    } else {
      assert all[0..] == all && s.evicted + all[..0] == s.evicted && s.freed + all[..0] == s.freed;
    }
  }

  /** A send call takes the oldest messages, until the credit is used up or none is left. */
  lemma CreditUsed(limit: int, s: State, s': State)
    requires Reachable(limit, s) && s.pc.Tested? && Next(s, Detach) == Some(s')
    ensures s'.toSend + s'.queue == s.queue
    ensures |s'.toSend| <= if s.pc.credit > 0 then s.pc.credit else 0
    ensures s.pc.credit > 0 ==> s'.queue == [] || |s'.toSend| == s.pc.credit
    ensures s'.cdTag == s.cdTag + |s'.toSend| && s'.sent == s.sent && s'.evicted == s.evicted
  {
    assert s.queue[..Batch(s, s.pc.credit)] + s.queue[Batch(s, s.pc.credit)..] == s.queue;
  }

  // ------------------------------------------------------------------ the frees

  /** No message is enqueued into a full queue while the drain is between reading the
      head and unlinking it. */
  predicate Undisturbed(s: State, steps: seq<Step>)
    decreases |steps|
  {
    steps == [] || Next(s, steps[0]).None? ||
    (!(steps[0] == Enqueue && s.pc.Head? && Full(s)) && Undisturbed(Next(s, steps[0]).value, steps[1..]))
  }

  /** What the drain has read is the head, then what it has unlinked; the others it has freed. */
  predicate DrainOk(s: State) {
    && (s.pc.Head? ==> s.queue != [] && s.queue[0] == s.pc.msg)
    && s.drained == s.drainFrees + (if s.pc.Freeing? then [s.pc.msg] else [])
  }

  /** Frees of m made, and one more if the drain is committed to it. */
  function FreesOf(s: State, m: nat): nat {
    multiset(s.freed)[m] + (if (s.pc.Head? || s.pc.Freeing?) && s.pc.msg == m then 1 else 0)
  }

  ghost predicate Doubled(s: State) {
    exists m :: FreesOf(s, m) >= 2
  }

  /** Is the event thread outside the body of the drain's loop? */
  predicate Outside(pc: Pc) {
    !pc.Head? && !pc.Freeing?
  }

  lemma UndisturbedStep(s: State, step: Step)
    requires Inv(s) && DrainOk(s) && Next(s, step).Some?
    requires !(step == Enqueue && s.pc.Head? && Full(s))
    ensures DrainOk(Next(s, step).value)
  {
    match step
    case RemoveHead => assert s.drainFrees + [] == s.drainFrees;
    case FreeRead => assert s.drainFrees + [s.pc.msg] + [] == s.drainFrees + [s.pc.msg];
    case _ =>
  }

  /** The enqueuer frees the head that the drain is about to free. */
  lemma DisturbedStep(s: State)
    requires Inv(s) && DrainOk(s) && s.pc.Head? && Full(s)
    ensures Doubled(Enqueued(s))
  {
    var m := s.pc.msg;
    assert multiset(Enqueued(s).freed) == multiset(s.freed) + multiset([m]);
    assert FreesOf(Enqueued(s), m) >= 2;
  }

  lemma FreesNeverLess(s: State, step: Step, m: nat)
    requires Next(s, step).Some?
    ensures FreesOf(Next(s, step).value, m) >= FreesOf(s, m)
  {
    var s' := Next(s, step).value;
    if |s'.freed| > |s.freed| {
      assert s'.freed == s.freed + [s'.freed[|s.freed|]];
      assert multiset(s'.freed) == multiset(s.freed) + multiset([s'.freed[|s.freed|]]);
    }
  }

  lemma {:induction false} StaysDoubled(s: State, steps: seq<Step>)
    requires Doubled(s) && Run(s, steps).Some?
    ensures Doubled(Run(s, steps).value)
    decreases |steps|
  {
    if steps != [] {
      var m :| FreesOf(s, m) >= 2;
      FreesNeverLess(s, steps[0], m);
      StaysDoubled(Next(s, steps[0]).value, steps[1..]);
    }
  }

  lemma {:induction false} RunFrees(s: State, steps: seq<Step>)
    requires Inv(s) && DrainOk(s) && Run(s, steps).Some?
    ensures if Undisturbed(s, steps) then DrainOk(Run(s, steps).value) else Doubled(Run(s, steps).value)
    decreases |steps|
  {
    if steps != [] {
      var s' := Next(s, steps[0]).value;
      if steps[0] == Enqueue && s.pc.Head? && Full(s) {
        DisturbedStep(s);
        StaysDoubled(s', steps[1..]);
      } else {
        NextInv(s, steps[0]);
        UndisturbedStep(s, steps[0]);
        RunFrees(s', steps[1..]);
      }
    }
  }

  /** While the drain is in order, a message is freed as soon as it is sent, evicted or
      drained, and once. */
  lemma FreedOnce(s: State, m: nat)
    requires Inv(s) && DrainOk(s)
    ensures multiset(s.freed)[m] <= 1 && FreesOf(s, m) <= 1
    ensures Outside(s.pc) ==> (multiset(s.freed)[m] == 1 <==> m < s.next && m !in s.queue && m !in s.toSend)
  {
    OnePlace(s, m);
    if s.pc.Freeing? {
      assert multiset(s.drained) == multiset(s.drainFrees) + multiset([s.pc.msg]);
    } else {
      assert s.drained == s.drainFrees;
    }
    if s.pc.Head? {
      assert s.pc.msg in multiset(s.queue);
    }
  }

  /** For every interleaving that has left the event thread outside the body of the
      drain: no message has been freed twice if and only if no message was enqueued into
      the full queue between the drain's reading the head and its unlinking it. In these
      runs, the freed messages are exactly those that were sent, evicted or drained. */
  lemma NoDoubleFree(limit: int, steps: seq<Step>)
    requires Run(Init(limit), steps).Some? && Outside(Run(Init(limit), steps).value.pc)
    ensures var s := Run(Init(limit), steps).value;
            && (Undisturbed(Init(limit), steps) <==> forall m: nat :: multiset(s.freed)[m] <= 1)
            && (Undisturbed(Init(limit), steps) ==>
                  forall m: nat :: multiset(s.freed)[m] == 1 <==> m < s.next && m !in s.queue && m !in s.toSend)
  {
    var s := Run(Init(limit), steps).value;
    InitInv(limit);
    RunInv(Init(limit), steps);
    RunFrees(Init(limit), steps);
    if Undisturbed(Init(limit), steps) {
      forall m: nat
        ensures multiset(s.freed)[m] <= 1
        ensures multiset(s.freed)[m] == 1 <==> m < s.next && m !in s.queue && m !in s.toSend
      {
        FreedOnce(s, m);
      }
    } else {
      var m :| FreesOf(s, m) >= 2;
      assert multiset(s.freed)[m] > 1;
    }
  }

  /** What happens when it is: the head is freed as evicted, the next message is unlinked,
      and the head is freed again; the next message is never freed. With a queue of one,
      the next message is the one just enqueued. */
  lemma Disturbance(s: State)
    requires s.pc.Head? && Full(s) && s.queue != [] && s.queue[0] == s.pc.msg
    ensures var m, rest := s.pc.msg, s.queue[1..] + [s.next];
            && rest[0] == (if |s.queue| == 1 then s.next else s.queue[1])
            && Run(s, [Enqueue] + ([RemoveHead] + [FreeRead])) ==
               Some(s.(queue := rest[1..], next := s.next + 1, pc := Between,
                       evicted := s.evicted + [m], drained := s.drained + [rest[0]],
                       drainFrees := s.drainFrees + [m], freed := s.freed + [m] + [m]))
  {
    var s1 := Enqueued(s);
    var s2 := Unlinked(s1).(pc := Freeing(s.pc.msg));
    OneRun(s, Enqueue, s1, [RemoveHead] + [FreeRead]);
    OneRun(s1, RemoveHead, s2, [FreeRead]);
    assert [FreeRead][1..] == [];
  }

  /** The state of a run with a limit of 2 whose drain has read the first of two messages. */
  const READ: State := Init(2).(queue := [0, 1], next := 2, stopping := true, pc := Head(0))

  /** Such a run: a third message evicts and frees message 0, which the drain has read;
      the drain unlinks message 1 and frees message 0 again. */
  lemma FreedTwice()
    ensures var steps := [Enqueue, Enqueue, Stop, BeginDrain, ReadHead] + ([Enqueue] + ([RemoveHead] + [FreeRead]));
            && !Undisturbed(Init(2), steps)
            && Run(Init(2), steps) ==
               Some(READ.(queue := [2], next := 3, pc := Between,
                          evicted := [0], drained := [1], drainFrees := [0], freed := [0, 0]))
  {
    UpToHead([Enqueue] + ([RemoveHead] + [FreeRead]));
    Disturbance(READ);
    assert [0, 1][1..] + [2] == [1, 2] && [1, 2][1..] == [2] && [] + [0] == [0] && [] + [1] == [1] && [] + [0] + [0] == [0, 0];
  }

  lemma UpToHead(rest: seq<Step>)
    ensures var steps := [Enqueue, Enqueue, Stop, BeginDrain, ReadHead] + rest;
            Run(Init(2), steps) == Run(READ, rest) && (Undisturbed(Init(2), steps) <==> Undisturbed(READ, rest))
  {
    var s1 := Init(2).(queue := [0], next := 1);
    var s2 := Init(2).(queue := [0, 1], next := 2);
    var tail := [Stop] + ([BeginDrain] + ([ReadHead] + rest));
    assert [] + [0] == [0] && [0] + [1] == [0, 1];
    FromTwo(s2, rest);
    OneStep(s1, Enqueue, s2, tail);
    OneStep(Init(2), Enqueue, s1, [Enqueue] + tail);
    assert [Enqueue, Enqueue, Stop, BeginDrain, ReadHead] + rest == [Enqueue] + ([Enqueue] + tail);
  }

  lemma FromTwo(s: State, rest: seq<Step>)
    requires s == Init(2).(queue := [0, 1], next := 2)
    ensures var steps := [Stop] + ([BeginDrain] + ([ReadHead] + rest));
            Run(s, steps) == Run(READ, rest) && (Undisturbed(s, steps) <==> Undisturbed(READ, rest))
  {
    var s3 := s.(stopping := true);
    var s4 := s3.(pc := Between);
    OneStep(s4, ReadHead, READ, rest);
    OneStep(s3, BeginDrain, s4, [ReadHead] + rest);
    OneStep(s, Stop, s3, [BeginDrain] + ([ReadHead] + rest));
  }

  lemma OneRun(s: State, step: Step, s': State, rest: seq<Step>)
    requires Next(s, step) == Some(s')
    ensures Run(s, [step] + rest) == Run(s', rest)
  {
    assert ([step] + rest)[1..] == rest;
  }

  lemma OneStep(s: State, step: Step, s': State, rest: seq<Step>)
    requires Next(s, step) == Some(s') && !s.pc.Head?
    ensures Run(s, [step] + rest) == Run(s', rest)
    ensures Undisturbed(s, [step] + rest) <==> Undisturbed(s', rest)
  {
    assert ([step] + rest)[1..] == rest;
  }

  /** Order and tags, under every interleaving: messages are sent in the order of
      enqueueing under the tags 2, 3, 4, ...; whatever has left the queue is older than
      whatever is in it; and the queue never exceeds a positive limit. */
  lemma OrderAndTags(limit: int, s: State)
    requires Reachable(limit, s)
    ensures forall i :: 0 <= i < |s.sent| ==> s.sent[i].tag == i + 2
    ensures forall i, j :: 0 <= i < j < |s.sent| ==> s.sent[i].msg < s.sent[j].msg
    ensures forall m, q :: q in s.queue && (m in s.freed || m in s.toSend) ==> m < q
    ensures 0 < limit ==> |s.queue| <= limit
  {
    ReachableInv(limit, s);
    assert forall i :: 0 <= i < |s.sent| ==> (Messages(s.sent) + s.toSend)[i] == s.sent[i].msg;
    forall m, q | q in s.queue && (m in s.freed || m in s.toSend) ensures m < q {
      LeftIsOlder(s, m);
    }
  }

  lemma LeftIsOlder(s: State, m: nat)
    requires Inv(s) && (m in s.freed || m in s.toSend)
    ensures m < Front(s)
  {
    var places := multiset(Messages(s.sent)) + multiset(s.toSend) + multiset(s.evicted) + multiset(s.drained);
    assert m in multiset(s.freed) || m in multiset(s.toSend);
    if m !in s.drainFrees {
      assert m in places;
      assert multiset(Range(0, Front(s)))[m] >= 1;
      RangeCount(0, Front(s), m);
    }
  }

  /** Without a limit and before the drain nothing is lost: what has been sent or is about
      to be sent is exactly the messages that have left the queue, in order. */
  lemma NothingLost(limit: int, s: State)
    requires Reachable(limit, s) && limit <= 0 && s.drained == []
    ensures 0 <= Front(s) && Messages(s.sent) + s.toSend == Range(0, Front(s))
  {
    ReachableInv(limit, s);
    var all := Messages(s.sent) + s.toSend;
    assert multiset(all) == multiset(Range(0, Front(s)));
    SortedIsRange(all, Front(s));
  }

  /** Steps of at least one: a[i] lies i above a[0] and |a| - 1 - i below the last. */
  lemma {:induction false} Spaced(a: seq<nat>, i: nat, j: nat)
    requires Increasing(a) && i <= j < |a|
    ensures a[i] + (j - i) <= a[j]
    decreases j - i
  {
    if i < j {
      Spaced(a, i, j - 1);
    }
  }

  /** An increasing sequence with the elements of an initial range is that range. */
  lemma SortedIsRange(a: seq<nat>, n: nat)
    requires Increasing(a) && multiset(a) == multiset(Range(0, n))
    ensures a == Range(0, n)
  {
    assert |a| == |multiset(a)| == |multiset(Range(0, n))| == n;
    forall i | 0 <= i < n ensures a[i] == i {
      Spaced(a, 0, i);
      Spaced(a, i, n - 1);
      assert a[n - 1] in multiset(Range(0, n));
    }
  }

  /** Once stopping, with no call past its test, only the batch under way still goes out. */
  lemma {:induction false} NothingNewSent(s: State, steps: seq<Step>)
    requires s.stopping && !s.pc.Tested? && Run(s, steps).Some?
    ensures var s' := Run(s, steps).value;
            Messages(s'.sent) + s'.toSend == Messages(s.sent) + s.toSend
    decreases |steps|
  {
    if steps != [] {
      if steps[0] == SendOne {
        SendMoves(s);
      }
      NothingNewSent(Next(s, steps[0]).value, steps[1..]);
    }
  }

  // ---------------------------------------------------------------- the procedures

  /** The queue, the event thread's list and the counters, changed by the C functions. */
  class Sender {
    const limit: int
    var queue: seq<nat>
    var cdTag: nat
    var stopping: bool
    var next: nat
    var sent: seq<Delivery>
    var evicted: seq<nat>
    var drained: seq<nat>
    var drainFrees: seq<nat>
    var freed: seq<nat>

    /** The state as the machine sees it, with the event thread's place and locals. */
    ghost function View(pc: Pc, toSend: seq<nat>, dtag: nat): State
      reads this
    {
      State(limit, next, queue, cdTag, stopping, pc, toSend, dtag, sent, evicted, drained, drainFrees, freed)
    }

    constructor (limit: int)
      ensures this.limit == limit && View(Waiting, [], 0) == Init(limit)
    {
      this.limit := limit;
      queue, cdTag, stopping, next := [], 1, false, 0;
      sent, evicted, drained, drainFrees, freed := [], [], [], [], [];
    }

    /** encqueue, between lock and unlock; the new message takes the next number. */
    method EnqueueLocked()
      modifies this
      ensures forall pc, toSend, dtag :: View(pc, toSend, dtag) == Enqueued(old(View(pc, toSend, dtag)))
    {
      if limit > 0 && |queue| >= limit {
        var evict := queue[0];
        queue := queue[1..];
        evicted := evicted + [evict];
        freed := freed + [evict];
      }
      queue := queue + [next];
      next := next + 1;
    }

    /** amqp1_send_out_messages, between lock and unlock. */
    method DetachLocked(credit: int) returns (toSend: seq<nat>, dtag: nat)
      modifies this`queue, this`cdTag
      ensures credit > 0 ==> View(Waiting, toSend, dtag) == Detached(old(View(Waiting, [], 0)), credit)
      ensures |toSend| == if credit <= 0 then 0 else Min(credit, |old(queue)|)
      ensures toSend == old(queue)[..|toSend|] && queue == old(queue)[|toSend|..]
      ensures cdTag == old(cdTag) + |toSend| && (credit > 0 ==> dtag == old(cdTag))
    {
      toSend, dtag := [], 0;
      if credit > 0 {
        dtag := cdTag;
        while queue != []
          invariant toSend + queue == old(queue) && cdTag == old(cdTag)
          invariant queue != [] ==> |toSend| < credit
          invariant |toSend| <= credit
          decreases |queue|
        {
          ghost var before := queue;
          var msg := queue[0];
          queue := queue[1..];
          toSend := toSend + [msg];
          assert before == [msg] + queue;
          if |toSend| == credit {
            break;
          }
        }
        assert toSend == old(queue)[..|toSend|] && queue == old(queue)[|toSend|..];
        assert |toSend| == Batch(old(View(Waiting, [], 0)), credit);
        cdTag := cdTag + |toSend|;
      }
    }

    /** amqp1_send_out_messages: with nobody in between, a call sends as many messages as
        credit and queue allow, the oldest first, under consecutive tags. */
    method SendOutMessages(credit: int) returns (count: nat)
      modifies this`queue, this`cdTag, this`sent, this`freed
      ensures count == if old(stopping) || credit <= 0 then 0 else Min(credit, |old(queue)|)
      ensures queue == old(queue)[count..] && cdTag == old(cdTag) + count
      ensures freed == old(freed) + old(queue)[..count]
      ensures |sent| == |old(sent)| + count && sent[..|old(sent)|] == old(sent)
      ensures forall i :: 0 <= i < count ==>
                sent[|old(sent)| + i] == Delivery(old(cdTag) + 1 + i, old(queue)[i])
    {
      count := 0;
      if stopping {
        return;
      }
      var toSend, dtag := DetachLocked(credit);
      if credit <= 0 {
        return;
      }
      ghost var batch := toSend;
      while toSend != []
        invariant count + |toSend| == |batch| && toSend == batch[count..]
        invariant queue == old(queue)[|batch|..] && cdTag == old(cdTag) + |batch|
        invariant dtag == old(cdTag) + count
        invariant freed == old(freed) + batch[..count]
        invariant |sent| == |old(sent)| + count && sent[..|old(sent)|] == old(sent)
        invariant forall i :: 0 <= i < count ==> sent[|old(sent)| + i] == Delivery(old(cdTag) + 1 + i, batch[i])
        decreases |toSend|
      {
        var msg := toSend[0];
        toSend := toSend[1..];
        dtag := dtag + 1;
        sent := sent + [Delivery(dtag, msg)];
        count := count + 1;
        freed := freed + [msg];
      }
    }

    /** The end of event_thread, with nobody in between. */
    method Drain()
      modifies this`queue, this`drained, this`drainFrees, this`freed
      ensures queue == [] && drained == old(drained) + old(queue)
      ensures drainFrees == old(drainFrees) + old(queue) && freed == old(freed) + old(queue)
    {
      ghost var n := 0;
      while queue != []
        invariant n <= |old(queue)| && queue == old(queue)[n..]
        invariant drained == old(drained) + old(queue)[..n]
        invariant drainFrees == old(drainFrees) + old(queue)[..n] && freed == old(freed) + old(queue)[..n]
        decreases |queue|
      {
        var msg := queue[0];
        drained := drained + [queue[0]];
        queue := queue[1..];
        drainFrees := drainFrees + [msg];
        freed := freed + [msg];
        n := n + 1;
      }
    }
  }
}
