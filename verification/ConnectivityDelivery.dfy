/** Delivery in src/connectivity.c: what the dequeue thread reaches on its own. */
module ConnectivityDelivery {
  import opened Common
  import opened Connectivity

  predicate Dequeues(step: Step) {
    step in {DeqLock, DeqTest, DeqRelock, DeqStatus, DeqPrev, DeqSent, DeqDispatch, DeqMark, DeqClear}
  }

  /** The dequeue thread alone can get from s to s'. */
  ghost predicate Leads(s: State, s': State) {
    exists steps :: (forall k :: 0 <= k < |steps| ==> Dequeues(steps[k])) && Run(s, steps) == Some(s')
  }

  lemma LeadsStep(s: State, step: Step, s': State, s'': State)
    requires Dequeues(step) && Next(s, step) == Some(s') && Leads(s', s'')
    ensures Leads(s, s'')
  {
    var steps :| (forall k :: 0 <= k < |steps| ==> Dequeues(steps[k])) && Run(s', steps) == Some(s'');
    assert ([step] + steps)[1..] == steps;
    assert Run(s, [step] + steps) == Some(s'');
  }

  /** The end of the send loop, where the flag is cleared. */
  function Finished(s: State, list: seq<Node>): State {
    State(s.net, Release, list, false)
  }

  /** The send loop, step by step, does what SendFrom says. */
  lemma {:induction false} LoopSends(s: State)
    requires s.deq.Sending? && s.deq.i <= |s.list|
    ensures Leads(s, Finished(s, SendFrom(s.list, s.deq.i)))
    decreases |s.list| - s.deq.i
  {
    var i := s.deq.i;
    if i == |s.list| {
      assert SendFrom(s.list, i) == s.list;
      assert Run(s, [DeqClear]) == Run(Finished(s, s.list), [DeqClear][1..]);
    } else {
      var next := s.(deq := Sending(i + 1), list := s.list[i := Send(s.list[i])]);
      assert SendFrom(next.list, i + 1) == SendFrom(s.list, i);
      LoopSends(next);
      OneNode(s, Finished(s, SendFrom(s.list, i)));
    }
  }

  lemma OneNode(s: State, end: State)
    requires s.deq.Sending? && s.deq.i < |s.list|
    requires Leads(s.(deq := Sending(s.deq.i + 1), list := s.list[s.deq.i := Send(s.list[s.deq.i])]), end)
    ensures Leads(s, end)
  {
    var i, n := s.deq.i, s.list[s.deq.i];
    var next := s.(deq := Sending(i + 1), list := s.list[i := Send(n)]);
    var s1 := s.(deq := Captured(i, n.status, n.prev, n.sent));
    var s2 := Next(s1, DeqDispatch).value;
    assert Leads(s2, end) by {
      if n.Unsent() {
        MarkLeads(s2, next, end);
      } else {
        assert next.list == s.list;
      }
    }
    LeadsStep(s1, DeqDispatch, s2, end);
    ThreeLoads(s, s1, end);
  }

  lemma ThreeLoads(s: State, s': State, end: State)
    requires s.deq.Sending? && s.deq.i < |s.list| && Leads(s', end)
    requires var n := s.list[s.deq.i]; s' == s.(deq := Captured(s.deq.i, n.status, n.prev, n.sent))
    ensures Leads(s, end)
  {
    var n := s.list[s.deq.i];
    var s1 := s.(deq := StatusRead(s.deq.i, n.status));
    var s2 := s.(deq := PrevRead(s.deq.i, n.status, n.prev));
    LastLoads(s1, s2, s', end);
    assert Next(s, DeqStatus) == Some(s1);
    LeadsStep(s, DeqStatus, s1, end);
  }

  lemma LastLoads(s1: State, s2: State, s': State, end: State)
    requires Next(s1, DeqPrev) == Some(s2) && Next(s2, DeqSent) == Some(s') && Leads(s', end)
    ensures Leads(s1, end)
  {
    LeadsStep(s2, DeqSent, s', end);
    LeadsStep(s1, DeqPrev, s2, end);
  }

  lemma MarkLeads(s: State, next: State, end: State)
    requires s.deq.Notified? && s.deq.i < |s.list| && Leads(next, end)
    requires next == s.(deq := next.deq, list := next.list) && next.deq == Sending(s.deq.i + 1)
    requires next.list == s.list[s.deq.i := s.list[s.deq.i].(sent := true)]
    ensures Leads(s, end)
  {
    LeadsStep(s, DeqMark, next, end);
  }

  lemma LeadsInv(s: State, s': State)
    requires Inv(s) && Leads(s, s')
    ensures Inv(s')
  {
    var steps :| (forall k :: 0 <= k < |steps| ==> Dequeues(steps[k])) && Run(s, steps) == Some(s');
    RunInv(s, steps);
  }

  /** The same interfaces with the same statuses, all of them sent. */
  predicate Delivered(before: seq<Node>, after: seq<Node>) {
    |before| == |after| &&
    forall i :: 0 <= i < |after| ==>
      && after[i].name == before[i].name && after[i].status == before[i].status
      && !after[i].Unsent()
      && (after[i].Known() ==> after[i].notes != [] && after[i].notes[|after[i].notes| - 1].to == after[i].status)
  }

  lemma DeliversFromLoop(s: State)
    requires Inv(s) && s.deq.Sending?
    ensures exists s' :: Leads(s, s') && Delivered(s.list, s'.list) && !s'.flag
  {
    LoopSends(s);
    var end := Finished(s, SendFrom(s.list, s.deq.i));
    LeadsInv(s, end);
    forall i | 0 <= i < |end.list|
      ensures var n := end.list[i];
              !n.Unsent() && (n.Known() ==> n.notes != [] && n.notes[|n.notes| - 1].to == n.status)
    {
      assert NodeInv(end, i);
    }
    assert Delivered(s.list, end.list);
  }

  lemma DeliveredFrom(before: seq<Node>, mid: seq<Node>, after: seq<Node>)
    requires |before| == |mid| && Delivered(mid, after)
    requires forall i :: 0 <= i < |mid| ==> mid[i].name == before[i].name && mid[i].status == before[i].status
    ensures Delivered(before, after)
  {
  }

  /** The dequeue thread changes no name and no status. */
  lemma DequeueKeeps(s: State, step: Step)
    requires Dequeues(step) && Next(s, step).Some?
    ensures var list := Next(s, step).value.list;
            |list| == |s.list|
            && forall i :: 0 <= i < |list| ==> list[i].name == s.list[i].name && list[i].status == s.list[i].status
  {
  }

  /** One more step of the dequeue thread in front. */
  lemma DeliversAfter(s: State, step: Step)
    requires Inv(s) && Dequeues(step) && Next(s, step).Some?
    requires exists s' :: Leads(Next(s, step).value, s') && Delivered(Next(s, step).value.list, s'.list) && !s'.flag
    ensures exists s' :: Leads(s, s') && Delivered(s.list, s'.list) && !s'.flag
  {
    var s1 := Next(s, step).value;
    var s' :| Leads(s1, s') && Delivered(s1.list, s'.list) && !s'.flag;
    LeadsStep(s, step, s1, s');
    DequeueKeeps(s, step);
    DeliveredFrom(s.list, s1.list, s'.list);
  }

  /** When the netlink thread is about to block while statuses wait to be sent, the
      dequeue thread alone gets to a state with every interface's status sent. */
  lemma EventuallyDelivered(s: State)
    requires Reachable(s) && s.net == Recv(true) && s.flag
    ensures exists s' :: Leads(s, s') && Delivered(s.list, s'.list) && !s'.flag
  {
    ReachableInv(s);
    DeliversFrom(s);
  }

  /** Steps left until the dequeue thread is in its loop or past a notification. */
  function ToGo(deq: DeqPc): nat {
    match deq
    case StatusRead(_, _) => 3
    case PrevRead(_, _, _) => 2
    case Captured(_, _, _, _) => 1
    case Idle => 1
    case _ => 0
  }

  lemma DeliversFrom(s: State)
    requires Inv(s) && s.flag && s.deq != Parked
    ensures exists s' :: Leads(s, s') && Delivered(s.list, s'.list) && !s'.flag
    decreases ToGo(s.deq)
  {
    match s.deq
    case Sending(_) => DeliversFromLoop(s);
    case Idle =>
      NextInv(s, DeqLock);
      DeliversFrom(Next(s, DeqLock).value);
      DeliversAfter(s, DeqLock);
    case Test =>
      NextInv(s, DeqTest);
      DeliversFromLoop(Next(s, DeqTest).value);
      DeliversAfter(s, DeqTest);
    case Woken =>
      NextInv(s, DeqRelock);
      DeliversFromLoop(Next(s, DeqRelock).value);
      DeliversAfter(s, DeqRelock);
    case StatusRead(_, _) =>
      NextInv(s, DeqPrev);
      DeliversFrom(Next(s, DeqPrev).value);
      DeliversAfter(s, DeqPrev);
    case PrevRead(_, _, _) =>
      NextInv(s, DeqSent);
      DeliversFrom(Next(s, DeqSent).value);
      DeliversAfter(s, DeqSent);
    case Captured(_, _, _, _) =>
      NextInv(s, DeqDispatch);
      DeliversFrom(Next(s, DeqDispatch).value);
      DeliversAfter(s, DeqDispatch);
    case Notified(_, _) =>
      NextInv(s, DeqMark);
      DeliversFromLoop(Next(s, DeqMark).value);
      DeliversAfter(s, DeqMark);
  }

  // -------------------------------------------------------- what a batch leaves behind

  /** The messages up to the first end mark or error. */
  function Taken(msgs: seq<Msg>): (r: seq<Msg>)
    ensures r <= msgs
    ensures forall i :: 0 <= i < |r| ==> !r[i].DoneMsg? && !r[i].ErrorMsg?
    ensures |r| < |msgs| ==> msgs[|r|].DoneMsg? || msgs[|r|].ErrorMsg?
  {
    if msgs == [] || msgs[0].DoneMsg? || msgs[0].ErrorMsg? then [] else [msgs[0]] + Taken(msgs[1..])
  }

  /** What the last of some messages about a device says, if there is one. */
  function LastSaid(msgs: seq<Msg>, dev: string): Option<bool> {
    if msgs == [] then None
    else
      var last := msgs[|msgs| - 1];
      if last.LinkMsg? && last.dev == dev then Some(last.running) else LastSaid(msgs[..|msgs| - 1], dev)
  }

  function StatusOf(list: seq<Node>, dev: string): Option<Link> {
    var i := Find(list, dev);
    if i < |list| then Some(list[i].status) else None
  }

  /** The link state of a device after some messages. */
  function Said(msgs: seq<Msg>, dev: string, before: Option<Link>): Option<Link> {
    match LastSaid(msgs, dev)
    case None => before
    case Some(running) => Some(if running then Up else Down)
  }

  lemma {:induction false} LastSaidFirst(m: Msg, rest: seq<Msg>, dev: string)
    ensures LastSaid([m] + rest, dev) ==
            match LastSaid(rest, dev)
            case Some(running) => Some(running)
            case None => if m.LinkMsg? && m.dev == dev then Some(m.running) else None
    decreases |rest|
  {
    if rest == [] {
      assert ([m] + rest)[..0] == [];
    } else {
      assert ([m] + rest)[..|rest|] == [m] + rest[..|rest| - 1];
      LastSaidFirst(m, rest[..|rest| - 1], dev);
    }
  }

  lemma FindIs(list: seq<Node>, dev: string, i: nat)
    requires i <= |list| && (forall k :: 0 <= k < i ==> list[k].name != dev) && (i < |list| ==> list[i].name == dev)
    ensures Find(list, dev) == i
  {
  }

  lemma LinkStateSays(list: seq<Node>, dev: string, running: bool, other: string)
    ensures StatusOf(LinkState(list, dev, running), other) ==
            if other == dev then Some(if running then Up else Down) else StatusOf(list, other)
  {
    var i, r := Find(list, dev), LinkState(list, dev, running);
    if i < |list| {
      forall k | 0 <= k < |list| ensures r[k].name == list[k].name {
      }
      FindIs(r, other, Find(list, other));
    } else {
      FindIs(r, other, if other == dev then 0 else 1 + Find(list, other));
    }
  }

  ghost predicate OnlyHandles(steps: seq<Step>) {
    forall k :: 0 <= k < |steps| ==> steps[k] == NetHandle
  }

  /** A whole batch while the lock is free: every message before the first end mark or
      error is taken, so that each device is up exactly if the last one about it said so
      and the others are as they were; an error ends the thread. */
  lemma {:induction false} BatchHandled(s: State, msgs: seq<Msg>) returns (steps: seq<Step>, s': State)
    requires s.net == Busy(msgs) && !Holding(s.deq)
    ensures OnlyHandles(steps) && Run(s, steps) == Some(s')
    ensures var n := |Taken(msgs)|; s'.net == if n < |msgs| && msgs[n].ErrorMsg? then Ended else Recv(false)
    ensures AllSaid(s.list, Taken(msgs), s'.list)
    ensures s'.deq == s.deq && (s.flag ==> s'.flag)
    decreases |msgs|
  {
    s' := Handle(s).value;
    if msgs == [] || msgs[0].DoneMsg? || msgs[0].ErrorMsg? {
      steps := [NetHandle];
      assert Run(s, steps) == Run(s', steps[1..]);
    } else {
      var mid, rest := s', msgs[1..];
      steps, s' := BatchHandled(mid, rest);
      assert ([NetHandle] + steps)[1..] == steps;
      steps := [NetHandle] + steps;
      FirstSays(s, mid);
      SaidThen(s.list, mid.list, s'.list, msgs[0], Taken(rest));
    }
  }

  /** Every device has the state that the messages say, in the list after them. */
  ghost predicate AllSaid(before: seq<Node>, msgs: seq<Msg>, after: seq<Node>) {
    forall dev :: StatusOf(after, dev) == Said(msgs, dev, StatusOf(before, dev))
  }

  lemma SaidThen(before: seq<Node>, mid: seq<Node>, after: seq<Node>, m: Msg, rest: seq<Msg>)
    requires AllSaid(before, [m], mid) && AllSaid(mid, rest, after)
    ensures AllSaid(before, [m] + rest, after)
  {
    forall dev ensures StatusOf(after, dev) == Said([m] + rest, dev, StatusOf(before, dev)) {
      LastSaidFirst(m, rest, dev);
      SaidOne(m, dev);
    }
  }

  lemma SaidOne(m: Msg, dev: string)
    ensures LastSaid([m], dev) == if m.LinkMsg? && m.dev == dev then Some(m.running) else None
  {
    assert [m][..0] == [];
  }

  lemma FirstSays(s: State, s': State)
    requires s.net.Busy? && s.net.msgs != [] && Handle(s) == Some(s')
    requires !s.net.msgs[0].DoneMsg? && !s.net.msgs[0].ErrorMsg?
    ensures AllSaid(s.list, [s.net.msgs[0]], s'.list)
  {
    var m := s.net.msgs[0];
    forall dev ensures StatusOf(s'.list, dev) == Said([m], dev, StatusOf(s.list, dev)) {
      SaidOne(m, dev);
      if m.LinkMsg? {
        LinkStateSays(s.list, m.dev, m.running, dev);
      }
    }
  }
}
