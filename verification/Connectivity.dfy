/** src/connectivity.c: a netlink thread records link changes in a list, and a dequeue
    thread sends them as notifications. They share the list, the flag statuses_to_send,
    a data lock and a condition variable.

    The protocol is a state machine over the atomic steps of the two threads. What the
    netlink thread does under the data lock is one step, enabled only while the lock is
    free; what the dequeue thread does under it is split further, down to its single
    loads, because the signal and the restart after an error do not take the lock. The
    restart is split into its single stores. */
module Connectivity {
  import opened Common

  datatype Link = Down | Up | Unknown

  datatype Change = Change(to: Link, from: Link)

  /** interface_list_t, with its history: the changes detected, the notifications sent,
      the number of changes at the last one, and whether every one of them has reported the
      latest change, and one that had not been reported before. */
  datatype Node = Node(name: string, status: Link, prev: Link, sent: bool,
                       changes: seq<Change>, notes: seq<Change>, told: nat, right: bool)
  {
    predicate Unsent() {
      status != prev && !sent
    }

    predicate Known() {
      status != Unknown
    }
  }

  // -------------------------------------------------------- effects on the list

  function Find(list: seq<Node>, dev: string): (i: nat)
    ensures i <= |list|
    ensures i < |list| ==> list[i].name == dev
    ensures forall k :: 0 <= k < i ==> list[k].name != dev
  {
    if list == [] || list[0].name == dev then 0 else 1 + Find(list[1..], dev)
  }

  /** A node takes the reported link state. */
  function Report(n: Node, running: bool): Node {
    var status := if running then Up else Down;
    if status == n.status then n
    else n.(status := status, prev := n.status, sent := false,
            changes := n.changes + [Change(status, n.status)])
  }

  /** add_interface */
  function NewNode(dev: string): Node {
    Node(dev, Unknown, Unknown, false, [], [], 0, true)
  }

  /** connectivity_link_state: unknown devices are added at the head. */
  function LinkState(list: seq<Node>, dev: string, running: bool): (r: seq<Node>)
    ensures |list| <= |r|
  {
    var i := Find(list, dev);
    if i < |list| then list[i := Report(list[i], running)]
    else [Report(NewNode(dev), running)] + list
  }

  function IsChange(list: seq<Node>, dev: string, running: bool): bool {
    var i := Find(list, dev);
    i == |list| || list[i].status != (if running then Up else Down)
  }

  /** Is this the latest change, and not yet reported? */
  predicate Due(n: Node, status: Link, prev: Link) {
    n.told < |n.changes| && n.changes[|n.changes| - 1] == Change(status, prev)
  }

  /** connectivity_dispatch_notification */
  function Notify(n: Node, status: Link, prev: Link): Node {
    n.(notes := n.notes + [Change(status, prev)], told := |n.changes|, right := n.right && Due(n, status, prev))
  }

  /** send_interface_status for one node. */
  function Send(n: Node): Node {
    if n.Unsent() then Notify(n, n.status, n.prev).(sent := true) else n
  }

  function SendFrom(list: seq<Node>, i: nat): (r: seq<Node>)
    requires i <= |list|
    ensures |r| == |list|
    ensures forall k :: 0 <= k < |r| ==> r[k] == if k < i then list[k] else Send(list[k])
  {
    seq(|list|, k requires 0 <= k < |list| => if k < i then list[k] else Send(list[k]))
  }

  /** The reset in connectivity_read. */
  function Reset(n: Node): Node {
    n.(status := Unknown, prev := Unknown, sent := false)
  }

  function ResetAll(list: seq<Node>): (r: seq<Node>)
    ensures |r| == |list|
    ensures forall k :: 0 <= k < |r| ==> r[k] == Reset(list[k])
  {
    seq(|list|, k requires 0 <= k < |list| => Reset(list[k]))
  }

  // ---------------------------------------------------------------- the machine

  /** One netlink message: a monitored interface's state, something without effect,
      the end mark, or an error. */
  datatype Msg = LinkMsg(dev: string, running: bool) | NoEffect | DoneMsg | ErrorMsg

  /** The netlink thread: before recv (blocking or not), handling what it received,
      before pthread_cond_signal, or ended by an error; and connectivity_read, restarting
      it, before it resets the status of interface i, its previous status, or its sent
      mark. */
  datatype NetPc =
    | Recv(blocking: bool) | Busy(msgs: seq<Msg>) | Signal | Ended
    | Resetting(i: nat) | ResettingPrev(i: nat) | ResettingSent(i: nat)

  /** The dequeue thread: outside the lock; holding it before the test of the flag;
      before pthread_cond_wait; parked in it; woken but without the lock; in the send
      loop before node i, with node i's status read, its previous status, and its sent
      mark, or with its notification sent but not yet marked; before the unlock. */
  datatype DeqPc =
    | Idle
    | Test
    | WillWait
    | Parked
    | Woken
    | Sending(i: nat)
    | StatusRead(i: nat, status: Link)
    | PrevRead(i: nat, status: Link, prev: Link)
    | Captured(i: nat, status: Link, prev: Link, sent: bool)
    | Notified(i: nat, status: Link)
    | Release

  datatype State = State(net: NetPc, deq: DeqPc, list: seq<Node>, flag: bool)

  /** Does the dequeue thread hold the data lock? */
  predicate Holding(deq: DeqPc) {
    !(deq.Idle? || deq.Parked? || deq.Woken?)
  }

  datatype Step =
    | NetData(msgs: seq<Msg>) | NetWouldBlock | NetInterrupted | NetError | NetHandle | NetSignal
    | Broadcast | ResetStatus | ResetPrev | ResetSent | Restarted
    | DeqLock | DeqTest | DeqWait | DeqSpurious | DeqRelock
    | DeqStatus | DeqPrev | DeqSent | DeqDispatch | DeqMark | DeqClear | DeqUnlock

  const INIT: State := State(Recv(false), Idle, [], false)

  function Wake(deq: DeqPc): DeqPc {
    if deq == Parked then Woken else deq
  }

  /** One step, or None if it cannot be taken in this state. */
  function Next(s: State, step: Step): Option<State> {
    match step
    case NetData(msgs) => if s.net.Recv? then Some(s.(net := Busy(msgs))) else None
    case NetWouldBlock => if s.net.Recv? then Some(s.(net := Signal)) else None
    case NetInterrupted => if s.net.Recv? then Some(s) else None
    case NetError => if s.net.Recv? then Some(s.(net := Ended)) else None
    case NetHandle => if s.net.Busy? then Handle(s) else None
    case NetSignal => if s.net == Signal then Some(s.(net := Recv(true), deq := Wake(s.deq))) else None
    case Broadcast =>
      if s.net == Ended then Some(s.(net := Resetting(0), deq := Wake(s.deq))) else None
    case ResetStatus =>
      if s.net.Resetting? && s.net.i < |s.list| then
        Some(s.(net := ResettingPrev(s.net.i), list := s.list[s.net.i := s.list[s.net.i].(status := Unknown)]))
      else None
    case ResetPrev =>
      if s.net.ResettingPrev? && s.net.i < |s.list| then
        Some(s.(net := ResettingSent(s.net.i), list := s.list[s.net.i := s.list[s.net.i].(prev := Unknown)]))
      else None
    case ResetSent =>
      if s.net.ResettingSent? && s.net.i < |s.list| then
        Some(s.(net := Resetting(s.net.i + 1), list := s.list[s.net.i := s.list[s.net.i].(sent := false)]))
      else None
    case Restarted =>
      if s.net.Resetting? && s.net.i == |s.list| then Some(s.(net := Recv(false))) else None
    case DeqLock => if s.deq == Idle then Some(s.(deq := Test)) else None
    case DeqTest => if s.deq == Test then Some(s.(deq := if s.flag then Sending(0) else WillWait)) else None
    case DeqWait => if s.deq == WillWait then Some(s.(deq := Parked)) else None
    case DeqSpurious => if s.deq == Parked then Some(s.(deq := Woken)) else None
    case DeqRelock => if s.deq == Woken then Some(s.(deq := Sending(0))) else None
    case DeqStatus =>
      if s.deq.Sending? && s.deq.i < |s.list| then
        Some(s.(deq := StatusRead(s.deq.i, s.list[s.deq.i].status)))
      else None
    case DeqPrev =>
      if s.deq.StatusRead? && s.deq.i < |s.list| then
        Some(s.(deq := PrevRead(s.deq.i, s.deq.status, s.list[s.deq.i].prev)))
      else None
    case DeqSent =>
      if s.deq.PrevRead? && s.deq.i < |s.list| then
        Some(s.(deq := Captured(s.deq.i, s.deq.status, s.deq.prev, s.list[s.deq.i].sent)))
      else None
    case DeqDispatch =>
      if s.deq.Captured? && s.deq.i < |s.list| then
        var i := s.deq.i;
        if s.deq.status != s.deq.prev && !s.deq.sent then
          Some(s.(deq := Notified(i, s.deq.status),
                  list := s.list[i := Notify(s.list[i], s.deq.status, s.deq.prev)]))
        else Some(s.(deq := Sending(i + 1)))
      else None
    case DeqMark =>
      if s.deq.Notified? && s.deq.i < |s.list| then
        Some(s.(deq := Sending(s.deq.i + 1), list := s.list[s.deq.i := s.list[s.deq.i].(sent := true)]))
      else None
    case DeqClear =>
      if s.deq.Sending? && s.deq.i == |s.list| then Some(s.(deq := Release, flag := false)) else None
    case DeqUnlock => if s.deq == Release then Some(s.(deq := Idle)) else None
  }

  /** The next message of a batch; a link message waits for the data lock. */
  function Handle(s: State): Option<State>
    requires s.net.Busy?
  {
    if s.net.msgs == [] then Some(s.(net := Recv(false)))
    else
      var rest := s.net.msgs[1..];
      match s.net.msgs[0]
      case NoEffect => Some(s.(net := Busy(rest)))
      case DoneMsg => Some(s.(net := Recv(false)))
      case ErrorMsg => Some(s.(net := Ended))
      case LinkMsg(dev, running) =>
        if Holding(s.deq) then None
        else Some(s.(net := Busy(rest), list := LinkState(s.list, dev, running),
                     flag := s.flag || IsChange(s.list, dev, running)))
  }

  function Run(s: State, steps: seq<Step>): Option<State>
    decreases |steps|
  {
    if steps == [] then Some(s)
    else match Next(s, steps[0]) case None => None case Some(s') => Run(s', steps[1..])
  }

  // ------------------------------------------------------------------- invariant

  /** a can be obtained from b by leaving elements out. */
  predicate Subsequence(a: seq<Change>, b: seq<Change>)
    decreases |b|
  {
    a == [] ||
    (b != [] &&
     ((a[|a| - 1] == b[|b| - 1] && Subsequence(a[..|a| - 1], b[..|b| - 1])) || Subsequence(a, b[..|b| - 1])))
  }

  lemma SubsequenceSkip(a: seq<Change>, b: seq<Change>, x: Change)
    requires Subsequence(a, b)
    ensures Subsequence(a, b + [x])
  {
    assert (b + [x])[..|b|] == b;
  }

  lemma SubsequenceTake(a: seq<Change>, b: seq<Change>)
    requires b != [] && Subsequence(a, b[..|b| - 1])
    ensures Subsequence(a + [b[|b| - 1]], b)
  {
    assert (a + [b[|b| - 1]])[..|a|] == a;
  }

  predicate Real(c: Change) {
    c.to != c.from && c.to != Unknown
  }

  predicate AllReal(changes: seq<Change>) {
    changes == [] || (Real(changes[|changes| - 1]) && AllReal(changes[..|changes| - 1]))
  }

  lemma AllRealSnoc(changes: seq<Change>, c: Change)
    ensures AllReal(changes + [c]) <==> AllReal(changes) && Real(c)
  {
    assert (changes + [c])[..|changes|] == changes;
  }

  /** Facts about a node that hold at all times. */
  predicate NodeOk(n: Node) {
    && (n.Known() ==> n.status != n.prev)
    && AllReal(n.changes)
    && n.told <= |n.changes|
    && (n.right ==> Subsequence(n.notes, n.changes[..n.told]))
  }

  /** A node that nobody is working on: an unsent change is the latest one and due;
      otherwise a known status is what was notified last. */
  predicate Settled(n: Node) {
    && NodeOk(n)
    && (!n.Known() ==> n.prev == Unknown)
    && (n.Unsent() ==> Due(n, n.status, n.prev))
    && (n.Known() && !n.Unsent() ==>
          n.told == |n.changes| && n.notes != [] && n.notes[|n.notes| - 1].to == n.status)
  }

  /** A node whose status has been reset; `half` tells that its previous status has not. */
  predicate StatusGone(n: Node, half: bool) {
    NodeOk(n) && n.status == Unknown && (!half ==> n.prev == Unknown)
  }

  /** A node that the send loop is not working on. */
  predicate AtRest(n: Node, half: bool) {
    if half then StatusGone(n, true) else Settled(n)
  }

  predicate Reading(deq: DeqPc) {
    deq.StatusRead? || deq.PrevRead? || deq.Captured?
  }

  /** The node whose fields are being read: as they were read, or under reset since. */
  predicate ReadOk(n: Node, deq: DeqPc, half: bool)
    requires Reading(deq)
  {
    && (deq.status != Unknown && !deq.StatusRead? ==> deq.prev != deq.status)
    && (|| (&& !half && Settled(n) && n.status == deq.status
            && (!deq.StatusRead? ==> n.prev == deq.prev)
            && (deq.Captured? ==> n.sent == deq.sent))
        || (&& StatusGone(n, half)
            && (deq.status != Unknown ==>
                  && n.prev != deq.status
                  && (n.sent ==> n.told == |n.changes|)
                  && (n.prev != Unknown && !n.sent ==> Due(n, deq.status, n.prev)))
            && (!deq.StatusRead? && deq.prev == Unknown ==> n.prev == Unknown)
            && (deq.Captured? && n.prev != Unknown ==> n.sent == deq.sent)))
  }

  /** The node whose notification is out but not marked. */
  predicate NotifiedOk(n: Node, status: Link, half: bool) {
    && NodeOk(n)
    && n.notes != [] && n.notes[|n.notes| - 1].to == status
    && n.told == |n.changes|
    && (n.status == status || n.status == Unknown)
    && (n.status == Unknown && !half ==> n.prev == Unknown)
    && (half ==> n.status == Unknown)
  }

  /** Node i, as far as the two threads have got. */
  predicate NodeInv(s: State, i: nat)
    requires i < |s.list|
  {
    var n, half := s.list[i], s.net == ResettingPrev(i);
    && (n.Unsent() ==> s.flag)
    && (if Reading(s.deq) && s.deq.i == i then ReadOk(n, s.deq, half)
        else if s.deq.Notified? && s.deq.i == i then NotifiedOk(n, s.deq.status, half)
        else AtRest(n, half))
    && ((s.deq.Sending? || AtNode(s.deq)) && i < s.deq.i ==> !n.Unsent())
  }

  /** Does the dequeue thread work on a node? */
  predicate AtNode(deq: DeqPc) {
    Reading(deq) || deq.Notified?
  }

  predicate PcInv(s: State) {
    && (s.deq.Sending? ==> s.deq.i <= |s.list|)
    && (AtNode(s.deq) ==> s.deq.i < |s.list|)
    && (s.deq.WillWait? || s.deq.Release? ==> !s.flag)
    && (s.deq.Parked? && s.flag ==> s.net != Recv(true))
    && (s.net.Resetting? ==> s.net.i <= |s.list|)
    && (s.net.ResettingPrev? || s.net.ResettingSent? ==> s.net.i < |s.list|)
    && (s.net.ResettingSent? ==> s.list[s.net.i].status == Unknown && s.list[s.net.i].prev == Unknown)
  }

  ghost predicate Inv(s: State) {
    && PcInv(s)
    && forall i :: 0 <= i < |s.list| ==> NodeInv(s, i)
  }

  // ----------------------------------------------------------- it is invariant

  lemma ReportSettled(n: Node, running: bool)
    requires Settled(n)
    ensures Settled(Report(n, running))
  {
    var r := Report(n, running);
    if r != n {
      AllRealSnoc(n.changes, r.changes[|n.changes|]);
      assert r.changes[..n.told] == n.changes[..n.told];
    }
  }

  /** While the lock is free, the send loop works on no node. */
  lemma LockFree(s: State, i: nat)
    requires i < |s.list| && !Holding(s.deq) && !s.net.ResettingPrev?
    ensures NodeInv(s, i) <==> Settled(s.list[i]) && (s.list[i].Unsent() ==> s.flag)
  {
  }

  lemma LinkStateSettled(list: seq<Node>, dev: string, running: bool, i: nat)
    requires forall k :: 0 <= k < |list| ==> Settled(list[k])
    requires i < |LinkState(list, dev, running)|
    ensures var n := LinkState(list, dev, running)[i];
            Settled(n) && (n.Unsent() && !IsChange(list, dev, running) ==> n in list)
  {
    var k := Find(list, dev);
    if k < |list| {
      ReportSettled(list[k], running);
    } else if i == 0 {
      ReportSettled(NewNode(dev), running);
    } else {
      assert LinkState(list, dev, running)[i] == list[i - 1];
    }
  }

  lemma HandleInv(s: State)
    requires Inv(s) && s.net.Busy? && Handle(s).Some?
    ensures Inv(Handle(s).value)
  {
    var s' := Handle(s).value;
    if s.net.msgs != [] && s.net.msgs[0].LinkMsg? {
      var LinkMsg(dev, running) := s.net.msgs[0];
      forall k | 0 <= k < |s.list| ensures Settled(s.list[k]) && (s.list[k].Unsent() ==> s.flag) {
        assert NodeInv(s, k);
        LockFree(s, k);
      }
      forall i | 0 <= i < |s'.list| ensures NodeInv(s', i) {
        LinkStateSettled(s.list, dev, running, i);
        LockFree(s', i);
      }
    } else {
      SameListInv(s, s');
    }
  }

  /** The three stores of a reset, wherever the send loop is. */
  lemma ResetInv(s: State, step: Step)
    requires Inv(s) && step in {ResetStatus, ResetPrev, ResetSent} && Next(s, step).Some?
    ensures Inv(Next(s, step).value)
  {
    var s' := Next(s, step).value;
    assert NodeInv(s, s.net.i);
    forall i | 0 <= i < |s'.list| ensures NodeInv(s', i) {
      assert NodeInv(s, i);
      if i == s.net.i {
        ResetNodeInv(s, step);
      }
    }
  }

  lemma ResetNodeInv(s: State, step: Step)
    requires Inv(s) && step in {ResetStatus, ResetPrev, ResetSent} && Next(s, step).Some?
    ensures NodeInv(Next(s, step).value, s.net.i)
  {
    assert NodeInv(s, s.net.i);
  }

  lemma NotifyOk(n: Node, status: Link, prev: Link)
    requires NodeOk(n)
    ensures NodeOk(Notify(n, status, prev))
  {
    assert n.changes[..|n.changes|] == n.changes;
    if n.right && Due(n, status, prev) {
      SubsequencePrefix(n.notes, n.changes, n.told, |n.changes| - 1);
      SubsequenceTake(n.notes, n.changes);
    }
  }

  lemma {:induction false} SubsequencePrefix(a: seq<Change>, b: seq<Change>, k: nat, l: nat)
    requires k <= l <= |b| && Subsequence(a, b[..k])
    ensures Subsequence(a, b[..l])
    decreases l - k
  {
    if k < l {
      SubsequencePrefix(a, b, k, l - 1);
      assert b[..l] == b[..l - 1] + [b[l - 1]];
      SubsequenceSkip(a, b[..l - 1], b[l - 1]);
    }
  }

  lemma LatestIsReal(changes: seq<Change>)
    requires AllReal(changes) && changes != []
    ensures Real(changes[|changes| - 1])
  {
  }

  lemma DispatchInv(s: State)
    requires Inv(s) && s.deq.Captured?
    ensures Inv(Next(s, DeqDispatch).value)
  {
    var s' := Next(s, DeqDispatch).value;
    assert NodeInv(s, s.deq.i);
    if s.deq.status != s.deq.prev && !s.deq.sent {
      NotifyOk(s.list[s.deq.i], s.deq.status, s.deq.prev);
    }
    forall i | 0 <= i < |s'.list| ensures NodeInv(s', i) {
      assert NodeInv(s, i);
    }
  }

  lemma MarkInv(s: State)
    requires Inv(s) && s.deq.Notified?
    ensures Inv(Next(s, DeqMark).value)
  {
    var s' := Next(s, DeqMark).value;
    assert NodeInv(s, s.deq.i);
    forall i | 0 <= i < |s'.list| ensures NodeInv(s', i) {
      assert NodeInv(s, i);
    }
  }

  /** Is no node in the middle of being sent? */
  predicate Calm(deq: DeqPc) {
    !AtNode(deq) && (deq.Sending? ==> deq.i == 0)
  }

  /** Steps that touch neither list nor flag, and do not enter or leave a node. */
  lemma SameListInv(s: State, s': State)
    requires Inv(s) && s'.list == s.list && s'.flag == s.flag && PcInv(s')
    requires s.net == s'.net || (!s.net.ResettingPrev? && !s'.net.ResettingPrev?)
    requires s'.deq == s.deq || (Calm(s.deq) && Calm(s'.deq))
    ensures Inv(s')
  {
    forall i | 0 <= i < |s'.list| ensures NodeInv(s', i) {
      assert NodeInv(s, i);
    }
  }

  /** The three loads. */
  lemma LoadInv(s: State, step: Step)
    requires Inv(s) && step in {DeqStatus, DeqPrev, DeqSent} && Next(s, step).Some?
    ensures Inv(Next(s, step).value)
  {
    var s' := Next(s, step).value;
    forall i | 0 <= i < |s'.list| ensures NodeInv(s', i) {
      assert NodeInv(s, i);
    }
  }

  lemma ClearInv(s: State)
    requires Inv(s) && s.deq.Sending? && s.deq.i == |s.list|
    ensures Inv(Next(s, DeqClear).value)
  {
    var s' := Next(s, DeqClear).value;
    forall i | 0 <= i < |s'.list| ensures NodeInv(s', i) {
      assert NodeInv(s, i);
    }
  }

  lemma NextInv(s: State, step: Step)
    requires Inv(s) && Next(s, step).Some?
    ensures Inv(Next(s, step).value)
  {
    match step
    case NetHandle => HandleInv(s);
    case ResetStatus => ResetInv(s, step);
    case ResetPrev => ResetInv(s, step);
    case ResetSent => ResetInv(s, step);
    case DeqStatus => LoadInv(s, step);
    case DeqPrev => LoadInv(s, step);
    case DeqSent => LoadInv(s, step);
    case DeqDispatch => DispatchInv(s);
    case DeqMark => MarkInv(s);
    case DeqClear => ClearInv(s);
    case _ => SameListInv(s, Next(s, step).value);
  }

  lemma {:induction false} RunInv(s: State, steps: seq<Step>)
    requires Inv(s) && Run(s, steps).Some?
    ensures Inv(Run(s, steps).value)
    decreases |steps|
  {
    if steps != [] {
      NextInv(s, steps[0]);
      RunInv(Next(s, steps[0]).value, steps[1..]);
    }
  }

  ghost predicate Reachable(s: State) {
    exists steps :: Run(INIT, steps) == Some(s)
  }

  lemma ReachableInv(s: State)
    requires Reachable(s)
    ensures Inv(s)
  {
    var steps :| Run(INIT, steps) == Some(s);
    RunInv(INIT, steps);
  }

  // ------------------------------------------------------------ main statements

  /** No lost wakeup, for every interleaving: when the netlink thread is about to block
      in recv while statuses wait to be sent, the dequeue thread is not parked. */
  lemma NoLostWakeup(s: State)
    requires Reachable(s) && s.net == Recv(true) && s.flag
    ensures s.deq != Parked
  {
    ReachableInv(s);
  }

  // ---------------------------------------------------------------- the procedures

  /** The interface list and the flag, as the critical sections change them. */
  class Interfaces {
    var list: seq<Node>
    var statusesToSend: bool

    constructor ()
      ensures list == [] && !statusesToSend
    {
      list := [];
      statusesToSend := false;
    }

    /** connectivity_link_state for a monitored device. */
    method HandleLinkState(dev: string, running: bool)
      modifies this
      ensures list == LinkState(old(list), dev, running)
      ensures statusesToSend == (old(statusesToSend) || IsChange(old(list), dev, running))
    {
      var i := 0;
      while i < |list| && list[i].name != dev
        invariant i <= |list| && forall k :: 0 <= k < i ==> list[k].name != dev
      {
        i := i + 1;
      }
      assert Find(list, dev) == i;
      if i == |list| {
        list := [NewNode(dev)] + list;
        i := 0;
      }
      var prev := list[i].status;
      list := list[i := list[i].(status := if running then Up else Down)];
      if list[i].status != prev {
        list := list[i := list[i].(changes := list[i].changes + [Change(list[i].status, prev)])];
        list := list[i := list[i].(prev := prev)];
        list := list[i := list[i].(sent := false)];
        statusesToSend := true;
      }
    }

    /** send_interface_status */
    method SendInterfaceStatus()
      modifies this
      ensures list == SendFrom(old(list), 0) && !statusesToSend
    {
      for i := 0 to |list|
        invariant |list| == |old(list)|
        invariant forall k :: 0 <= k < |list| ==> list[k] == if k < i then Send(old(list)[k]) else old(list)[k]
      {
        var n := list[i];
        if n.status != n.prev && !n.sent {
          list := list[i := Notify(n, n.status, n.prev)];
          list := list[i := list[i].(sent := true)];
        }
      }
      statusesToSend := false;
    }

    /** The loop of connectivity_read that forgets all statuses. */
    method ForgetStatuses()
      modifies this`list
      ensures list == ResetAll(old(list))
    {
      for i := 0 to |list|
        invariant |list| == |old(list)|
        invariant forall k :: 0 <= k < |list| ==> list[k] == if k < i then Reset(old(list)[k]) else old(list)[k]
      {
        list := list[i := list[i].(status := Unknown, prev := Unknown, sent := false)];
      }
    }
  }
}
