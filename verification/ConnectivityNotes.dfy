/** What the notifications of src/connectivity.c tell: their agreement with the detected
    changes in every reachable state, and exactly when each of them is right. */
module ConnectivityNotes {
  import opened Common
  import opened Connectivity

  lemma {:induction false} SubsequenceFacts(a: seq<Change>, b: seq<Change>)
    requires Subsequence(a, b)
    ensures |a| <= |b|
    ensures AllReal(b) ==> AllReal(a)
    decreases |b|
  {
    if a != [] {
      if a[|a| - 1] == b[|b| - 1] && Subsequence(a[..|a| - 1], b[..|b| - 1]) {
        SubsequenceFacts(a[..|a| - 1], b[..|b| - 1]);
      } else {
        SubsequenceFacts(a, b[..|b| - 1]);
      }
    }
  }

  lemma {:induction false} AllRealEach(changes: seq<Change>)
    requires AllReal(changes)
    ensures forall k :: 0 <= k < |changes| ==> Real(changes[k])
  {
    if changes != [] {
      AllRealEach(changes[..|changes| - 1]);
      assert forall k :: 0 <= k < |changes| - 1 ==> changes[k] == changes[..|changes| - 1][k];
    }
  }

  /** Notification agreement, in every reachable state and for every interface: an
      unsent change implies the flag; a known status without unsent change is what was
      notified last; and as long as all notifications were right, they are a subsequence of
      the detected changes, each from one status to a different, known one. */
  lemma Agreement(s: State, i: nat)
    requires Reachable(s) && i < |s.list|
    ensures var n := s.list[i];
            && (n.Unsent() ==> s.flag)
            && (n.Known() && !n.Unsent() ==> n.notes != [] && n.notes[|n.notes| - 1].to == n.status)
            && (n.right ==>
                  && Subsequence(n.notes, n.changes) && |n.notes| <= |n.changes|
                  && forall k :: 0 <= k < |n.notes| ==> Real(n.notes[k]))
  {
    ReachableInv(s);
    assert NodeInv(s, i);
    var n := s.list[i];
    if n.right {
      SubsequencePrefix(n.notes, n.changes, n.told, |n.changes|);
      assert n.changes[..|n.changes|] == n.changes;
      SubsequenceFacts(n.notes, n.changes);
      AllRealEach(n.notes);
    }
  }

  // ------------------------------------------------- exactly when notifications are right

  /** Does this step spoil a notification? Three kinds do, all on the interface that the
      send loop is reading. The previous status is reset after the status was read as known
      and before the previous one is read, while an unsent change from a known status is
      under way. The sent mark of a sent interface is reset before it is read, while the
      fields read so far call for a notification. And the previous status is read between
      the reset of the status, read as unknown, and its own, with the interface unsent. */
  predicate Spoils(s: State, step: Step) {
    Reading(s.deq) && s.deq.i < |s.list| &&
    var n := s.list[s.deq.i];
    || (&& step == ResetPrev && s.net == ResettingPrev(s.deq.i)
        && s.deq.StatusRead? && s.deq.status != Unknown && n.prev != Unknown && !n.sent)
    || (&& step == ResetSent && s.net == ResettingSent(s.deq.i) && n.sent
        && (|| (s.deq.StatusRead? && s.deq.status != Unknown)
            || (s.deq.PrevRead? && s.deq.status != s.deq.prev)))
    || (&& step == DeqPrev && s.deq.StatusRead? && s.deq.status == Unknown && n.prev != Unknown && !n.sent)
  }

  /** No step of this run spoils a notification. */
  predicate Unspoilt(s: State, steps: seq<Step>)
    decreases |steps|
  {
    steps == [] || Next(s, steps[0]).None? ||
    (!Spoils(s, steps[0]) && Unspoilt(Next(s, steps[0]).value, steps[1..]))
  }

  /** Is the send loop bound to notify something that is not due? */
  predicate Committed(s: State) {
    Reading(s.deq) && s.deq.i < |s.list| &&
    var n := s.list[s.deq.i];
    match s.deq
    case StatusRead(_, status) => status != Unknown && n.prev == Unknown && !n.sent && !Due(n, status, Unknown)
    case PrevRead(_, status, prev) => status != prev && !n.sent && !Due(n, status, prev)
    case Captured(_, status, prev, sent) => status != prev && !sent && !Due(n, status, prev)
  }

  predicate AllRight(list: seq<Node>) {
    forall i :: 0 <= i < |list| ==> list[i].right
  }

  /** Some notification was wrong, or will be. */
  predicate Wrong(s: State) {
    !AllRight(s.list) || Committed(s)
  }

  lemma LinkStateRight(list: seq<Node>, dev: string, running: bool)
    ensures AllRight(LinkState(list, dev, running)) <==> AllRight(list)
  {
    var k := Find(list, dev);
    var r := LinkState(list, dev, running);
    if k < |list| {
      assert forall i :: 0 <= i < |list| ==> r[i].right == list[i].right;
    } else {
      assert forall i :: 0 <= i < |list| ==> r[i + 1].right == list[i].right;
      assert r[0].right;
    }
  }

  lemma ReplaceRight(list: seq<Node>, i: nat, n: Node)
    requires i < |list|
    ensures n.right == list[i].right ==> (AllRight(list[i := n]) <==> AllRight(list))
    ensures !n.right ==> !AllRight(list[i := n])
  {
    var r := list[i := n];
    assert r[i] == n;
    assert forall k :: 0 <= k < |list| && k != i ==> r[k] == list[k];
  }

  /** A spoiling step makes things wrong; every other one leaves it as it was whether
      something is wrong. */
  lemma StepRight(s: State, step: Step)
    requires Inv(s) && Next(s, step).Some?
    ensures Wrong(Next(s, step).value) <==> Wrong(s) || Spoils(s, step)
  {
    match step
    case NetHandle => HandleRight(s);
    case ResetStatus => StatusStoreRight(s);
    case ResetPrev => PrevStoreRight(s);
    case ResetSent => SentStoreRight(s);
    case DeqStatus => LoadRight(s, step);
    case DeqPrev => LoadRight(s, step);
    case DeqSent => LoadRight(s, step);
    case DeqDispatch => DispatchRight(s);
    case DeqMark => ReplaceRight(s.list, s.deq.i, s.list[s.deq.i].(sent := true));
    case _ =>
  }

  /** Nothing from an unknown status is ever due. */
  lemma UnknownNotDue(n: Node, prev: Link)
    requires NodeOk(n)
    ensures !Due(n, Unknown, prev)
  {
    if n.changes != [] {
      LatestIsReal(n.changes);
    }
  }

  lemma StatusStoreRight(s: State)
    requires Inv(s) && Next(s, ResetStatus).Some?
    ensures Wrong(Next(s, ResetStatus).value) <==> Wrong(s)
  {
    ReplaceRight(s.list, s.net.i, s.list[s.net.i].(status := Unknown));
  }

  lemma PrevStoreRight(s: State)
    requires Inv(s) && Next(s, ResetPrev).Some?
    ensures Wrong(Next(s, ResetPrev).value) <==> Wrong(s) || Spoils(s, ResetPrev)
  {
    ReplaceRight(s.list, s.net.i, s.list[s.net.i].(prev := Unknown));
    assert NodeInv(s, s.net.i);
  }

  lemma SentStoreRight(s: State)
    requires Inv(s) && Next(s, ResetSent).Some?
    ensures Wrong(Next(s, ResetSent).value) <==> Wrong(s) || Spoils(s, ResetSent)
  {
    ReplaceRight(s.list, s.net.i, s.list[s.net.i].(sent := false));
    assert NodeInv(s, s.net.i);
    if s.deq.PrevRead? {
      UnknownNotDue(s.list[s.net.i], s.deq.prev);
    }
  }

  lemma LoadRight(s: State, step: Step)
    requires Inv(s) && step in {DeqStatus, DeqPrev, DeqSent} && Next(s, step).Some?
    ensures Wrong(Next(s, step).value) <==> Wrong(s) || Spoils(s, step)
  {
    assert NodeInv(s, s.deq.i);
    if step == DeqPrev {
      UnknownNotDue(s.list[s.deq.i], s.list[s.deq.i].prev);
    }
  }

  lemma HandleRight(s: State)
    requires Inv(s) && s.net.Busy? && Handle(s).Some?
    ensures Wrong(Handle(s).value) <==> Wrong(s)
  {
    if s.net.msgs != [] && s.net.msgs[0].LinkMsg? {
      LinkStateRight(s.list, s.net.msgs[0].dev, s.net.msgs[0].running);
    }
  }

  lemma DispatchRight(s: State)
    requires Inv(s) && s.deq.Captured?
    ensures Wrong(Next(s, DeqDispatch).value) <==> Wrong(s)
  {
    assert NodeInv(s, s.deq.i);
    if s.deq.status != s.deq.prev && !s.deq.sent {
      var n := Notify(s.list[s.deq.i], s.deq.status, s.deq.prev);
      ReplaceRight(s.list, s.deq.i, n);
      if !s.list[s.deq.i].right {
        assert !AllRight(s.list);
      }
    }
  }

  lemma {:induction false} RunRight(s: State, steps: seq<Step>)
    requires Inv(s) && Run(s, steps).Some?
    ensures Wrong(Run(s, steps).value) <==> Wrong(s) || !Unspoilt(s, steps)
    decreases |steps|
  {
    if steps != [] {
      var s' := Next(s, steps[0]).value;
      NextInv(s, steps[0]);
      StepRight(s, steps[0]);
      RunRight(s', steps[1..]);
    }
  }

  /** For every interleaving that does not end in the middle of a notification: every
      notification has reported the latest change of its interface, once, if and only if
      no load or store of a restart fell between the others in the way that `Spoils` says. */
  lemma NotificationsRight(steps: seq<Step>)
    requires Run(INIT, steps).Some?
    requires !Reading(Run(INIT, steps).value.deq)
    ensures AllRight(Run(INIT, steps).value.list) <==> Unspoilt(INIT, steps)
  {
    RunRight(INIT, steps);
  }

  lemma {:induction false} RunSnoc(s: State, steps: seq<Step>, step: Step)
    requires Run(s, steps).Some?
    ensures Run(s, steps + [step]) == Next(Run(s, steps).value, step)
    decreases |steps|
  {
    if steps == [] {
      assert (steps + [step])[1..] == [];
    } else {
      assert (steps + [step])[1..] == steps[1..] + [step];
      RunSnoc(Next(s, steps[0]).value, steps[1..], step);
    }
  }

  lemma ReachableNext(s: State, step: Step, s': State)
    requires Reachable(s) && Next(s, step) == Some(s')
    ensures Reachable(s')
  {
    var steps :| Run(INIT, steps) == Some(s);
    RunSnoc(INIT, steps, step);
  }

  /** A run of this kind: an interface comes up and is notified; after a netlink error the
      broadcast wakes the dequeue thread, which reads the status just before the reset and
      the other fields just after it. One change has been detected and notified twice. */
  lemma NotifiedTwice(dev: string) returns (s: State)
    ensures Reachable(s) && |s.list| == 1 && !s.list[0].right
    ensures s.list[0].changes == [Change(Up, Unknown)]
    ensures s.list[0].notes == [Change(Up, Unknown), Change(Up, Unknown)]
  {
    var up := Report(NewNode(dev), true);
    var s0 := ComesUp(dev);
    var s1 := FirstNotified(s0, up);
    var s2 := ParksAgain(s1, Send(up));
    var s3 := ResetUnderRead(s2, Send(up));
    s := NotifiedAgain(s3, Send(up), Up);
  }

  /** A run that reads between two stores: an interface came up and went down before the
      error; the status is read after its reset, the previous one before. The notification
      says that the interface, last up, is now in an unknown state. */
  lemma NotifiedUnknown(dev: string) returns (s: State)
    ensures Reachable(s) && |s.list| == 1 && !s.list[0].right
    ensures s.list[0].notes == [Change(Unknown, Up)]
  {
    var n := Report(Report(NewNode(dev), true), false);
    var s0 := UpAndDown(dev);
    var s1 := s0.(net := Resetting(0), deq := Sending(0));
    var s2 := s1.(net := ResettingPrev(0), list := [n.(status := Unknown)]);
    OnlyNode(n, n.(status := Unknown));
    OnlyNode(n.(status := Unknown), Notify(n.(status := Unknown), Unknown, Up));
    ReachableNext(s0, Broadcast, s1);
    ReachableNext(s1, ResetStatus, s2);
    var s3 := LoadsUndisturbed(s2, n.(status := Unknown));
    s := s3.(deq := Notified(0, Unknown), list := [Notify(n.(status := Unknown), Unknown, Up)]);
    ReachableNext(s3, DeqDispatch, s);
  }

  lemma LoadsUndisturbed(s: State, n: Node) returns (s': State)
    requires Reachable(s) && s.deq == Sending(0) && s.list == [n]
    ensures Reachable(s') && s' == s.(deq := Captured(0, n.status, n.prev, n.sent))
  {
    var s1, s2 := s.(deq := StatusRead(0, n.status)), s.(deq := PrevRead(0, n.status, n.prev));
    s' := s.(deq := Captured(0, n.status, n.prev, n.sent));
    ReachableNext(s, DeqStatus, s1);
    ReachableNext(s1, DeqPrev, s2);
    ReachableNext(s2, DeqSent, s');
  }

  lemma UpAndDown(dev: string) returns (s: State)
    ensures Reachable(s) && s == State(Ended, Sending(0), [Report(Report(NewNode(dev), true), false)], true)
  {
    var msgs := [LinkMsg(dev, true), LinkMsg(dev, false), ErrorMsg];
    var up := Report(NewNode(dev), true);
    var s1 := INIT.(net := Busy(msgs));
    var s2 := State(Busy([LinkMsg(dev, false), ErrorMsg]), Idle, [up], true);
    var s3 := State(Busy([ErrorMsg]), Idle, [Report(up, false)], true);
    assert Run(INIT, []) == Some(INIT);
    assert msgs[1..] == [LinkMsg(dev, false), ErrorMsg] && msgs[1..][1..] == [ErrorMsg];
    assert LinkState([], dev, true) == [up];
    OnlyNode(up, Report(up, false));
    ReachableNext(INIT, NetData(msgs), s1);
    ReachableNext(s1, NetHandle, s2);
    ReachableNext(s2, NetHandle, s3);
    s := FailsAndLoops(s3, Report(up, false));
  }

  /** The netlink thread ends, and the dequeue thread starts its loop. */
  lemma FailsAndLoops(s: State, n: Node) returns (s': State)
    requires Reachable(s) && s == State(Busy([ErrorMsg]), Idle, [n], true)
    ensures Reachable(s') && s' == State(Ended, Sending(0), [n], true)
  {
    var s1 := s.(net := Ended);
    s' := s1.(deq := Sending(0));
    ReachableNext(s, NetHandle, s1);
    ReachableNext(s1, DeqLock, s1.(deq := Test));
    ReachableNext(s1.(deq := Test), DeqTest, s');
  }

  lemma ComesUp(dev: string) returns (s: State)
    ensures Reachable(s) && s == State(Ended, Sending(0), [Report(NewNode(dev), true)], true)
  {
    var msgs := [LinkMsg(dev, true), ErrorMsg];
    var s1 := INIT.(net := Busy(msgs));
    var s2 := State(Busy([ErrorMsg]), Idle, [Report(NewNode(dev), true)], true);
    assert Run(INIT, []) == Some(INIT);
    assert msgs[1..] == [ErrorMsg];
    assert LinkState([], dev, true) == [Report(NewNode(dev), true)];
    ReachableNext(INIT, NetData(msgs), s1);
    ReachableNext(s1, NetHandle, s2);
    s := FailsAndLoops(s2, Report(NewNode(dev), true));
  }

  lemma OnlyNode(n: Node, m: Node)
    ensures [n][0 := m] == [m]
  {
  }

  /** The loads, the notification and its mark. */
  lemma FirstNotified(s: State, n: Node) returns (s': State)
    requires Reachable(s) && s == State(Ended, Sending(0), [n], true) && n.Unsent()
    ensures Reachable(s') && s' == State(Ended, Sending(1), [Send(n)], true)
  {
    var s3 := LoadsUndisturbed(s, n);
    var s4 := s.(deq := Notified(0, n.status), list := [Notify(n, n.status, n.prev)]);
    s' := s.(deq := Sending(1), list := [Send(n)]);
    OnlyNode(n, Notify(n, n.status, n.prev));
    OnlyNode(Notify(n, n.status, n.prev), Send(n));
    ReachableNext(s3, DeqDispatch, s4);
    ReachableNext(s4, DeqMark, s');
  }

  /** The end of the loop, and the next wait. */
  lemma ParksAgain(s: State, n: Node) returns (s': State)
    requires Reachable(s) && s == State(Ended, Sending(1), [n], true)
    ensures Reachable(s') && s' == State(Ended, Parked, [n], false)
  {
    var done := State(Ended, Release, [n], false);
    ReachableNext(s, DeqClear, done);
    ReachableNext(done, DeqUnlock, done.(deq := Idle));
    ReachableNext(done.(deq := Idle), DeqLock, done.(deq := Test));
    ReachableNext(done.(deq := Test), DeqTest, done.(deq := WillWait));
    s' := done.(deq := Parked);
    ReachableNext(done.(deq := WillWait), DeqWait, s');
  }

  /** The broadcast, the first load, and the reset. */
  lemma ResetUnderRead(s: State, n: Node) returns (s': State)
    requires Reachable(s) && s == State(Ended, Parked, [n], false)
    ensures Reachable(s') && s' == State(Resetting(1), StatusRead(0, n.status), [Reset(n)], false)
  {
    var s1 := s.(net := Resetting(0), deq := Woken);
    ReachableNext(s, Broadcast, s1);
    ReachableNext(s1, DeqRelock, s1.(deq := Sending(0)));
    ReachableNext(s1.(deq := Sending(0)), DeqStatus, s1.(deq := StatusRead(0, n.status)));
    s' := ResetOnly(s1.(deq := StatusRead(0, n.status)), n);
  }

  lemma ResetOnly(s: State, n: Node) returns (s': State)
    requires Reachable(s) && s.net == Resetting(0) && s.list == [n]
    ensures Reachable(s') && s' == s.(net := Resetting(1), list := [Reset(n)])
  {
    var n1 := n.(status := Unknown);
    var n2 := n1.(prev := Unknown);
    OnlyNode(n, n1);
    OnlyNode(n1, n2);
    OnlyNode(n2, Reset(n));
    ReachableNext(s, ResetStatus, s.(net := ResettingPrev(0), list := [n1]));
    ReachableNext(s.(net := ResettingPrev(0), list := [n1]), ResetPrev, s.(net := ResettingSent(0), list := [n2]));
    s' := s.(net := Resetting(1), list := [Reset(n)]);
    ReachableNext(s.(net := ResettingSent(0), list := [n2]), ResetSent, s');
  }

  /** The other loads, and the notification. */
  lemma NotifiedAgain(s: State, n: Node, status: Link) returns (s': State)
    requires Reachable(s) && s == State(Resetting(1), StatusRead(0, status), [Reset(n)], false) && status != Unknown
    ensures Reachable(s') && s'.list == [Notify(Reset(n), status, Unknown)]
  {
    var s1, s2 := s.(deq := PrevRead(0, status, Unknown)), s.(deq := Captured(0, status, Unknown, false));
    s' := s.(deq := Notified(0, status), list := [Notify(Reset(n), status, Unknown)]);
    OnlyNode(Reset(n), Notify(Reset(n), status, Unknown));
    ReachableNext(s, DeqPrev, s1);
    ReachableNext(s1, DeqSent, s2);
    ReachableNext(s2, DeqDispatch, s');
  }
}
