/** The Linux branch of disk_read in src/disk.c: a linked list of the disks seen in the
    last poll, extended and pruned in place, with byte accumulators that are fed from
    wrapping 32-bit sector counters. */
module Disk {
  import opened Common

  // ---------------------------------------------------------------- the counters

  const UINT_MAX: int := 4294967295
  const MODULUS: int := 4294967296
  const SECTOR: int := 512

  /** The growth of a counter between two reports. */
  function Diff(before: int, now: int): int {
    if now < before then 1 + now + (UINT_MAX - before) else now - before
  }

  /** From the reports modulo 2^32 of two true counts, the difference is the true growth
      if and only if the count grew by less than 2^32. */
  lemma DiffIsGrowth(before: nat, now: nat)
    requires before <= now
    ensures Diff(before % MODULUS, now % MODULUS) == now - before <==> now - before < MODULUS
  {
    var r := now - before;
    assert 0 <= before % MODULUS < MODULUS && 0 <= now % MODULUS < MODULUS;
  }

  // -------------------------------------------------------------------- the list

  /** diskstats_t, without the pointer to the next disk. */
  datatype Disk = Disk(name: string, pollCount: nat, readSectors: int, writeSectors: int,
                       readBytes: int, writeBytes: int)

  /** One line of the statistics: its number of fields, and the values used here. */
  datatype Line = Line(fields: nat, name: string, readSectors: int, writeSectors: int)

  predicate Usable(l: Line) {
    l.fields == 7 || l.fields >= 14
  }

  /** A disk takes the values of a line. */
  function Take(d: Disk, l: Line, poll: nat): Disk {
    Disk(d.name, poll, l.readSectors, l.writeSectors,
         d.readBytes + SECTOR * Diff(d.readSectors, l.readSectors),
         d.writeBytes + SECTOR * Diff(d.writeSectors, l.writeSectors))
  }

  /** calloc'ed: all counters are zero. */
  function Fresh(name: string): Disk {
    Disk(name, 0, 0, 0, 0, 0)
  }

  function Find(list: seq<Disk>, name: string): (i: nat)
    ensures i <= |list|
    ensures i < |list| ==> list[i].name == name
    ensures forall k :: 0 <= k < i ==> list[k].name != name
  {
    if list == [] || list[0].name == name then 0 else 1 + Find(list[1..], name)
  }

  /** One line of a poll: find or append the disk, then update it. */
  function Observe(list: seq<Disk>, l: Line, poll: nat): seq<Disk> {
    if !Usable(l) then list
    else
      var i := Find(list, l.name);
      if i < |list| then list[i := Take(list[i], l, poll)]
      else list + [Take(Fresh(l.name), l, poll)]
  }

  function ObserveAll(list: seq<Disk>, lines: seq<Line>, poll: nat): seq<Disk> {
    if lines == [] then list
    else Observe(ObserveAll(list, lines[..|lines| - 1], poll), lines[|lines| - 1], poll)
  }

  /** Disks that were not seen in this poll are removed. */
  function Purge(list: seq<Disk>, poll: nat): seq<Disk> {
    if list == [] then []
    else (if list[0].pollCount == poll then [list[0]] else []) + Purge(list[1..], poll)
  }

  /** disk_read */
  function Poll(list: seq<Disk>, lines: seq<Line>, poll: nat): seq<Disk> {
    Purge(ObserveAll(list, lines, poll), poll)
  }

  // --------------------------------------------------------- meaning of one poll

  /** The poll seen by a single disk: its usable lines, in order. */
  function Own(lines: seq<Line>, name: string): seq<Line> {
    if lines == [] then []
    else
      var last := lines[|lines| - 1];
      Own(lines[..|lines| - 1], name) + (if Usable(last) && last.name == name then [last] else [])
  }

  function TakeAll(d: Disk, lines: seq<Line>, poll: nat): Disk {
    if lines == [] then d else Take(TakeAll(d, lines[..|lines| - 1], poll), lines[|lines| - 1], poll)
  }

  function Lookup(list: seq<Disk>, name: string): Option<Disk> {
    var i := Find(list, name);
    if i < |list| then Some(list[i]) else None
  }

  predicate Distinct(list: seq<Disk>) {
    forall i, j :: 0 <= i < j < |list| ==> list[i].name != list[j].name
  }

  function Names(list: seq<Disk>): (r: seq<string>)
    ensures |r| == |list| && forall i :: 0 <= i < |r| ==> r[i] == list[i].name
  {
    seq(|list|, i requires 0 <= i < |list| => list[i].name)
  }

  /** The names of a list extended by the new names of some lines, in order of appearance. */
  function NamesWith(names: seq<string>, lines: seq<Line>): seq<string> {
    if lines == [] then names
    else
      var before, last := NamesWith(names, lines[..|lines| - 1]), lines[|lines| - 1];
      if Usable(last) && last.name !in before then before + [last.name] else before
  }

  /** The names that have a usable line, in the order of the list. */
  function Seen(names: seq<string>, lines: seq<Line>): seq<string> {
    if names == [] then []
    else (if Own(lines, names[0]) != [] then [names[0]] else []) + Seen(names[1..], lines)
  }

  lemma FindIs(list: seq<Disk>, i: nat)
    requires Distinct(list) && i < |list|
    ensures Find(list, list[i].name) == i
  {
  }

  lemma {:induction false} TakeAllName(d: Disk, lines: seq<Line>, poll: nat)
    ensures TakeAll(d, lines, poll).name == d.name
    ensures TakeAll(d, lines, poll).pollCount == if lines == [] then d.pollCount else poll
  {
    if lines != [] {
      TakeAllName(d, lines[..|lines| - 1], poll);
    }
  }

  lemma TakeAllSnoc(d: Disk, lines: seq<Line>, l: Line, poll: nat)
    ensures TakeAll(d, lines + [l], poll) == Take(TakeAll(d, lines, poll), l, poll)
  {
    assert (lines + [l])[..|lines|] == lines;
  }

  /** The i-th disk is the i-th disk of the old list, or a fresh one, transformed by its
      own lines only. */
  predicate Transformed(list: seq<Disk>, lines: seq<Line>, poll: nat, i: nat, d: Disk) {
    && (if i < |list| then d.name == list[i].name else Own(lines, d.name) != [])
    && d == TakeAll(if i < |list| then list[i] else Fresh(d.name), Own(lines, d.name), poll)
  }

  ghost predicate Observed(list: seq<Disk>, lines: seq<Line>, poll: nat, r: seq<Disk>) {
    && |list| <= |r| && Distinct(r)
    && (forall i :: 0 <= i < |r| ==> Transformed(list, lines, poll, i, r[i]))
    && (forall name :: Own(lines, name) != [] ==> Find(r, name) < |r|)
  }

  lemma OwnSnoc(lines: seq<Line>, l: Line, name: string)
    ensures Own(lines + [l], name) == Own(lines, name) + (if Usable(l) && l.name == name then [l] else [])
  {
    assert (lines + [l])[..|lines|] == lines;
  }

  lemma TransformedStep(list: seq<Disk>, lines: seq<Line>, l: Line, poll: nat, i: nat, d: Disk)
    requires Transformed(list, lines, poll, i, d)
    ensures Transformed(list, lines + [l], poll, i, if Usable(l) && l.name == d.name then Take(d, l, poll) else d)
  {
    OwnSnoc(lines, l, d.name);
    TakeAllSnoc(if i < |list| then list[i] else Fresh(d.name), Own(lines, d.name), l, poll);
    assert Own(lines, d.name) + [] == Own(lines, d.name);
  }

  /** A disk appended for its first line. */
  lemma NewcomerStep(list: seq<Disk>, lines: seq<Line>, l: Line, poll: nat, i: nat)
    requires Usable(l) && Own(lines, l.name) == [] && i >= |list|
    ensures Transformed(list, lines + [l], poll, i, Take(Fresh(l.name), l, poll))
  {
    OwnSnoc(lines, l, l.name);
    assert Own(lines + [l], l.name) == [] + [l];
    TakeAllSnoc(Fresh(l.name), [], l, poll);
  }

  lemma ObserveStep(list: seq<Disk>, lines: seq<Line>, l: Line, poll: nat, r: seq<Disk>)
    requires Observed(list, lines, poll, r)
    ensures Observed(list, lines + [l], poll, Observe(r, l, poll))
  {
    var r' := Observe(r, l, poll);
    forall i | 0 <= i < |r'| ensures Transformed(list, lines + [l], poll, i, r'[i]) {
      assert i < |r| ==> Transformed(list, lines, poll, i, r[i]);
      PlaceStep(list, lines, l, poll, r, i);
    }
    forall name | Own(lines + [l], name) != [] ensures Find(r', name) < |r'| {
      OwnSnoc(lines, l, name);
      ObserveFind(r, l, poll, name);
    }
    ObserveDistinct(r, l, poll);
  }

  /** The i-th place of the list after one more line. */
  lemma PlaceStep(list: seq<Disk>, lines: seq<Line>, l: Line, poll: nat, r: seq<Disk>, i: nat)
    requires |list| <= |r| && Distinct(r) && i < |Observe(r, l, poll)|
    requires i < |r| ==> Transformed(list, lines, poll, i, r[i])
    requires Own(lines, l.name) != [] ==> Find(r, l.name) < |r|
    ensures Transformed(list, lines + [l], poll, i, Observe(r, l, poll)[i])
  {
    if i < |r| {
      TransformedStep(list, lines, l, poll, i, r[i]);
      if Usable(l) && l.name == r[i].name {
        FindIs(r, i);
      }
    } else {
      NewcomerStep(list, lines, l, poll, i);
    }
  }

  lemma ObserveDistinct(r: seq<Disk>, l: Line, poll: nat)
    requires Distinct(r)
    ensures Distinct(Observe(r, l, poll))
  {
  }

  lemma ObserveFind(r: seq<Disk>, l: Line, poll: nat, name: string)
    requires Find(r, name) < |r| || (Usable(l) && l.name == name)
    ensures Find(Observe(r, l, poll), name) < |Observe(r, l, poll)|
  {
    var r' := Observe(r, l, poll);
    if Find(r, name) < |r| {
      assert r'[Find(r, name)].name == name;
    } else {
      assert r'[|r|].name == name;
    }
  }

  /** A line has an effect exactly if it has 7 fields, or 14 or more: its disk is then in
      the list, with the line's counters. */
  lemma LineCounts(list: seq<Disk>, l: Line, poll: nat)
    requires Older(list, poll)
    ensures var r := Observe(list, l, poll);
            && (r != list <==> l.fields == 7 || l.fields >= 14)
            && (r != list ==>
                  match Lookup(r, l.name)
                  case None => false
                  case Some(d) => && d.pollCount == poll
                                  && d.readSectors == l.readSectors && d.writeSectors == l.writeSectors)
            && (r != list && Lookup(list, l.name).None? && l.readSectors >= 0 && l.writeSectors >= 0 ==>
                  var d := Lookup(r, l.name).value;
                  d.readBytes == 512 * l.readSectors && d.writeBytes == 512 * l.writeSectors)
  {
    var i, r := Find(list, l.name), Observe(list, l, poll);
    if Usable(l) {
      assert r[i].pollCount == poll;
      ObserveFind(list, l, poll, l.name);
    }
  }

  lemma {:induction false} ObserveAllMeaning(list: seq<Disk>, lines: seq<Line>, poll: nat)
    requires Distinct(list)
    ensures Observed(list, lines, poll, ObserveAll(list, lines, poll))
  {
    if lines == [] {
      assert Observed(list, [], poll, list);
    } else {
      var init, l := lines[..|lines| - 1], lines[|lines| - 1];
      ObserveAllMeaning(list, init, poll);
      ObserveStep(list, init, l, poll, ObserveAll(list, init, poll));
      assert init + [l] == lines;
    }
  }

  predicate Older(list: seq<Disk>, poll: nat) {
    forall i :: 0 <= i < |list| ==> list[i].pollCount < poll
  }

  lemma SeenIffCurrent(list: seq<Disk>, lines: seq<Line>, poll: nat, r: seq<Disk>, i: nat)
    requires Older(list, poll) && 0 < poll && Observed(list, lines, poll, r) && i < |r|
    ensures r[i].pollCount == poll <==> Own(lines, r[i].name) != []
  {
    assert Transformed(list, lines, poll, i, r[i]);
    TakeAllName(if i < |list| then list[i] else Fresh(r[i].name), Own(lines, r[i].name), poll);
  }

  lemma ObserveNames(r: seq<Disk>, l: Line, poll: nat)
    ensures Names(Observe(r, l, poll)) ==
            if Usable(l) && l.name !in Names(r) then Names(r) + [l.name] else Names(r)
  {
    var i := Find(r, l.name);
    if i < |r| {
      assert Names(r)[i] == l.name;
    }
  }

  lemma {:induction false} ObserveAllNames(list: seq<Disk>, lines: seq<Line>, poll: nat)
    ensures Names(ObserveAll(list, lines, poll)) == NamesWith(Names(list), lines)
  {
    if lines != [] {
      ObserveAllNames(list, lines[..|lines| - 1], poll);
      ObserveNames(ObserveAll(list, lines[..|lines| - 1], poll), lines[|lines| - 1], poll);
    }
  }

  lemma {:induction false} PurgeNames(list: seq<Disk>, lines: seq<Line>, poll: nat)
    requires forall i :: 0 <= i < |list| ==> (list[i].pollCount == poll <==> Own(lines, list[i].name) != [])
    ensures Names(Purge(list, poll)) == Seen(Names(list), lines)
  {
    if list != [] {
      PurgeNames(list[1..], lines, poll);
      assert Names(list)[1..] == Names(list[1..]);
      var rest := Purge(list[1..], poll);
      assert Names([list[0]] + rest) == [list[0].name] + Names(rest);
      assert [] + rest == rest;
    }
  }

  lemma {:induction false} PurgeKeeps(list: seq<Disk>, poll: nat)
    requires Distinct(list)
    ensures Distinct(Purge(list, poll))
    ensures forall d :: d in Purge(list, poll) <==> d in list && d.pollCount == poll
  {
    if list != [] {
      PurgeKeeps(list[1..], poll);
      var rest := Purge(list[1..], poll);
      forall i | 0 <= i < |rest| ensures rest[i].name != list[0].name {
        assert rest[i] in rest;
      }
    }
  }

  lemma LookupIs(list: seq<Disk>, d: Disk)
    requires Distinct(list) && d in list
    ensures Lookup(list, d.name) == Some(d)
  {
    var i :| 0 <= i < |list| && list[i] == d;
    FindIs(list, i);
  }

  /** What a poll does to one disk, without regard to any other. */
  function Expected(list: seq<Disk>, lines: seq<Line>, poll: nat, name: string): Option<Disk> {
    if Own(lines, name) == [] then None
    else
      match Lookup(list, name)
      case None => Some(TakeAll(Fresh(name), Own(lines, name), poll))
      case Some(d) => Some(TakeAll(d, Own(lines, name), poll))
  }

  /** One poll: the list holds exactly the disks that have a line, once each, survivors
      first and in their old order, newcomers in the order of appearance; and every disk
      is what its own lines make of its own old accumulators. */
  lemma PollMeaning(list: seq<Disk>, lines: seq<Line>, poll: nat)
    requires Distinct(list) && Older(list, poll) && 0 < poll
    ensures var r := Poll(list, lines, poll);
            && Distinct(r)
            && Names(r) == Seen(NamesWith(Names(list), lines), lines)
            && (forall i :: 0 <= i < |r| ==> r[i].pollCount == poll)
            && (forall name :: Lookup(r, name) == Expected(list, lines, poll, name))
  {
    var all := ObserveAll(list, lines, poll);
    var r := Poll(list, lines, poll);
    ObserveAllMeaning(list, lines, poll);
    ObserveAllNames(list, lines, poll);
    forall i | 0 <= i < |all| ensures all[i].pollCount == poll <==> Own(lines, all[i].name) != [] {
      SeenIffCurrent(list, lines, poll, all, i);
    }
    PurgeNames(all, lines, poll);
    PurgeKeeps(all, poll);
    forall i | 0 <= i < |r| ensures r[i].pollCount == poll {
      assert r[i] in r;
    }
    forall name ensures Lookup(r, name) == Expected(list, lines, poll, name) {
      LookupExpected(list, lines, poll, all, name);
    }
  }

  lemma LookupExpected(list: seq<Disk>, lines: seq<Line>, poll: nat, all: seq<Disk>, name: string)
    requires Distinct(list) && Older(list, poll) && 0 < poll && Observed(list, lines, poll, all)
    ensures Lookup(Purge(all, poll), name) == Expected(list, lines, poll, name)
  {
    var r := Purge(all, poll);
    PurgeKeeps(all, poll);
    if Own(lines, name) == [] {
      forall k | 0 <= k < |r| ensures r[k].name != name {
        assert r[k] in r;
        var i :| 0 <= i < |all| && all[i] == r[k];
        SeenIffCurrent(list, lines, poll, all, i);
      }
    } else {
      var i := Find(all, name);
      SeenIffCurrent(list, lines, poll, all, i);
      assert all[i] in r;
      LookupIs(r, all[i]);
      assert Transformed(list, lines, poll, i, all[i]);
      if i < |list| {
        FindIs(list, i);
      } else {
        NotInOldList(list, lines, poll, all, i);
      }
    }
  }

  lemma NotInOldList(list: seq<Disk>, lines: seq<Line>, poll: nat, all: seq<Disk>, i: nat)
    requires Observed(list, lines, poll, all) && |list| <= i < |all|
    ensures Lookup(list, all[i].name) == None
  {
    forall j | 0 <= j < |list| ensures list[j].name != all[i].name {
      assert Transformed(list, lines, poll, j, all[j]);
    }
  }

  // ------------------------------------------------------------------ all polls

  /** The list after some polls; poll_count starts at 1. */
  function AfterPolls(polls: seq<seq<Line>>): seq<Disk> {
    if polls == [] then []
    else Poll(AfterPolls(polls[..|polls| - 1]), polls[|polls| - 1], |polls|)
  }

  lemma {:induction false} AfterPollsInv(polls: seq<seq<Line>>)
    ensures Distinct(AfterPolls(polls))
    ensures forall i :: 0 <= i < |AfterPolls(polls)| ==> AfterPolls(polls)[i].pollCount == |polls|
  {
    if polls != [] {
      AfterPollsInv(polls[..|polls| - 1]);
      PollMeaning(AfterPolls(polls[..|polls| - 1]), polls[|polls| - 1], |polls|);
    }
  }

  /** The disk has exactly one line in poll j, reporting these true counts modulo 2^32. */
  predicate ReportsCounts(polls: seq<seq<Line>>, name: string, j: nat, read: nat, written: nat)
    requires j < |polls|
  {
    && |Own(polls[j], name)| == 1
    && Own(polls[j], name)[0].readSectors == read % MODULUS
    && Own(polls[j], name)[0].writeSectors == written % MODULUS
  }

  /** Counts that, from poll m to poll n, never fall and grow by less than 2^32. */
  predicate GrowsSlowly(counts: seq<nat>, m: nat, n: nat)
    requires n < |counts|
  {
    forall j :: m < j <= n ==> counts[j - 1] <= counts[j] < counts[j - 1] + MODULUS
  }

  /** A poll with one line for this disk. */
  lemma OneLinePoll(polls: seq<seq<Line>>, name: string, read: nat, written: nat)
    requires polls != [] && ReportsCounts(polls, name, |polls| - 1, read, written)
    ensures var n := |polls| - 1;
            var l := Own(polls[n], name)[0];
            Lookup(AfterPolls(polls), name) ==
            Some(Take(match Lookup(AfterPolls(polls[..n]), name) case None => Fresh(name) case Some(d) => d, l, n + 1))
  {
    var n := |polls| - 1;
    var own := Own(polls[n], name);
    var d := match Lookup(AfterPolls(polls[..n]), name) case None => Fresh(name) case Some(d) => d;
    AfterPollsInv(polls[..n]);
    PollMeaning(AfterPolls(polls[..n]), polls[n], n + 1);
    assert own == [own[0]] && own[..0] == [];
    assert TakeAll(d, own, n + 1) == Take(TakeAll(d, own[..0], n + 1), own[0], n + 1);
    assert Lookup(AfterPolls(polls), name) == Expected(AfterPolls(polls[..n]), polls[n], n + 1, name);
  }

  /** Bytes grew by exactly 512 for every sector, up to these true counts. */
  predicate Counted(first: Disk, last: Disk, r: nat, r': nat, w: nat, w': nat) {
    && last.readBytes - first.readBytes == 512 * (r' - r)
    && last.writeBytes - first.writeBytes == 512 * (w' - w)
    && last.readSectors == r' % MODULUS
    && last.writeSectors == w' % MODULUS
  }

  /** The disk after the first k polls. */
  function DiskAfter(polls: seq<seq<Line>>, k: nat, name: string): Option<Disk>
    requires k <= |polls|
  {
    Lookup(AfterPolls(polls[..k]), name)
  }

  /** Bytes are conserved over any run of polls, wrap-arounds included: from a disk's
      poll m on, its accumulators grow by exactly 512 bytes for every sector. */
  lemma {:induction false} BytesCounted(polls: seq<seq<Line>>, name: string, read: seq<nat>, written: seq<nat>,
                                        m: nat, n: nat)
    requires m <= n < |polls| == |read| == |written|
    requires GrowsSlowly(read, m, n) && GrowsSlowly(written, m, n)
    requires forall j :: m <= j <= n ==> ReportsCounts(polls, name, j, read[j], written[j])
    ensures var first, last := DiskAfter(polls, m + 1, name), DiskAfter(polls, n + 1, name);
            first.Some? && last.Some? && Counted(first.value, last.value, read[m], read[n], written[m], written[n])
    decreases n
  {
    if m < n {
      BytesCounted(polls, name, read, written, m, n - 1);
      OneMoreCounted(DiskAfter(polls, m + 1, name).value, polls, name, n,
                     read[m], read[n - 1], read[n], written[m], written[n - 1], written[n]);
    } else {
      FirstCounted(polls, name, n, read[n], written[n]);
    }
  }

  lemma FirstCounted(polls: seq<seq<Line>>, name: string, n: nat, r: nat, w: nat)
    requires n < |polls| && ReportsCounts(polls, name, n, r, w)
    ensures DiskAfter(polls, n + 1, name).Some?
    ensures var d := DiskAfter(polls, n + 1, name).value; Counted(d, d, r, r, w, w)
  {
    assert polls[..n + 1][n] == polls[n];
    OneLinePoll(polls[..n + 1], name, r, w);
  }

  /** Poll n continues what the polls before it have counted. */
  lemma OneMoreCounted(first: Disk, polls: seq<seq<Line>>, name: string, n: nat,
                       r0: nat, r: nat, r': nat, w0: nat, w: nat, w': nat)
    requires n < |polls| && ReportsCounts(polls, name, n, r', w')
    requires r <= r' < r + MODULUS && w <= w' < w + MODULUS
    requires DiskAfter(polls, n, name).Some? && Counted(first, DiskAfter(polls, n, name).value, r0, r, w0, w)
    ensures DiskAfter(polls, n + 1, name).Some? && Counted(first, DiskAfter(polls, n + 1, name).value, r0, r', w0, w')
  {
    var upTo := polls[..n + 1];
    assert upTo[n] == polls[n] && upTo[..n] == polls[..n];
    OneMorePoll(upTo, name, r, r', w, w');
    CountedTwice(first, DiskAfter(polls, n, name).value, DiskAfter(polls, n + 1, name).value, r0, r, r', w0, w, w');
  }

  lemma CountedTwice(a: Disk, b: Disk, c: Disk, r: nat, r': nat, r'': nat, w: nat, w': nat, w'': nat)
    requires Counted(a, b, r, r', w, w') && Counted(b, c, r', r'', w', w'')
    ensures Counted(a, c, r, r'', w, w'')
  {
  }

  /** The last poll adds 512 bytes for every sector since the one before. */
  lemma OneMorePoll(polls: seq<seq<Line>>, name: string, r: nat, r': nat, w: nat, w': nat)
    requires polls != [] && ReportsCounts(polls, name, |polls| - 1, r', w')
    requires r <= r' < r + MODULUS && w <= w' < w + MODULUS
    requires var before := Lookup(AfterPolls(polls[..|polls| - 1]), name);
             before.Some? && before.value.readSectors == r % MODULUS && before.value.writeSectors == w % MODULUS
    ensures var before, after := Lookup(AfterPolls(polls[..|polls| - 1]), name), Lookup(AfterPolls(polls), name);
            after.Some? && Counted(before.value, after.value, r, r', w, w')
  {
    OneLinePoll(polls, name, r', w');
    DiffIsGrowth(r, r');
    DiffIsGrowth(w, w');
  }

  // ------------------------------------------------------------- the linked list

  /** diskstats_t */
  class Node {
    const name: string
    var pollCount: nat
    var readSectors: int
    var writeSectors: int
    var readBytes: int
    var writeBytes: int
    var next: Node?

    constructor (name: string)
      ensures this.name == name && View() == Fresh(name) && next == null
    {
      this.name := name;
      pollCount := 0;
      readSectors, writeSectors, readBytes, writeBytes := 0, 0, 0, 0;
      next := null;
    }

    ghost function View(): Disk
      reads this
    {
      Disk(name, pollCount, readSectors, writeSectors, readBytes, writeBytes)
    }

    /** The counter updates of disk_read. */
    method Update(l: Line, poll: nat)
      modifies this
      ensures View() == Take(old(View()), l, poll) && next == old(next)
    {
      var diffRead, diffWrite;
      if l.readSectors < readSectors {
        diffRead := 1 + l.readSectors + (UINT_MAX - readSectors);
      } else {
        diffRead := l.readSectors - readSectors;
      }
      if l.writeSectors < writeSectors {
        diffWrite := 1 + l.writeSectors + (UINT_MAX - writeSectors);
      } else {
        diffWrite := l.writeSectors - writeSectors;
      }
      readBytes := readBytes + 512 * diffRead;
      writeBytes := writeBytes + 512 * diffWrite;
      readSectors := l.readSectors;
      writeSectors := l.writeSectors;
      pollCount := poll;
    }
  }

  lemma PurgeStep(list: seq<Disk>, k: nat, poll: nat)
    requires k < |list|
    ensures list[..k] + Purge(list[k..], poll) ==
            if list[k].pollCount == poll then list[..k + 1] + Purge(list[k + 1..], poll)
            else var rest := list[..k] + list[k + 1..]; rest[..k] + Purge(rest[k..], poll)
  {
    assert (list[..k] + list[k + 1..])[..k] == list[..k] && (list[..k] + list[k + 1..])[k..] == list[k + 1..];
    assert list[k..][0] == list[k] && list[k..][1..] == list[k + 1..];
    var rest := Purge(list[k + 1..], poll);
    assert list[..k] + ([list[k]] + rest) == list[..k + 1] + rest;
    assert [] + rest == rest;
  }

  /** disklist and poll_count. The ghost sequences name the linked nodes in order and
      what they hold. */
  class DiskList {
    var head: Node?
    var pollCount: nat
    ghost var nodes: seq<Node>
    ghost var contents: seq<Disk>

    ghost predicate Valid()
      reads this, nodes
    {
      && |contents| == |nodes|
      && (forall i, j :: 0 <= i < j < |nodes| ==> nodes[i] != nodes[j])
      && (if nodes == [] then head == null else head == nodes[0])
      && (forall i {:trigger nodes[i].next} :: 0 <= i < |nodes| ==>
            nodes[i].next == if i + 1 < |nodes| then nodes[i + 1] else null)
      && (forall i {:trigger nodes[i].View()} {:trigger contents[i]} :: 0 <= i < |nodes| ==>
            nodes[i].View() == contents[i])
    }

    constructor ()
      ensures Valid() && contents == [] && pollCount == 0
    {
      head := null;
      nodes, contents := [], [];
      pollCount := 0;
    }

    /** The search loop: the node of that name and the one before it. */
    method FindNode(name: string) returns (ds: Node?, pre: Node?, ghost i: nat)
      requires Valid()
      ensures ds != null ==> ds in nodes && ds.name == name
      ensures ds == null <==> forall d :: d in contents ==> d.name != name
      ensures i == Find(contents, name)
      ensures if i < |nodes| then ds == nodes[i] else ds == null
      ensures if i == 0 then pre == head else pre == nodes[i - 1]
    {
      ds, pre, i := head, head, 0;
      while ds != null && ds.name != name
        invariant i <= |nodes|
        invariant if i < |nodes| then ds == nodes[i] else ds == null
        invariant if i == 0 then pre == head else pre == nodes[i - 1]
        invariant Find(contents, name) == i + Find(contents[i..], name)
        decreases |nodes| - i
      {
        assert contents[i] == nodes[i].View();
        assert contents[i..][1..] == contents[i + 1..];
        pre, ds := ds, ds.next;
        i := i + 1;
      }
      assert i < |nodes| ==> contents[i] == nodes[i].View();
    }

    /** Link a new node behind `pre`, the last one, or as the head of an empty list. */
    method Append(name: string, pre: Node?) returns (ds: Node)
      requires Valid()
      requires if nodes == [] then pre == null else pre == nodes[|nodes| - 1]
      modifies this`head, this`nodes, this`contents, if pre == null then {} else {pre}
      ensures Valid() && fresh(ds) && nodes == old(nodes) + [ds]
      ensures contents == old(contents) + [Fresh(name)]
    {
      ds := new Node(name);
      if pre == null {
        head := ds;
      } else {
        pre.next := ds;
      }
      nodes := nodes + [ds];
      contents := contents + [Fresh(name)];
    }

    method UpdateNode(ds: Node, ghost i: nat, l: Line)
      requires Valid() && i < |nodes| && ds == nodes[i]
      modifies ds, this`contents
      ensures Valid()
      ensures contents == old(contents)[i := Take(old(contents)[i], l, pollCount)]
    {
      ds.Update(l, pollCount);
      contents := contents[i := Take(contents[i], l, pollCount)];
    }

    /** One line of the statistics. */
    method ObserveLine(l: Line)
      requires Valid()
      modifies this`head, this`nodes, this`contents, nodes
      ensures Valid() && forall i {:trigger nodes[i]} :: 0 <= i < |nodes| ==> nodes[i] in old(nodes) || fresh(nodes[i])
      ensures contents == Observe(old(contents), l, pollCount)
    {
      if l.fields != 7 && l.fields < 14 {
        return;
      }
      var ds, pre, i := FindNode(l.name);
      if ds == null {
        ds := Append(l.name, pre);
        UpdateNode(ds, i, l);
      } else {
        UpdateNode(ds, i, l);
      }
    }

    /** Take the k-th node out of the list; its own link stays. */
    method Unlink(ds: Node, pre: Node?, ghost k: nat) returns (pre': Node?)
      requires Valid() && k < |nodes| && ds == nodes[k]
      requires if k == 0 then pre == head else pre == nodes[k - 1]
      modifies this`head, this`nodes, this`contents, pre`next
      ensures Valid() && nodes == old(nodes)[..k] + old(nodes)[k + 1..]
      ensures contents == old(contents)[..k] + old(contents)[k + 1..]
      ensures ds.next == old(ds.next)
      ensures if k == 0 then pre' == head else pre' == pre
    {
      pre' := pre;
      if ds == head {
        head := ds.next;
        pre' := head;
      } else {
        pre.next := ds.next;
      }
      nodes := nodes[..k] + nodes[k + 1..];
      contents := contents[..k] + contents[k + 1..];
    }

    /** The loop that unlinks the disks without a line in this poll. */
    method PurgeMissing()
      requires Valid()
      modifies this`head, this`nodes, this`contents, nodes
      ensures Valid() && forall n :: n in nodes ==> n in old(nodes)
      ensures contents == Purge(old(contents), pollCount)
    {
      var ds, pre := head, head;
      ghost var k := 0;
      while ds != null
        invariant Valid() && k <= |nodes|
        invariant if k < |nodes| then ds == nodes[k] else ds == null
        invariant if k == 0 then pre == head else pre == nodes[k - 1]
        invariant forall n :: n in nodes ==> n in old(nodes)
        invariant Purge(old(contents), pollCount) == contents[..k] + Purge(contents[k..], pollCount)
        decreases |nodes| - k
      {
        PurgeStep(contents, k, pollCount);
        assert contents[k] == nodes[k].View();
        if ds.pollCount == pollCount {
          pre := ds;
          ds := ds.next;
          k := k + 1;
        } else {
          assert pre in nodes;
          pre := Unlink(ds, pre, k);
          ds := ds.next;
        }
      }
      assert contents[..k] == contents && contents[k..] == [];
    }

    /** disk_read */
    method Read(lines: seq<Line>)
      requires Valid()
      modifies this, nodes
      ensures Valid() && pollCount == old(pollCount) + 1
      ensures contents == Poll(old(contents), lines, pollCount)
    {
      pollCount := pollCount + 1;
      for i := 0 to |lines|
        invariant Valid() && pollCount == old(pollCount) + 1
        invariant forall i {:trigger nodes[i]} :: 0 <= i < |nodes| ==> nodes[i] in old(nodes) || fresh(nodes[i])
        invariant contents == ObserveAll(old(contents), lines[..i], pollCount)
      {
        assert lines[..i + 1][..i] == lines[..i];
        ObserveLine(lines[i]);
      }
      assert lines[..|lines|] == lines;
      PurgeMissing();
    }
  }
}
