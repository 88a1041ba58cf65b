/** Counter values in src/ceph.c: the type of a counter is guessed from its position,
    and latencies are averaged between polls with a table of the last poll's sums. */
module CephCounters {
  import opened Common

  // ------------------------------------------------------------------ counter types

  /** enum ceph_dset_type_d; None is DSET_TYPE_UNFOUND. */
  datatype DsType = Latency | Bytes | Rate

  /** ds_names and ds_types of a daemon, as the schema defined them. */
  datatype Schema = Schema(names: seq<string>, types: seq<DsType>) {
    predicate Valid() {
      |names| == |types|
    }
  }

  /** backup_search_for_type: the first entry of that name. */
  function SearchType(d: Schema, name: string): Option<DsType>
    requires d.Valid()
    decreases |d.names|
  {
    if d.names == [] then None
    else if d.names[0] == name then Some(d.types[0])
    else SearchType(Schema(d.names[1..], d.types[1..]), name)
  }

  /** The lookup of node_handler_fetch_data: at the index, one before it, or by search. */
  function GuessType(d: Schema, index: nat, name: string): Option<DsType>
    requires d.Valid() && d.names != []
  {
    var i := if index >= |d.names| then |d.names| - 1 else index;
    if d.names[i] == name then Some(d.types[i])
    else if i > 0 && d.names[i - 1] == name then Some(d.types[i - 1])
    else SearchType(d, name)
  }

  /** Entries of the same name have the same type; in particular if names are distinct. */
  ghost predicate Consistent(d: Schema)
    requires d.Valid()
  {
    forall i, j :: 0 <= i < |d.names| && 0 <= j < |d.names| && d.names[i] == d.names[j] ==> d.types[i] == d.types[j]
  }

  lemma {:induction false} SearchFindsFirst(d: Schema, k: nat)
    requires d.Valid() && k < |d.names|
    ensures exists i :: 0 <= i <= k && d.names[i] == d.names[k] && SearchType(d, d.names[k]) == Some(d.types[i])
    decreases |d.names|
  {
    if d.names[0] != d.names[k] {
      var rest := Schema(d.names[1..], d.types[1..]);
      SearchFindsFirst(rest, k - 1);
      var i :| 0 <= i <= k - 1 && rest.names[i] == d.names[k] && SearchType(rest, d.names[k]) == Some(rest.types[i]);
      assert d.names[i + 1] == d.names[k] && SearchType(d, d.names[k]) == Some(d.types[i + 1]);
    } else {
      assert SearchType(d, d.names[k]) == Some(d.types[0]);
    }
  }

  /** The positional guess is the search by name, at every index and for every name,
      if and only if the schema gives equal names equal types. */
  lemma GuessIsSearch(d: Schema)
    requires d.Valid() && d.names != []
    ensures Consistent(d) <==> forall index: nat, name :: GuessType(d, index, name) == SearchType(d, name)
  {
    if Consistent(d) {
      forall index: nat, name ensures GuessType(d, index, name) == SearchType(d, name) {
        var i := if index >= |d.names| then |d.names| - 1 else index;
        SearchFindsFirst(d, i);
        if i > 0 {
          SearchFindsFirst(d, i - 1);
        }
      }
    }
    if forall index: nat, name :: GuessType(d, index, name) == SearchType(d, name) {
      forall i, j | 0 <= i < |d.names| && 0 <= j < |d.names| && d.names[i] == d.names[j]
        ensures d.types[i] == d.types[j]
      {
        assert GuessType(d, i, d.names[i]) == Some(d.types[i]);
        assert GuessType(d, j, d.names[j]) == Some(d.types[j]);
      }
    }
  }

  ghost predicate Distinct(names: seq<string>) {
    forall i, j :: 0 <= i < j < |names| ==> names[i] != names[j]
  }

  // -------------------------------------------------------------- the latency table

  /** struct last_data */
  datatype Row = Row(name: string, sum: real, count: nat)

  /** backup_search_for_last_avg; None for -1. */
  function SearchRow(table: seq<Row>, name: string): (r: Option<nat>)
    ensures r.Some? ==> r.value < |table| && table[r.value].name == name
    ensures r.None? ==> forall i :: 0 <= i < |table| ==> table[i].name != name
  {
    if table == [] then None
    else if table[0].name == name then Some(0)
    else match SearchRow(table[1..], name) case None => None case Some(i) => Some(i + 1)
  }

  /** Where get_last_avg looks: at the index, one before it, or by search; row 0 if the
      index is past the table. */
  function RowFor(table: seq<Row>, name: string, index: nat): Option<nat> {
    if index >= |table| then Some(0)
    else if table[index].name == name then Some(index)
    else if index > 0 && table[index - 1].name == name then Some(index - 1)
    else SearchRow(table, name)
  }

  /** update_last */
  function Update(table: seq<Row>, name: string, at: nat, sum: real, count: nat): seq<Row> {
    if at < |table| && table[at].name == name then table[at := Row(name, sum, count)]
    else table + [Row(name, sum, count)]
  }

  const NO_RESULT: real := -1.1

  /** The number of requests between two polls grew: their mean latency. */
  function Mean(last: Row, sum: real, count: nat): real
    requires count > last.count
  {
    (sum - last.sum) / (count - last.count) as real
  }

  /** get_last_avg: the reported value, where None is NaN, and the new table. A name
      missing from a table that covers the index is outside of it: update_last would
      then be given index -1. */
  function GetLastAvg(table: seq<Row>, name: string, index: nat, sum: real, count: nat): (Option<real>, seq<Row>)
    requires RowFor(table, name, index).Some?
  {
    var at := RowFor(table, name, index).value;
    var result := if index < |table| && count > table[at].count then Mean(table[at], sum, count) else NO_RESULT;
    (if result == NO_RESULT then None else Some(result), Update(table, name, at, sum, count))
  }

  /** For a counter that is in the table, at the guessed place or not: the reported value
      is the mean latency since the last poll, and it is NaN exactly when the count did
      not grow or that mean is the number that marks a missing result. */
  lemma KnownCounter(table: seq<Row>, name: string, index: nat, k: nat, sum: real, count: nat)
    requires k < |table| && table[k].name == name && index < |table|
    requires forall i, j :: 0 <= i < j < |table| ==> table[i].name != table[j].name
    ensures RowFor(table, name, index) == Some(k)
    ensures var (result, table') := GetLastAvg(table, name, index, sum, count);
            && table' == table[k := Row(name, sum, count)]
            && (result.None? <==> count <= table[k].count || Mean(table[k], sum, count) == NO_RESULT)
            && (result.Some? ==> result.value * (count - table[k].count) as real == sum - table[k].sum)
  {
  }

  // ----------------------------------------------------------------- a whole poll

  /** What sscanf makes of a value text, as an integer and as a floating point number. */
  datatype Reading = Reading(asUint: nat, asReal: real)

  datatype Suffix = AvgCount | Sum | AvgTime | NoSuffix

  datatype Sent = Gauge(gauge: Option<real>) | Derive(derive: nat)

  /** One plugin_dispatch_values. */
  datatype Dispatch = Dispatch(typ: DsType, name: string, value: Sent)

  /** struct values_tmp, the daemon's latency table and the dispatches so far. */
  datatype Session = Session(avgcount: nat, index: nat, latencyIndex: nat, table: seq<Row>, out: seq<Dispatch>)

  const ENOMEM: int := 12

  function Send(s: Session, typ: DsType, name: string, value: Sent): Session {
    s.(index := s.index + 1, out := s.out + [Dispatch(typ, name, value)])
  }

  /** Does this number consult the latency table? */
  predicate Averages(d: Schema, longRun: bool, s: Session, name: string, suffix: Suffix)
    requires d.Valid() && d.names != []
  {
    GuessType(d, s.index, name) == Some(Latency) && suffix == Sum && !longRun
  }

  /** node_handler_fetch_data for one number: the new state and the return code. */
  function Fetch(d: Schema, longRun: bool, s: Session, name: string, suffix: Suffix, val: Reading): (Session, int)
    requires d.Valid() && d.names != []
    requires Averages(d, longRun, s, name, suffix) ==> RowFor(s.table, name, s.latencyIndex).Some?
  {
    match GuessType(d, s.index, name)
    case None => (s, -1)
    case Some(Bytes) => (Send(s, Bytes, name, Gauge(Some(val.asReal))), 0)
    case Some(Rate) => (Send(s, Rate, name, Derive(val.asUint)), 0)
    case Some(Latency) =>
      match suffix
      case AvgCount => (s.(avgcount := val.asUint), 0)
      case NoSuffix => (s, 0)
      case AvgTime =>
        if !longRun then (s, 0)
        else (Send(s, Latency, name, Gauge(Some(val.asReal))).(latencyIndex := s.latencyIndex + 1), 0)
      case Sum =>
        var s1 := s.(avgcount := AtLeastOne(s.avgcount));
        if longRun then (s1, 0)
        else
          var (result, table) := GetLastAvg(s.table, name, s.latencyIndex, val.asReal, s1.avgcount);
          var s2 := s1.(table := table);
          if result == Some(-(ENOMEM as real)) then (s2, -ENOMEM)
          else (Send(s2, Latency, name, Gauge(result)).(latencyIndex := s.latencyIndex + 1), 0)
  }

  /** A latency counter without requests is taken to have one. */
  function AtLeastOne(count: nat): (r: nat)
    ensures r > 0
  {
    if count == 0 then 1 else count
  }

  /** The sum of a known latency counter reaches node_handler_fetch_data: with the count
      taken, the mean is dispatched exactly if the count grew and the mean is neither of
      the two numbers -1.1 and -12.0. At -1.1, as without growth, NaN is dispatched; at
      -12.0 nothing is, and the handler fails as if memory had run out. */
  lemma KnownLatency(d: Schema, s: Session, name: string, k: nat, val: Reading)
    requires d.Valid() && d.names != [] && GuessType(d, s.index, name) == Some(Latency)
    requires k < |s.table| && s.table[k].name == name && s.latencyIndex < |s.table|
    requires forall i, j :: 0 <= i < j < |s.table| ==> s.table[i].name != s.table[j].name
    ensures RowFor(s.table, name, s.latencyIndex) == Some(k)
    ensures var n := AtLeastOne(s.avgcount);
            var grew := n > s.table[k].count;
            var (s', ret) := Fetch(d, false, s, name, Sum, val);
            && s'.table == s.table[k := Row(name, val.asReal, n)]
            && (forall mean: real :: (ret == 0 && s'.out == s.out + [Dispatch(Latency, name, Gauge(Some(mean)))]) <==>
                  grew && mean == Mean(s.table[k], val.asReal, n) && mean != NO_RESULT && mean != -12.0)
            && ((ret == 0 && s'.out == s.out + [Dispatch(Latency, name, Gauge(None))]) <==>
                  !grew || Mean(s.table[k], val.asReal, n) == NO_RESULT)
            && (ret == -ENOMEM <==> grew && Mean(s.table[k], val.asReal, n) == -12.0)
            && (ret != 0 ==> ret == -ENOMEM && s'.out == s.out && s'.index == s.index)
  {
    var n := AtLeastOne(s.avgcount);
    var (result, table) := GetLastAvg(s.table, name, s.latencyIndex, val.asReal, n);
    KnownCounter(s.table, name, s.latencyIndex, k, val.asReal, n);
    forall v, w | s.out + [Dispatch(Latency, name, v)] == s.out + [Dispatch(Latency, name, w)] ensures v == w {
      assert (s.out + [Dispatch(Latency, name, v)])[|s.out|] == Dispatch(Latency, name, v);
    }
  }

  /** What one number does, for any session: it is refused if its name is unknown; a plain
      counter is dispatched whatever its key ends in; of a latency, one part is dispatched,
      which one being a matter of the configuration, and the other parts are not. */
  lemma FetchEffects(d: Schema, longRun: bool, s: Session, name: string, suffix: Suffix, val: Reading)
    requires d.Valid() && d.names != []
    requires Averages(d, longRun, s, name, suffix) ==> RowFor(s.table, name, s.latencyIndex).Some?
    ensures var (s', ret) := Fetch(d, longRun, s, name, suffix, val);
            var typ := GuessType(d, s.index, name);
            && ret in {0, -1, -12} && (ret == -1 <==> typ.None?)
            && (ret != 0 ==> s'.out == s.out && s'.index == s.index)
            && (typ in {Some(Bytes), Some(Rate)} ==> s' == s.(index := s'.index, out := s'.out))
            && (ret == 0 ==>
                  var sends := typ != Some(Latency) || suffix == (if longRun then AvgTime else Sum);
                  && s'.index == s.index + (if sends then 1 else 0)
                  && |s'.out| == |s.out| + (if sends then 1 else 0) && s'.out[..|s.out|] == s.out
                  && (sends ==> s'.out[|s.out|].typ == typ.value && s'.out[|s.out|].name == name)
                  && (typ == Some(Latency) && longRun && suffix == AvgTime ==>
                        s'.out[|s.out|].value == Gauge(Some(val.asReal)))
                  && (typ == Some(Latency) && suffix == NoSuffix ==> s' == s))
  {
  }

  /** The two marks are met by sums that fall: from 24.0 to 0.0 over two requests the poll
      is aborted, and from 2.2 to 0.0 the mean is lost. */
  lemma Marks(name: string)
    ensures var d := Schema([name], [Latency]);
            && FetchAll(d, false, Session(3, 0, 0, [Row(name, 24.0, 1)], []), [Number(name, Sum, Reading(0, 0.0))]) == None
            && Mean(Row(name, 24.0, 1), 0.0, 3) == -12.0
            && Fetch(d, false, Session(3, 0, 0, [Row(name, 2.2, 1)], []), name, Sum, Reading(0, 0.0)).0.out
               == [Dispatch(Latency, name, Gauge(None))]
            && Mean(Row(name, 2.2, 1), 0.0, 3) == NO_RESULT
  {
    var d := Schema([name], [Latency]);
    var numbers := [Number(name, Sum, Reading(0, 0.0))];
    assert GuessType(d, 0, name) == Some(Latency);
    assert RowFor([Row(name, 24.0, 1)], name, 0) == Some(0);
    assert numbers[0] == Number(name, Sum, Reading(0, 0.0));
  }

  /** What one poll reports for a counter: a latency is a count and a sum, followed by an
      average on newer daemons. */
  datatype Sample = Lat(count: nat, sum: real, avgtime: Option<real>) | Plain(val: Reading)

  ghost predicate Matches(d: Schema, samples: seq<Sample>)
    requires d.Valid()
  {
    |samples| == |d.names| && forall i :: 0 <= i < |samples| ==> (samples[i].Lat? <==> d.types[i] == Latency)
  }

  /** One number of a counter. */
  datatype Number = Number(name: string, suffix: Suffix, val: Reading)

  function Numbers(name: string, sample: Sample): seq<Number> {
    match sample
    case Plain(val) => [Number(name, NoSuffix, val)]
    case Lat(count, sum, None) => [Number(name, AvgCount, Reading(count, 0.0)), Number(name, Sum, Reading(0, sum))]
    case Lat(count, sum, Some(avg)) =>
      [Number(name, AvgCount, Reading(count, 0.0)), Number(name, Sum, Reading(0, sum)),
       Number(name, AvgTime, Reading(0, avg))]
  }

  /** The rows of the latency counters from the k-th counter on. */
  function Rows(d: Schema, samples: seq<Sample>, k: nat): (r: seq<Row>)
    requires d.Valid() && |samples| == |d.names| && k <= |samples|
    ensures |r| <= |samples| - k
    decreases |samples| - k
  {
    if k == |samples| then []
    else
      var rest := Rows(d, samples, k + 1);
      match samples[k]
      case Lat(count, sum, _) => [Row(d.names[k], sum, AtLeastOne(count))] + rest
      case Plain(_) => rest
  }

  /** The mean over what came between two readings, or NaN if nothing did. */
  function MeanBetween(count0: nat, sum0: real, count: nat, sum: real): Sent {
    if count > count0 then Gauge(Some((sum - sum0) / (count - count0) as real)) else Gauge(None)
  }

  /** The value that a sample calls for, given the counter's sample in the poll before: a
      latency is (sum change) / (count change) of the counts as reported. */
  function Expected(typ: DsType, before: Option<Sample>, now: Sample): Sent {
    match (typ, now)
    case (Latency, Lat(count, sum, _)) =>
      (match before
       case Some(Lat(count0, sum0, _)) => MeanBetween(count0, sum0, count, sum)
       case _ => Gauge(None))
    case (Rate, Plain(val)) => Derive(val.asUint)
    case (_, Plain(val)) => Gauge(Some(val.asReal))
    case (_, Lat(_, sum, _)) => Gauge(Some(sum))
  }

  /** A sample with the count that the code takes for it. */
  function Adjusted(sample: Sample): Sample {
    match sample
    case Lat(count, sum, avgtime) => Lat(AtLeastOne(count), sum, avgtime)
    case Plain(_) => sample
  }

  /** The value that is dispatched: the one called for by the adjusted counts. */
  function Computed(typ: DsType, before: Option<Sample>, now: Sample): Sent {
    Expected(typ, match before case None => None case Some(last) => Some(Adjusted(last)), Adjusted(now))
  }

  /** The counter had requests at the poll before, or has had none yet, or the sum did not
      move since (and the count passed 1). */
  predicate CountsReliable(last: Sample, now: Sample) {
    last.Lat? && now.Lat? ==>
      last.count > 0 || now.count == 0 || (now.count >= 2 && now.sum == last.sum)
  }

  /** Exactly when the dispatched latency is (sum change) / (count change). */
  lemma ComputedIsExpected(last: Sample, now: Sample)
    requires last.Lat? && now.Lat?
    ensures Computed(Latency, Some(last), now) == Expected(Latency, Some(last), now) <==> CountsReliable(last, now)
  {
    if last.count == 0 && now.count >= 2 {
      QuotientsDiffer(now.sum - last.sum, (now.count - 1) as real, now.count as real);
    }
  }

  lemma QuotientsDiffer(x: real, m: real, n: real)
    requires 0.0 < m < n
    ensures x / m == x / n <==> x == 0.0
  {
    if x / m == x / n {
      var q := x / m;
      assert q * m == x && q * n == x;
      assert q * (n - m) == 0.0;
    }
  }

  /** The dispatches of a poll from the k-th counter on, as the code computes them. */
  function ComputedFrom(d: Schema, before: Option<seq<Sample>>, now: seq<Sample>, k: nat): seq<Dispatch>
    requires d.Valid() && |now| == |d.names| && k <= |now|
    requires before.Some? ==> |before.value| == |now|
    decreases |now| - k
  {
    if k == |now| then []
    else
      var last := if before.None? then None else Some(before.value[k]);
      [Dispatch(d.types[k], d.names[k], Computed(d.types[k], last, now[k]))] + ComputedFrom(d, before, now, k + 1)
  }

  /** The dispatches called for from the k-th counter on; `before` is the last poll, if any. */
  function ExpectedFrom(d: Schema, before: Option<seq<Sample>>, now: seq<Sample>, k: nat): seq<Dispatch>
    requires d.Valid() && |now| == |d.names| && k <= |now|
    requires before.Some? ==> |before.value| == |now|
    decreases |now| - k
  {
    if k == |now| then []
    else
      var last := if before.None? then None else Some(before.value[k]);
      [Dispatch(d.types[k], d.names[k], Expected(d.types[k], last, now[k]))] + ExpectedFrom(d, before, now, k + 1)
  }

  /** The handler calls for a list of numbers, until one fails or has no defined meaning. */
  function FetchAll(d: Schema, longRun: bool, s: Session, numbers: seq<Number>): Option<Session>
    requires d.Valid() && d.names != []
    decreases |numbers|
  {
    if numbers == [] then Some(s)
    else
      var n := numbers[0];
      if Averages(d, longRun, s, n.name, n.suffix) && RowFor(s.table, n.name, s.latencyIndex).None? then None
      else
        var (s', ret) := Fetch(d, longRun, s, n.name, n.suffix, n.val);
        if ret != 0 then None else FetchAll(d, longRun, s', numbers[1..])
  }

  function NumbersFrom(d: Schema, samples: seq<Sample>, k: nat): seq<Number>
    requires d.Valid() && |samples| == |d.names| && k <= |samples|
    decreases |samples| - k
  {
    if k == |samples| then [] else Numbers(d.names[k], samples[k]) + NumbersFrom(d, samples, k + 1)
  }

  lemma {:induction false} FetchAllConcat(d: Schema, longRun: bool, s: Session, a: seq<Number>, b: seq<Number>)
    requires d.Valid() && d.names != []
    ensures FetchAll(d, longRun, s, a + b) ==
            match FetchAll(d, longRun, s, a) case None => None case Some(s') => FetchAll(d, longRun, s', b)
    decreases |a|
  {
    if a == [] {
      assert a + b == b;
    } else {
      assert (a + b)[1..] == a[1..] + b;
      var n := a[0];
      if Averages(d, longRun, s, n.name, n.suffix) ==> RowFor(s.table, n.name, s.latencyIndex).Some? {
        var (s', ret) := Fetch(d, longRun, s, n.name, n.suffix, n.val);
        if ret == 0 {
          FetchAllConcat(d, longRun, s', a[1..], b);
        }
      }
    }
  }

  /** Sums never fall between polls. */
  ghost predicate SumsGrow(before: seq<Sample>, now: seq<Sample>) {
    |before| == |now| &&
    forall i :: 0 <= i < |now| && before[i].Lat? && now[i].Lat? ==> before[i].sum <= now[i].sum
  }

  /** The rows left from the last poll, from the k-th counter on. */
  function OldRows(d: Schema, before: Option<seq<Sample>>, k: nat): seq<Row>
    requires d.Valid() && k <= |d.names| && (before.Some? ==> |before.value| == |d.names|)
  {
    match before case None => [] case Some(samples) => Rows(d, samples, k)
  }

  /** The state while the k-th counter is due: the first rows are new, the others old. */
  function Due(d: Schema, before: Option<seq<Sample>>, k: nat, avgcount: nat, rows: seq<Row>, out: seq<Dispatch>): Session
    requires d.Valid() && k <= |d.names| && (before.Some? ==> |before.value| == |d.names|)
  {
    Session(avgcount, k, |rows|, rows + OldRows(d, before, k), out)
  }

  /** The conditions of the poll theorem. */
  ghost predicate Regular(d: Schema, before: Option<seq<Sample>>, now: seq<Sample>) {
    && d.Valid() && d.names != [] && Distinct(d.names)
    && Matches(d, now)
    && (before.Some? ==> Matches(d, before.value) && SumsGrow(before.value, now))
  }

  lemma MeanNotNegative(last: Row, sum: real, count: nat)
    requires count > last.count && sum >= last.sum
    ensures Mean(last, sum, count) >= 0.0
  {
    var d := (count - last.count) as real;
    assert d > 0.0;
  }

  /** One latency counter takes its turn. */
  lemma LatencyStep(d: Schema, before: Option<seq<Sample>>, now: seq<Sample>, k: nat,
                    avgcount: nat, rows: seq<Row>, out: seq<Dispatch>)
    requires Regular(d, before, now) && k < |now| && d.types[k] == Latency
    requires forall r :: r in rows ==> r.name != d.names[k]
    ensures var Lat(count, sum, _) := now[k];
            var n := AtLeastOne(count);
            var last := if before.None? then None else Some(before.value[k]);
            FetchAll(d, false, Due(d, before, k, avgcount, rows, out), Numbers(d.names[k], now[k]))
            == Some(Due(d, before, k + 1, n, rows + [Row(d.names[k], sum, n)],
                        out + [Dispatch(Latency, d.names[k], Computed(Latency, last, now[k]))]))
  {
    var Lat(count, sum, avgtime) := now[k];
    var name, n := d.names[k], AtLeastOne(count);
    var s0 := Due(d, before, k, avgcount, rows, out);
    var last := if before.None? then None else Some(before.value[k]);
    var s1 := s0.(avgcount := count);
    var s2 := Due(d, before, k + 1, n, rows + [Row(name, sum, n)],
                  out + [Dispatch(Latency, name, Computed(Latency, last, now[k]))]);
    var numbers := Numbers(name, now[k]);
    assert GuessType(d, k, name) == Some(Latency);
    assert numbers[1..][0] == Number(name, Sum, Reading(0, sum));
    SumStep(d, before, now, k, count, rows, out);
    var tail := numbers[1..];
    assert FetchAll(d, false, s1, tail) == FetchAll(d, false, s2, tail[1..]);
    if avgtime.Some? {
      assert tail[1..] == [Number(name, AvgTime, Reading(0, avgtime.value))];
      assert GuessType(d, k + 1, name) == Some(Latency);
      assert tail[1..][1..] == [];
    }
    assert FetchAll(d, false, s2, tail[1..]) == Some(s2);
  }

  lemma SumStep(d: Schema, before: Option<seq<Sample>>, now: seq<Sample>, k: nat,
                count: nat, rows: seq<Row>, out: seq<Dispatch>)
    requires Regular(d, before, now) && k < |now| && d.types[k] == Latency && now[k].count == count
    requires forall r :: r in rows ==> r.name != d.names[k]
    ensures var name, sum, n := d.names[k], now[k].sum, AtLeastOne(count);
            var last := if before.None? then None else Some(before.value[k]);
            var s := Due(d, before, k, count, rows, out);
            && RowFor(s.table, name, s.latencyIndex).Some?
            && Fetch(d, false, s, name, Sum, Reading(0, sum))
               == (Due(d, before, k + 1, n, rows + [Row(name, sum, n)],
                       out + [Dispatch(Latency, name, Computed(Latency, last, now[k]))]), 0)
  {
    var name, sum, n := d.names[k], now[k].sum, AtLeastOne(count);
    var s := Due(d, before, k, count, rows, out);
    assert GuessType(d, k, name) == Some(Latency);
    if before.None? {
      FirstAverage(rows, name, sum, n);
      assert s.table == rows && rows + [Row(name, sum, n)] + [] == rows + [Row(name, sum, n)];
    } else {
      var left := Rows(d, before.value, k + 1);
      assert Rows(d, before.value, k) == [Row(name, before.value[k].sum, AtLeastOne(before.value[k].count))] + left;
      NextAverage(rows, Row(name, before.value[k].sum, AtLeastOne(before.value[k].count)), left, sum, n);
    }
  }

  /** A latency that is not in the table yet. */
  lemma FirstAverage(rows: seq<Row>, name: string, sum: real, n: nat)
    requires forall r :: r in rows ==> r.name != name
    ensures RowFor(rows, name, |rows|) == Some(0)
    ensures GetLastAvg(rows, name, |rows|, sum, n) == (None, rows + [Row(name, sum, n)])
  {
    assert rows != [] ==> rows[0] in rows;
  }

  /** A latency whose row is due: rows renewed in this poll before it, old ones behind. */
  lemma NextAverage(rows: seq<Row>, last: Row, left: seq<Row>, sum: real, n: nat)
    requires last.sum <= sum
    ensures var table := rows + ([last] + left);
            && RowFor(table, last.name, |rows|) == Some(|rows|)
            && GetLastAvg(table, last.name, |rows|, sum, n)
               == (if n > last.count then Some(Mean(last, sum, n)) else None, rows + [Row(last.name, sum, n)] + left)
            && (n > last.count ==> Mean(last, sum, n) >= 0.0)
  {
    var table := rows + ([last] + left);
    assert table[|rows|] == last;
    assert table[|rows| := Row(last.name, sum, n)] == rows + [Row(last.name, sum, n)] + left;
    if n > last.count {
      MeanNotNegative(last, sum, n);
    }
  }

  lemma PlainStep(d: Schema, before: Option<seq<Sample>>, now: seq<Sample>, k: nat,
                  avgcount: nat, rows: seq<Row>, out: seq<Dispatch>)
    requires Regular(d, before, now) && k < |now| && d.types[k] != Latency
    ensures var last := if before.None? then None else Some(before.value[k]);
            FetchAll(d, false, Due(d, before, k, avgcount, rows, out), Numbers(d.names[k], now[k]))
            == Some(Due(d, before, k + 1, avgcount, rows,
                        out + [Dispatch(d.types[k], d.names[k], Computed(d.types[k], last, now[k]))]))
  {
    var numbers := Numbers(d.names[k], now[k]);
    assert numbers[1..] == [];
  }

  lemma ThenRest(d: Schema, longRun: bool, s: Session, s1: Session, a: seq<Number>, b: seq<Number>)
    requires d.Valid() && d.names != [] && FetchAll(d, longRun, s, a) == Some(s1)
    ensures FetchAll(d, longRun, s, a + b) == FetchAll(d, longRun, s1, b)
  {
    FetchAllConcat(d, longRun, s, a, b);
  }

  /** One counter of either kind takes its turn. */
  lemma CounterStep(d: Schema, before: Option<seq<Sample>>, now: seq<Sample>, k: nat,
                    avgcount: nat, rows: seq<Row>, out: seq<Dispatch>)
    returns (avgcount': nat, rows': seq<Row>)
    requires Regular(d, before, now) && k < |now|
    requires forall r :: r in rows ==> r.name in d.names[..k]
    ensures var last := if before.None? then None else Some(before.value[k]);
            FetchAll(d, false, Due(d, before, k, avgcount, rows, out), Numbers(d.names[k], now[k]))
            == Some(Due(d, before, k + 1, avgcount', rows',
                        out + [Dispatch(d.types[k], d.names[k], Computed(d.types[k], last, now[k]))]))
    ensures rows' + Rows(d, now, k + 1) == rows + Rows(d, now, k)
    ensures forall r :: r in rows' ==> r.name in d.names[..k + 1]
  {
    avgcount', rows' := avgcount, rows;
    RowsStep(d, now, k, rows);
    if d.types[k] == Latency {
      NewName(d, rows, k);
      LatencyStep(d, before, now, k, avgcount, rows, out);
      avgcount' := AtLeastOne(now[k].count);
      rows' := rows + [Row(d.names[k], now[k].sum, avgcount')];
    } else {
      PlainStep(d, before, now, k, avgcount, rows, out);
    }
    NamesUpTo(d, rows, rows', k);
  }

  lemma RowsStep(d: Schema, now: seq<Sample>, k: nat, rows: seq<Row>)
    requires d.Valid() && Matches(d, now) && k < |now|
    ensures d.types[k] == Latency ==>
              rows + [Row(d.names[k], now[k].sum, AtLeastOne(now[k].count))] + Rows(d, now, k + 1) == rows + Rows(d, now, k)
    ensures d.types[k] != Latency ==> Rows(d, now, k + 1) == Rows(d, now, k)
  {
    if d.types[k] == Latency {
      var row := Row(d.names[k], now[k].sum, AtLeastOne(now[k].count));
      assert rows + [row] + Rows(d, now, k + 1) == rows + ([row] + Rows(d, now, k + 1));
    }
  }

  lemma NewName(d: Schema, rows: seq<Row>, k: nat)
    requires Distinct(d.names) && k < |d.names| && forall r :: r in rows ==> r.name in d.names[..k]
    ensures forall r :: r in rows ==> r.name != d.names[k]
  {
  }

  lemma NamesUpTo(d: Schema, rows: seq<Row>, rows': seq<Row>, k: nat)
    requires k < |d.names| && forall r :: r in rows ==> r.name in d.names[..k]
    requires rows' == rows || exists row :: rows' == rows + [row] && row.name == d.names[k]
    ensures forall r :: r in rows' ==> r.name in d.names[..k + 1]
  {
    assert d.names[..k + 1] == d.names[..k] + [d.names[k]];
  }

  /** From the k-th counter on, a poll dispatches the computed values and renews the rows. */
  lemma {:induction false} PollFrom(d: Schema, before: Option<seq<Sample>>, now: seq<Sample>, k: nat,
                                    avgcount: nat, rows: seq<Row>, out: seq<Dispatch>,
                                    s: Session, numbers: seq<Number>)
    returns (end: Session)
    requires Regular(d, before, now) && k <= |now|
    requires s == Due(d, before, k, avgcount, rows, out) && numbers == NumbersFrom(d, now, k)
    requires forall r :: r in rows ==> r.name in d.names[..k]
    ensures FetchAll(d, false, s, numbers) == Some(end)
    ensures end.table == rows + Rows(d, now, k)
    ensures end.out == out + ComputedFrom(d, before, now, k)
    decreases |now| - k
  {
    if k == |now| {
      end := PollDone(d, before, now, avgcount, rows, out);
    } else {
      var avgcount', rows', out', s', left := CounterThenRest(d, before, now, k, avgcount, rows, out);
      end := PollFrom(d, before, now, k + 1, avgcount', rows', out', s', NumbersFrom(d, now, k + 1));
    }
  }

  lemma PollDone(d: Schema, before: Option<seq<Sample>>, now: seq<Sample>,
                 avgcount: nat, rows: seq<Row>, out: seq<Dispatch>) returns (end: Session)
    requires d.Valid() && d.names != [] && |now| == |d.names| && (before.Some? ==> |before.value| == |d.names|)
    ensures FetchAll(d, false, Due(d, before, |now|, avgcount, rows, out), NumbersFrom(d, now, |now|)) == Some(end)
    ensures end.table == rows + Rows(d, now, |now|)
    ensures end.out == out + ComputedFrom(d, before, now, |now|)
  {
    end := Due(d, before, |now|, avgcount, rows, out);
    assert rows + [] == rows && out + [] == out;
  }

  /** The k-th counter has taken its turn, and the others remain. */
  lemma CounterThenRest(d: Schema, before: Option<seq<Sample>>, now: seq<Sample>, k: nat,
                        avgcount: nat, rows: seq<Row>, out: seq<Dispatch>)
    returns (avgcount': nat, rows': seq<Row>, out': seq<Dispatch>, s': Session, left: Option<Session>)
    requires Regular(d, before, now) && k < |now|
    requires forall r :: r in rows ==> r.name in d.names[..k]
    ensures FetchAll(d, false, Due(d, before, k, avgcount, rows, out), NumbersFrom(d, now, k)) == left
    ensures s' == Due(d, before, k + 1, avgcount', rows', out')
    ensures FetchAll(d, false, s', NumbersFrom(d, now, k + 1)) == left
    ensures rows' + Rows(d, now, k + 1) == rows + Rows(d, now, k)
    ensures out' + ComputedFrom(d, before, now, k + 1) == out + ComputedFrom(d, before, now, k)
    ensures forall r :: r in rows' ==> r.name in d.names[..k + 1]
  {
    avgcount', rows' := CounterStep(d, before, now, k, avgcount, rows, out);
    var last := if before.None? then None else Some(before.value[k]);
    var sent := [Dispatch(d.types[k], d.names[k], Computed(d.types[k], last, now[k]))];
    out' := out + sent;
    s' := Due(d, before, k + 1, avgcount', rows', out');
    PollGlue(d, before, now, k, Due(d, before, k, avgcount, rows, out), s', out, sent);
    left := FetchAll(d, false, Due(d, before, k, avgcount, rows, out), NumbersFrom(d, now, k));
  }

  lemma PollGlue(d: Schema, before: Option<seq<Sample>>, now: seq<Sample>, k: nat, s: Session, s1: Session,
                 out: seq<Dispatch>, sent: seq<Dispatch>)
    requires d.Valid() && d.names != [] && |now| == |d.names| && k < |now|
    requires before.Some? ==> |before.value| == |now|
    requires FetchAll(d, false, s, Numbers(d.names[k], now[k])) == Some(s1)
    requires var last := if before.None? then None else Some(before.value[k]);
             sent == [Dispatch(d.types[k], d.names[k], Computed(d.types[k], last, now[k]))]
    ensures FetchAll(d, false, s, NumbersFrom(d, now, k)) == FetchAll(d, false, s1, NumbersFrom(d, now, k + 1))
    ensures out + ComputedFrom(d, before, now, k) == out + sent + ComputedFrom(d, before, now, k + 1)
  {
    ThenRest(d, false, s, s1, Numbers(d.names[k], now[k]), NumbersFrom(d, now, k + 1));
    assert out + sent + ComputedFrom(d, before, now, k + 1) == out + (sent + ComputedFrom(d, before, now, k + 1));
  }

  // ------------------------------------------------------------ names as they are sent

  /** The schema keeps these names, cut to 126 characters; they come from a buffer of
      DATA_MAX_NAME_LEN bytes. */
  ghost predicate StoredFrom(d: Schema, names: seq<string>) {
    |names| == |d.names| &&
    forall k :: 0 <= k < |names| ==> |names[k]| < NAME_LEN && d.names[k] == Cut(names[k], NAME_LEN - 1)
  }

  /** No name is longer than the schema can keep. */
  ghost predicate AllShort(names: seq<string>) {
    forall k :: 0 <= k < |names| ==> |names[k]| < 127
  }

  lemma ShortNamesAreStored(d: Schema, names: seq<string>)
    requires StoredFrom(d, names) && AllShort(names)
    ensures d.names == names
  {
  }

  lemma {:induction false} SearchMisses(d: Schema, name: string)
    requires d.Valid() && name !in d.names
    ensures SearchType(d, name) == None
    decreases |d.names|
  {
    if d.names != [] {
      SearchMisses(Schema(d.names[1..], d.types[1..]), name);
    }
  }

  /** A number of an unknown name makes the handler fail, and with it the parse. */
  lemma {:induction false} UnknownNameAborts(d: Schema, longRun: bool, s: Session, numbers: seq<Number>, i: nat)
    requires d.Valid() && d.names != [] && i < |numbers| && numbers[i].name !in d.names
    ensures FetchAll(d, longRun, s, numbers) == None
    decreases i
  {
    var n := numbers[0];
    if i == 0 {
      SearchMisses(d, n.name);
    } else if Averages(d, longRun, s, n.name, n.suffix) ==> RowFor(s.table, n.name, s.latencyIndex).Some? {
      var (s', ret) := Fetch(d, longRun, s, n.name, n.suffix, n.val);
      UnknownNameAborts(d, longRun, s', numbers[1..], i - 1);
    }
  }

  lemma {:induction false} NumberOfCounter(d: Schema, now: seq<Sample>, k: nat, j: nat) returns (i: nat)
    requires d.Valid() && |now| == |d.names| && k <= j < |now|
    ensures i < |NumbersFrom(d, now, k)| && NumbersFrom(d, now, k)[i].name == d.names[j]
    decreases |now| - k
  {
    var first := Numbers(d.names[k], now[k]);
    if k == j {
      i := 0;
    } else {
      i := NumberOfCounter(d, now, k + 1, j);
      i := |first| + i;
    }
  }

  /** A counter whose name has 127 characters: its stored name is another one, the type is
      not found, and every poll is aborted. */
  lemma LongNameAborts(d: Schema, names: seq<string>, longRun: bool, s: Session, now: seq<Sample>, k: nat)
    requires d.Valid() && d.names != [] && StoredFrom(d, names) && |now| == |names|
    requires k < |names| && |names[k]| == NAME_LEN - 1
    ensures names[k] !in d.names && SearchType(d, names[k]) == None
    ensures FetchAll(d, longRun, s, NumbersFrom(Schema(names, d.types), now, 0)) == None
  {
    forall i | 0 <= i < |d.names| ensures d.names[i] != names[k] {
      assert |d.names[i]| < NAME_LEN - 1;
    }
    SearchMisses(d, names[k]);
    var i := NumberOfCounter(Schema(names, d.types), now, 0, k);
    UnknownNameAborts(d, longRun, s, NumbersFrom(Schema(names, d.types), now, 0), i);
  }

  /** All polls of a daemon whose data has these names, each one with a fresh session and
      the table left by the last. */
  function Polls(d: Schema, names: seq<string>, table: seq<Row>, polls: seq<seq<Sample>>)
    : Option<(seq<Row>, seq<seq<Dispatch>>)>
    requires d.Valid() && d.names != [] && |names| == |d.names| && forall p :: p in polls ==> |p| == |d.names|
    decreases |polls|
  {
    if polls == [] then Some((table, []))
    else
      assert polls[0] in polls;
      match FetchAll(d, false, Session(0, 0, 0, table, []), NumbersFrom(Schema(names, d.types), polls[0], 0))
      case None => None
      case Some(s) =>
        match Polls(d, names, s.table, polls[1..])
        case None => None
        case Some((last, outs)) => Some((last, [s.out] + outs))
  }

  ghost predicate RegularRun(d: Schema, before: Option<seq<Sample>>, polls: seq<seq<Sample>>)
    decreases |polls|
  {
    polls == [] || (Regular(d, before, polls[0]) && RegularRun(d, Some(polls[0]), polls[1..]))
  }

  function ComputedPolls(d: Schema, before: Option<seq<Sample>>, polls: seq<seq<Sample>>): seq<seq<Dispatch>>
    requires d.Valid() && (forall p :: p in polls ==> |p| == |d.names|)
    requires before.Some? ==> |before.value| == |d.names|
    decreases |polls|
  {
    if polls == [] then []
    else
      assert polls[0] in polls;
      [ComputedFrom(d, before, polls[0], 0)] + ComputedPolls(d, Some(polls[0]), polls[1..])
  }

  /** What the polls call for, from the counts as reported. */
  function ExpectedPolls(d: Schema, before: Option<seq<Sample>>, polls: seq<seq<Sample>>): seq<seq<Dispatch>>
    requires d.Valid() && (forall p :: p in polls ==> |p| == |d.names|)
    requires before.Some? ==> |before.value| == |d.names|
    decreases |polls|
  {
    if polls == [] then []
    else
      assert polls[0] in polls;
      [ExpectedFrom(d, before, polls[0], 0)] + ExpectedPolls(d, Some(polls[0]), polls[1..])
  }

  /** One dispatch for each poll and counter, with the value computed for it. */
  lemma {:induction false} ComputedAt(d: Schema, before: Option<seq<Sample>>, polls: seq<seq<Sample>>, i: nat, k: nat)
    requires d.Valid() && (forall p :: p in polls ==> |p| == |d.names|)
    requires before.Some? ==> |before.value| == |d.names|
    requires i < |polls| && k < |d.names|
    ensures var outs := ComputedPolls(d, before, polls);
            && |outs| == |polls| && |outs[i]| == |d.names| && polls[i] in polls
            && (i > 0 ==> polls[i - 1] in polls)
            && outs[i][k] == Dispatch(d.types[k], d.names[k],
                                      Computed(d.types[k], LastSample(before, polls, i, k), polls[i][k]))
    decreases |polls|
  {
    assert polls[0] in polls;
    if i == 0 {
      ComputedFromAt(d, before, polls[0], 0, k);
    }
    if |polls| > 1 {
      ComputedAt(d, Some(polls[0]), polls[1..], if i == 0 then 0 else i - 1, k);
    }
  }

  /** What counter k reported in the poll before poll i. */
  function LastSample(before: Option<seq<Sample>>, polls: seq<seq<Sample>>, i: nat, k: nat): Option<Sample>
    requires i < |polls| && (before.Some? ==> k < |before.value|) && (i > 0 ==> k < |polls[i - 1]|)
  {
    if i > 0 then Some(polls[i - 1][k]) else if before.Some? then Some(before.value[k]) else None
  }

  lemma {:induction false} ComputedFromAt(d: Schema, before: Option<seq<Sample>>, now: seq<Sample>, k: nat, at: nat)
    requires d.Valid() && |now| == |d.names| && (before.Some? ==> |before.value| == |now|)
    requires k <= at < |now|
    ensures |ComputedFrom(d, before, now, k)| == |now| - k
    ensures ComputedFrom(d, before, now, k)[at - k] ==
            Dispatch(d.types[at], d.names[at],
                     Computed(d.types[at], if before.None? then None else Some(before.value[at]), now[at]))
    decreases |now| - k
  {
    if k < at {
      ComputedFromAt(d, before, now, k + 1, at);
    } else if k + 1 < |now| {
      ComputedFromAt(d, before, now, k + 1, k + 1);
    }
  }

  /** A whole poll from the table that the poll before left. */
  lemma OnePoll(d: Schema, before: Option<seq<Sample>>, now: seq<Sample>) returns (end: Session)
    requires Regular(d, before, now)
    ensures FetchAll(d, false, Session(0, 0, 0, OldRows(d, before, 0), []), NumbersFrom(d, now, 0)) == Some(end)
    ensures end.table == Rows(d, now, 0) && end.out == ComputedFrom(d, before, now, 0)
  {
    assert [] + OldRows(d, before, 0) == OldRows(d, before, 0);
    end := PollFrom(d, before, now, 0, 0, [], [], Session(0, 0, 0, OldRows(d, before, 0), []), NumbersFrom(d, now, 0));
    assert [] + Rows(d, now, 0) == Rows(d, now, 0);
    assert [] + ComputedFrom(d, before, now, 0) == ComputedFrom(d, before, now, 0);
  }

  /** Over any number of polls whose names the schema has kept whole. */
  lemma {:induction false} WholeNamesComputed(d: Schema, before: Option<seq<Sample>>, polls: seq<seq<Sample>>)
    requires d.Valid() && d.names != [] && forall p :: p in polls ==> |p| == |d.names|
    requires (before.Some? ==> |before.value| == |d.names|) && RegularRun(d, before, polls)
    ensures Polls(d, d.names, OldRows(d, before, 0), polls) ==
            Some((OldRows(d, if polls == [] then before else Some(polls[|polls| - 1]), 0),
                  ComputedPolls(d, before, polls)))
    decreases |polls|
  {
    if polls != [] {
      assert polls[0] in polls;
      var rest := polls[1..];
      var end := OnePoll(d, before, polls[0]);
      WholeNamesComputed(d, Some(polls[0]), rest);
      PollThenRest(d, OldRows(d, before, 0), polls, end, OldRows(d, if rest == [] then Some(polls[0]) else Some(rest[|rest| - 1]), 0),
                   ComputedPolls(d, Some(polls[0]), rest));
      assert rest != [] ==> rest[|rest| - 1] == polls[|polls| - 1];
    }
  }

  lemma PollThenRest(d: Schema, table: seq<Row>, polls: seq<seq<Sample>>, end: Session,
                     last: seq<Row>, outs: seq<seq<Dispatch>>)
    requires d.Valid() && d.names != [] && polls != [] && forall p :: p in polls ==> |p| == |d.names|
    requires FetchAll(d, false, Session(0, 0, 0, table, []), NumbersFrom(d, polls[0], 0)) == Some(end)
    requires Polls(d, d.names, end.table, polls[1..]) == Some((last, outs))
    ensures Polls(d, d.names, table, polls) == Some((last, [end.out] + outs))
  {
  }

  /** Over any number of polls of the same counters with non-decreasing sums: all go
      through if and only if no name has 127 characters; then the table keeps one row per
      latency counter for ever, and in every poll each counter is dispatched once, with
      the computed value. */
  lemma PollsComputed(d: Schema, names: seq<string>, before: Option<seq<Sample>>, polls: seq<seq<Sample>>)
    requires d.Valid() && d.names != [] && StoredFrom(d, names) && forall p :: p in polls ==> |p| == |d.names|
    requires (before.Some? ==> |before.value| == |d.names|) && RegularRun(d, before, polls)
    ensures var r := Polls(d, names, OldRows(d, before, 0), polls);
            && (r.Some? <==> polls == [] || AllShort(names))
            && (AllShort(names) ==>
                  r == Some((OldRows(d, if polls == [] then before else Some(polls[|polls| - 1]), 0),
                             ComputedPolls(d, before, polls))))
  {
    if AllShort(names) {
      ShortNamesAreStored(d, names);
      WholeNamesComputed(d, before, polls);
    } else if polls != [] {
      assert polls[0] in polls;
      var k :| 0 <= k < |names| && |names[k]| >= NAME_LEN - 1;
      LongNameAborts(d, names, false, Session(0, 0, 0, OldRows(d, before, 0), []), polls[0], k);
    }
  }

  // ------------------------------------------------------------ true latencies

  /** The counts of the latencies from the k-th counter on are reliable. */
  ghost predicate ReliableFrom(before: Option<seq<Sample>>, now: seq<Sample>, k: nat)
    requires before.Some? ==> |before.value| == |now|
  {
    before.Some? ==> forall i :: k <= i < |now| ==> CountsReliable(before.value[i], now[i])
  }

  /** In every poll, the counts since the poll before are reliable. */
  ghost predicate ReliableRun(before: Option<seq<Sample>>, polls: seq<seq<Sample>>, size: nat)
    requires (before.Some? ==> |before.value| == size) && forall p :: p in polls ==> |p| == size
    decreases |polls|
  {
    polls == [] ||
    (assert polls[0] in polls;
     ReliableFrom(before, polls[0], 0) && ReliableRun(Some(polls[0]), polls[1..], size))
  }

  lemma {:induction false} PollReliable(d: Schema, before: Option<seq<Sample>>, now: seq<Sample>, k: nat)
    requires d.Valid() && Matches(d, now) && k <= |now| && (before.Some? ==> Matches(d, before.value))
    ensures ComputedFrom(d, before, now, k) == ExpectedFrom(d, before, now, k) <==> ReliableFrom(before, now, k)
    decreases |now| - k
  {
    if k < |now| {
      PollReliable(d, before, now, k + 1);
      if before.Some? && now[k].Lat? {
        ComputedIsExpected(before.value[k], now[k]);
      }
      ConsEqual(ComputedFrom(d, before, now, k), ExpectedFrom(d, before, now, k));
    }
  }

  /** Sequences are equal if and only if they agree at the head and in the tail. */
  lemma ConsEqual<T>(a: seq<T>, b: seq<T>)
    requires a != [] && b != []
    ensures a == b <==> a[0] == b[0] && a[1..] == b[1..]
  {
    assert a == [a[0]] + a[1..] && b == [b[0]] + b[1..];
  }

  lemma {:induction false} RunReliable(d: Schema, before: Option<seq<Sample>>, polls: seq<seq<Sample>>)
    requires d.Valid() && d.names != [] && forall p :: p in polls ==> |p| == |d.names|
    requires (before.Some? ==> |before.value| == |d.names|) && RegularRun(d, before, polls)
    ensures ComputedPolls(d, before, polls) == ExpectedPolls(d, before, polls)
       <==> ReliableRun(before, polls, |d.names|)
    decreases |polls|
  {
    if polls != [] {
      assert polls[0] in polls;
      PollReliable(d, before, polls[0], 0);
      RunReliable(d, Some(polls[0]), polls[1..]);
      ConsEqual(ComputedPolls(d, before, polls), ExpectedPolls(d, before, polls));
    }
  }

  /** Over any number of polls of the same counters with non-decreasing sums, in the
      default mode: every poll goes through if and only if no name has 127 characters. Then
      the table keeps one row per latency counter for ever; and everything dispatched is
      right, a latency being (sum change) / (count change) since the poll before or NaN if
      the count did not grow, if and only if no latency leaves the count 0 between two
      polls, other than with an unchanged sum to a count of at least 2. */
  lemma AllPolls(d: Schema, names: seq<string>, before: Option<seq<Sample>>, polls: seq<seq<Sample>>)
    requires d.Valid() && d.names != [] && StoredFrom(d, names) && forall p :: p in polls ==> |p| == |d.names|
    requires (before.Some? ==> |before.value| == |d.names|) && RegularRun(d, before, polls)
    ensures var r := Polls(d, names, OldRows(d, before, 0), polls);
            && (r.Some? <==> polls == [] || AllShort(names))
            && (AllShort(names) ==>
                  && r.value.0 == OldRows(d, if polls == [] then before else Some(polls[|polls| - 1]), 0)
                  && (r.value.1 == ExpectedPolls(d, before, polls) <==> ReliableRun(before, polls, |d.names|)))
  {
    PollsComputed(d, names, before, polls);
    RunReliable(d, before, polls);
  }

  /** Five requests of 2.0 each, the first ones ever: 2.5 is dispatched. And the very
      first request of a counter is not reported at all. */
  lemma FirstRequests(name: string)
    ensures var d := Schema([name], [Latency]);
            && Polls(d, [name], [], [[Lat(0, 0.0, None)], [Lat(5, 10.0, None)]])
               == Some(([Row(name, 10.0, 5)],
                        [[Dispatch(Latency, name, Gauge(None))], [Dispatch(Latency, name, Gauge(Some(2.5)))]]))
            && Expected(Latency, Some(Lat(0, 0.0, None)), Lat(5, 10.0, None)) == Gauge(Some(2.0))
            && Computed(Latency, Some(Lat(0, 0.0, None)), Lat(1, 2.0, None)) == Gauge(None)
            && Expected(Latency, Some(Lat(0, 0.0, None)), Lat(1, 2.0, None)) == Gauge(Some(2.0))
  {
    var d := Schema([name], [Latency]);
    var first, second := [Lat(0, 0.0, None)], [Lat(5, 10.0, None)];
    var polls := [first, second];
    assert polls[1..] == [second] && polls[1..][1..] == [];
    assert RegularRun(d, Some(second), []);
    assert RegularRun(d, Some(first), polls[1..]);
    WholeNamesComputed(d, None, polls);
    OneCounter(d, None, first);
    OneCounter(d, Some(first), second);
    assert OldRows(d, None, 0) == [];
    assert Computed(Latency, Some(first[0]), second[0]) == Gauge(Some(10.0 / 4 as real)) == Gauge(Some(2.5));
    assert ComputedPolls(d, Some(second), []) == [];
    assert ComputedPolls(d, Some(first), [second]) == [ComputedFrom(d, Some(first), second, 0)] + [];
    assert ComputedPolls(d, None, polls) == [ComputedFrom(d, None, first, 0)] + [ComputedFrom(d, Some(first), second, 0)];
    var outs := [[Dispatch(Latency, name, Gauge(None))], [Dispatch(Latency, name, Gauge(Some(2.5)))]];
    assert ComputedPolls(d, None, polls)[0] == outs[0] && ComputedPolls(d, None, polls)[1] == outs[1];
    assert ComputedPolls(d, None, polls) == outs;
  }

  lemma OneCounter(d: Schema, before: Option<seq<Sample>>, now: seq<Sample>)
    requires d.Valid() && d.types == [Latency] && |now| == 1 && now[0].Lat? && (before.Some? ==> |before.value| == 1)
    ensures Rows(d, now, 0) == [Row(d.names[0], now[0].sum, AtLeastOne(now[0].count))]
    ensures ComputedFrom(d, before, now, 0) ==
            [Dispatch(Latency, d.names[0],
                      Computed(Latency, if before.None? then None else Some(before.value[0]), now[0]))]
  {
    assert Rows(d, now, 1) == [] && ComputedFrom(d, before, now, 1) == [];
  }

  // --------------------------------------------------------------- long running averages

  /** Wherever the index points: the type of a schema entry is found. */
  lemma TypeKnown(d: Schema, index: nat, k: nat)
    requires d.Valid() && Consistent(d) && k < |d.names|
    ensures GuessType(d, index, d.names[k]) == Some(d.types[k])
  {
    GuessIsSearch(d);
    SearchFindsFirst(d, k);
  }

  /** With LongRunAvgLatency, a latency is the daemon's own average, if it reports one. */
  function LongRunOf(typ: DsType, name: string, sample: Sample): seq<Dispatch> {
    match sample
    case Lat(_, _, None) => []
    case Lat(_, _, Some(average)) => [Dispatch(Latency, name, Gauge(Some(average)))]
    case Plain(val) => [Dispatch(typ, name, if typ == Rate then Derive(val.asUint) else Gauge(Some(val.asReal)))]
  }

  function LongRunSent(d: Schema, now: seq<Sample>, k: nat): seq<Dispatch>
    requires d.Valid() && |now| == |d.names| && k <= |now|
    decreases |now| - k
  {
    if k == |now| then [] else LongRunOf(d.types[k], d.names[k], now[k]) + LongRunSent(d, now, k + 1)
  }

  lemma LongRunStep(d: Schema, s: Session, now: seq<Sample>, k: nat) returns (s': Session)
    requires d.Valid() && Consistent(d) && Matches(d, now) && k < |now|
    ensures FetchAll(d, true, s, Numbers(d.names[k], now[k])) == Some(s')
    ensures s'.table == s.table && s'.out == s.out + LongRunOf(d.types[k], d.names[k], now[k])
  {
    var numbers := Numbers(d.names[k], now[k]);
    TypeKnown(d, s.index, k);
    if now[k].Plain? {
      s' := Fetch(d, true, s, d.names[k], NoSuffix, now[k].val).0;
      assert numbers[1..] == [];
    } else {
      s' := LongRunLatency(d, s, d.names[k], now[k]);
    }
  }

  lemma LongRunLatency(d: Schema, s: Session, name: string, sample: Sample) returns (s': Session)
    requires d.Valid() && d.names != [] && GuessType(d, s.index, name) == Some(Latency) && sample.Lat?
    ensures FetchAll(d, true, s, Numbers(name, sample)) == Some(s')
    ensures s'.table == s.table && s'.out == s.out + LongRunOf(Latency, name, sample)
  {
    var numbers := Numbers(name, sample);
    var s1 := s.(avgcount := sample.count);
    var s2 := s1.(avgcount := AtLeastOne(sample.count));
    var tail := numbers[1..];
    assert tail[0] == Number(name, Sum, Reading(0, sample.sum));
    assert FetchAll(d, true, s, numbers) == FetchAll(d, true, s1, tail) == FetchAll(d, true, s2, tail[1..]);
    if sample.avgtime.Some? {
      assert tail[1..] == [Number(name, AvgTime, Reading(0, sample.avgtime.value))];
      assert tail[1..][1..] == [];
      s' := Fetch(d, true, s2, name, AvgTime, Reading(0, sample.avgtime.value)).0;
    } else {
      s' := s2;
      assert tail[1..] == [] && s.out + [] == s.out;
    }
  }

  /** A poll with long running averages goes through, whatever the session's indices, if
      and only if no name has 127 characters; then it dispatches each counter that has a
      value once and in order, and leaves the latency table alone. */
  lemma LongRunPoll(d: Schema, names: seq<string>, s: Session, now: seq<Sample>)
    requires d.Valid() && d.names != [] && StoredFrom(d, names) && Consistent(d) && Matches(d, now)
    ensures var r := FetchAll(d, true, s, NumbersFrom(Schema(names, d.types), now, 0));
            && (r.Some? <==> AllShort(names))
            && (AllShort(names) ==> r.value.table == s.table && r.value.out == s.out + LongRunSent(d, now, 0))
  {
    if AllShort(names) {
      ShortNamesAreStored(d, names);
      var end := LongRunFrom(d, s, now, 0, NumbersFrom(d, now, 0));
    } else {
      var k :| 0 <= k < |names| && |names[k]| >= NAME_LEN - 1;
      LongNameAborts(d, names, true, s, now, k);
    }
  }

  lemma {:induction false} LongRunFrom(d: Schema, s: Session, now: seq<Sample>, k: nat, numbers: seq<Number>)
    returns (end: Session)
    requires d.Valid() && d.names != [] && Consistent(d) && Matches(d, now) && k <= |now|
    requires numbers == NumbersFrom(d, now, k)
    ensures FetchAll(d, true, s, numbers) == Some(end)
    ensures end.table == s.table && end.out == s.out + LongRunSent(d, now, k)
    decreases |now| - k
  {
    if k == |now| {
      end := s;
      LongRunDone(d, s, now);
    } else {
      var s', left := LongRunOne(d, s, now, k);
      end := LongRunFrom(d, s', now, k + 1, NumbersFrom(d, now, k + 1));
    }
  }

  lemma LongRunDone(d: Schema, s: Session, now: seq<Sample>)
    requires d.Valid() && d.names != [] && |now| == |d.names|
    ensures FetchAll(d, true, s, NumbersFrom(d, now, |now|)) == Some(s) && s.out + LongRunSent(d, now, |now|) == s.out
  {
    assert s.out + [] == s.out;
  }

  lemma LongRunOne(d: Schema, s: Session, now: seq<Sample>, k: nat) returns (s': Session, left: Option<Session>)
    requires d.Valid() && d.names != [] && Consistent(d) && Matches(d, now) && k < |now|
    ensures FetchAll(d, true, s, NumbersFrom(d, now, k)) == left
    ensures FetchAll(d, true, s', NumbersFrom(d, now, k + 1)) == left
    ensures s'.table == s.table && s'.out + LongRunSent(d, now, k + 1) == s.out + LongRunSent(d, now, k)
  {
    s' := LongRunStep(d, s, now, k);
    LongRunThenRest(d, s, s', now, k);
    left := FetchAll(d, true, s, NumbersFrom(d, now, k));
  }

  lemma LongRunThenRest(d: Schema, s: Session, s': Session, now: seq<Sample>, k: nat)
    requires d.Valid() && d.names != [] && |now| == |d.names| && k < |now|
    requires FetchAll(d, true, s, Numbers(d.names[k], now[k])) == Some(s')
    requires s'.out == s.out + LongRunOf(d.types[k], d.names[k], now[k])
    ensures FetchAll(d, true, s, NumbersFrom(d, now, k)) == FetchAll(d, true, s', NumbersFrom(d, now, k + 1))
    ensures s'.out + LongRunSent(d, now, k + 1) == s.out + LongRunSent(d, now, k)
  {
    ThenRest(d, true, s, s', Numbers(d.names[k], now[k]), NumbersFrom(d, now, k + 1));
    LongRunAppend(s.out, LongRunOf(d.types[k], d.names[k], now[k]), LongRunSent(d, now, k + 1));
  }

  lemma LongRunAppend(a: seq<Dispatch>, b: seq<Dispatch>, c: seq<Dispatch>)
    ensures (a + b) + c == a + (b + c)
  {
  }

  // ------------------------------------------------------------------ the procedures

  /** The part of struct ceph_daemon that polls read and change, and the struct
      values_tmp of the current poll. */
  class Daemon {
    var schema: Schema
    var table: seq<Row>
    var avgcount: nat
    var index: nat
    var latencyIndex: nat
    var out: seq<Dispatch>

    ghost function View(): Session
      reads this
    {
      Session(avgcount, index, latencyIndex, table, out)
    }

    constructor (schema: Schema)
      ensures this.schema == schema && View() == Session(0, 0, 0, [], [])
    {
      this.schema := schema;
      table := [];
      avgcount, index, latencyIndex, out := 0, 0, 0, [];
    }

    /** backup_search_for_type */
    method FindType(name: string) returns (typ: Option<DsType>)
      requires schema.Valid()
      ensures typ == SearchType(schema, name)
    {
      ghost var d := schema;
      var i := 0;
      while i < |schema.names|
        invariant i <= |schema.names|
        invariant SearchType(schema, name) == SearchType(Schema(schema.names[i..], schema.types[i..]), name)
      {
        if schema.names[i] == name {
          return Some(schema.types[i]);
        }
        assert schema.names[i..][1..] == schema.names[i + 1..] && schema.types[i..][1..] == schema.types[i + 1..];
        i := i + 1;
      }
      return None;
    }

    /** backup_search_for_last_avg */
    method FindRow(name: string) returns (at: Option<nat>)
      ensures at == SearchRow(table, name)
    {
      var i := 0;
      while i < |table|
        invariant i <= |table|
        invariant SearchRow(table, name) ==
                  match SearchRow(table[i..], name) case None => None case Some(k) => Some(k + i)
      {
        if table[i].name == name {
          return Some(i);
        }
        assert table[i..][1..] == table[i + 1..];
        i := i + 1;
      }
      return None;
    }

    /** update_last */
    method UpdateLast(name: string, at: nat, sum: real, count: nat)
      modifies this`table
      ensures table == Update(old(table), name, at, sum, count)
    {
      if |table| > at && table[at].name == name {
        table := table[at := table[at].(sum := sum, count := count)];
        return;
      }
      table := table + [Row(name, sum, count)];
    }

    /** get_last_avg */
    method LastAvg(name: string, index: nat, sum: real, count: nat) returns (result: Option<real>)
      requires RowFor(table, name, index).Some?
      modifies this`table
      ensures (result, table) == GetLastAvg(old(table), name, index, sum, count)
    {
      var value := NO_RESULT;
      var at := Some(0);
      if |table| > index {
        if table[index].name == name {
          at := Some(index);
        } else if index > 0 && table[index - 1].name == name {
          at := Some(index - 1);
        } else {
          at := FindRow(name);
        }
        if at.Some? && count > table[at.value].count {
          value := (sum - table[at.value].sum) / (count - table[at.value].count) as real;
        }
      }
      result := if value == NO_RESULT then None else Some(value);
      UpdateLast(name, at.value, sum, count);
    }

    /** node_handler_fetch_data, after parse_keys has given the name. */
    method FetchData(longRun: bool, name: string, suffix: Suffix, val: Reading) returns (code: int)
      requires schema.Valid() && schema.names != []
      requires Averages(schema, longRun, View(), name, suffix) ==> RowFor(table, name, latencyIndex).Some?
      modifies this`table, this`avgcount, this`index, this`latencyIndex, this`out
      ensures (View(), code) == Fetch(schema, longRun, old(View()), name, suffix, val)
    {
      var typ := TypeOf(name);
      var value;
      match typ {
        case None => return -1;
        case Some(Bytes) => value := Gauge(Some(val.asReal));
        case Some(Rate) => value := Derive(val.asUint);
        case Some(Latency) =>
          if suffix == AvgCount {
            avgcount := val.asUint;
            return 0;
          } else if suffix == Sum {
            if avgcount == 0 {
              avgcount := 1;
            }
            if longRun {
              return 0;
            }
            var result := LastAvg(name, latencyIndex, val.asReal, avgcount);
            if result == Some(-(ENOMEM as real)) {
              return -ENOMEM;
            }
            value := Gauge(result);
            latencyIndex := latencyIndex + 1;
          } else if suffix == AvgTime && longRun {
            value := Gauge(Some(val.asReal));
            latencyIndex := latencyIndex + 1;
          } else {
            return 0;
          }
      }
      out := out + [Dispatch(typ.value, name, value)];
      index := index + 1;
      return 0;
    }

    /** The type lookup of node_handler_fetch_data. */
    method TypeOf(name: string) returns (typ: Option<DsType>)
      requires schema.Valid() && schema.names != []
      ensures typ == GuessType(schema, index, name)
    {
      var i := index;
      if i >= |schema.names| {
        i := |schema.names| - 1;
      }
      typ := None;
      if name == schema.names[i] {
        typ := Some(schema.types[i]);
      } else if i > 0 && name == schema.names[i - 1] {
        typ := Some(schema.types[i - 1]);
      }
      if typ == None {
        typ := FindType(name);
      }
    }
  }
}
