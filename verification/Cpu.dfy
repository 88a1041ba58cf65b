/** The state table of src/cpu.c: rates per CPU and state, their aggregation with NaN as
    neutral element, and the percentages that are dispatched. Gauges are exact reals and
    NaN is None. */
module Cpu {
  import opened Common

  type Gauge = Option<real>

  const IDLE: nat := 10
  const ACTIVE: nat := 11
  const STATES: nat := 12

  /** value_to_rate_state_t: the last value and its time, if there was one. */
  datatype Conv = Conv(last: Option<(int, int)>)

  /** cpu_state_t */
  datatype CpuState = CpuState(conv: Conv, rate: Gauge, hasValue: bool)

  const ZERO: CpuState := CpuState(Conv(None), Some(0.0), false)

  /** value_to_rate: the new conversion state, and the rate or None on failure. */
  type Converter = (Conv, int, int) -> (Conv, Option<real>)

  // ------------------------------------------------------------------- RATE_ADD

  function RateAdd(sum: Gauge, val: Gauge): Gauge {
    match (sum, val)
    case (None, _) => val
    case (Some(_), None) => sum
    case (Some(a), Some(b)) => Some(a + b)
  }

  // ------------------------------------------------------------------ the table

  /** cpu_states and global_cpu_num. */
  datatype Table = Table(states: seq<CpuState>, cpus: nat) {
    /** Whole rows, and one for every CPU seen. */
    predicate Valid() {
      |states| % STATES == 0 && cpus * STATES <= |states|
    }

    function Cell(cpu: nat, state: nat): CpuState
      requires Valid() && cpu < cpus && state < STATES
    {
      InRow(cpu, cpus, state);
      states[cpu * STATES + state]
    }

    /** The value that takes part in the aggregation. */
    function Local(cpu: nat, state: nat): Gauge
      requires Valid() && cpu < cpus && state < STATES
    {
      if Cell(cpu, state).hasValue then Cell(cpu, state).rate else None
    }
  }

  lemma InRow(cpu: nat, cpus: nat, state: nat)
    requires cpu < cpus && state < STATES
    ensures cpu * STATES + state < cpus * STATES
  {
    assert (cpu + 1) * STATES <= cpus * STATES;
  }

  /** Sum over the states below `n` of one CPU, without the idle state. */
  function RowSum(t: Table, cpu: nat, n: nat): Gauge
    requires t.Valid() && cpu < t.cpus && n <= ACTIVE
  {
    if n == 0 then None
    else if n - 1 == IDLE then RowSum(t, cpu, n - 1)
    else RateAdd(RowSum(t, cpu, n - 1), t.Local(cpu, n - 1))
  }

  /** Sum over the CPUs below `n` of one state. */
  function ColumnSum(t: Table, state: nat, n: nat): Gauge
    requires t.Valid() && state < STATES && n <= t.cpus
  {
    if n == 0 then None else RateAdd(ColumnSum(t, state, n - 1), t.Local(n - 1, state))
  }

  /** The global active rate as the code sums it: CPU by CPU. */
  function ActiveByCpu(t: Table, n: nat): Gauge
    requires t.Valid() && n <= t.cpus
  {
    if n == 0 then None else RateAdd(ActiveByCpu(t, n - 1), RowSum(t, n - 1, ACTIVE))
  }

  /** The global active rate summed state by state. */
  function ActiveByState(t: Table, cpus: nat, n: nat): Gauge
    requires t.Valid() && cpus <= t.cpus && n <= ACTIVE
  {
    if n == 0 then None
    else if n - 1 == IDLE then ActiveByState(t, cpus, n - 1)
    else RateAdd(ActiveByState(t, cpus, n - 1), ColumnSum(t, n - 1, cpus))
  }

  lemma {:induction false} AddCpu(t: Table, cpus: nat, n: nat)
    requires t.Valid() && cpus < t.cpus && n <= ACTIVE
    ensures ActiveByState(t, cpus + 1, n) == RateAdd(ActiveByState(t, cpus, n), RowSum(t, cpus, n))
  {
    if n > 0 {
      AddCpu(t, cpus, n - 1);
      if n - 1 != IDLE {
        Shuffle(ActiveByState(t, cpus, n - 1), RowSum(t, cpus, n - 1),
                ColumnSum(t, n - 1, cpus), t.Local(cpus, n - 1));
      }
    }
  }

  lemma Shuffle(a: Gauge, b: Gauge, c: Gauge, d: Gauge)
    ensures RateAdd(RateAdd(a, b), RateAdd(c, d)) == RateAdd(RateAdd(a, c), RateAdd(b, d))
  {
  }

  lemma {:induction false} NoCpus(t: Table, n: nat)
    requires t.Valid() && n <= ACTIVE
    ensures ActiveByState(t, 0, n) == None
  {
    if n > 0 {
      NoCpus(t, n - 1);
    }
  }

  /** Sum exchange: the global active rate is the sum of the global non-idle rates,
      whatever values are missing. */
  lemma {:induction false} ActiveIsNonIdle(t: Table, n: nat)
    requires t.Valid() && n <= t.cpus
    ensures ActiveByCpu(t, n) == ActiveByState(t, n, ACTIVE)
  {
    if n == 0 {
      NoCpus(t, ACTIVE);
    } else {
      ActiveIsNonIdle(t, n - 1);
      AddCpu(t, n - 1, ACTIVE);
    }
  }

  // ---------------------------------------------------------------- percentages

  /** A dispatched percentage in IEEE terms: NaN is not submitted. */
  datatype Percent = NaN | Finite(value: real) | Infinite

  function PercentOf(rate: Gauge, sum: Gauge): Percent {
    if rate.None? || sum.None? then NaN
    else if sum.value != 0.0 then Finite(100.0 * rate.value / sum.value)
    else if rate.value == 0.0 then NaN
    else Infinite
  }

  /** The rates of one line: one CPU, or the global aggregation. */
  type Line = s: seq<Gauge> | |s| == STATES witness seq(STATES, _ => None)

  function Total(line: Line): Gauge {
    RateAdd(line[ACTIVE], line[IDLE])
  }

  /** Sum of the non-idle rates below state n. */
  function NonIdle(line: Line, n: nat): Gauge
    requires n <= ACTIVE
  {
    if n == 0 then None
    else if n - 1 == IDLE then NonIdle(line, n - 1)
    else RateAdd(NonIdle(line, n - 1), line[n - 1])
  }

  /** A line whose active rate is the sum of its other non-idle rates. */
  predicate Balanced(line: Line) {
    line[ACTIVE] == NonIdle(line, ACTIVE)
  }

  /** Sum of the submitted percentages of the states below n. */
  function PercentSum(line: Line, n: nat): real
    requires n <= ACTIVE
  {
    if n == 0 then 0.0
    else
      PercentSum(line, n - 1) +
      match PercentOf(line[n - 1], Total(line))
      case Finite(value) => value
      case _ => 0.0
  }

  function OrZero(g: Gauge): real {
    match g case None => 0.0 case Some(x) => x
  }

  lemma Share(a: real, b: real, total: real)
    requires total != 0.0
    ensures 100.0 * (a + b) / total == 100.0 * a / total + 100.0 * b / total
  {
  }

  lemma Whole(total: real)
    requires total != 0.0
    ensures 100.0 * total / total == 100.0
  {
  }

  lemma {:induction false} PercentSumIs(line: Line, total: real, n: nat)
    requires Total(line) == Some(total) && total != 0.0 && n <= ACTIVE
    ensures PercentSum(line, n) ==
            100.0 * (OrZero(NonIdle(line, n)) + (if n > IDLE then OrZero(line[IDLE]) else 0.0)) / total
  {
    if n > 0 {
      PercentSumIs(line, total, n - 1);
      Share(OrZero(NonIdle(line, n - 1)), OrZero(line[n - 1]), total);
    }
  }

  /** The percentages by state of a balanced line add up to 100 whenever its total is
      neither missing nor zero. */
  lemma PercentsAddUp(line: Line)
    requires Balanced(line) && Total(line).Some? && Total(line).value != 0.0
    ensures PercentSum(line, ACTIVE) == 100.0
  {
    var total := Total(line).value;
    PercentSumIs(line, total, ACTIVE);
    assert total == OrZero(line[ACTIVE]) + OrZero(line[IDLE]);
    Whole(total);
  }

  /** local_rates of one CPU after the aggregation. */
  function CpuLine(t: Table, cpu: nat): Line
    requires t.Valid() && cpu < t.cpus
  {
    var line: seq<Gauge> := seq(STATES, s requires 0 <= s < STATES => t.Local(cpu, s));
    line
  }

  /** global_rates after n CPUs. */
  function GlobalTo(t: Table, n: nat): Line
    requires t.Valid() && n <= t.cpus
  {
    var line: seq<Gauge> := seq(STATES, s requires 0 <= s < STATES =>
      if s == ACTIVE then ActiveByCpu(t, n) else ColumnSum(t, s, n));
    line
  }

  /** global_rates after the aggregation. */
  function GlobalLine(t: Table): Line
    requires t.Valid()
  {
    GlobalTo(t, t.cpus)
  }

  /** The active cells as aggregate leaves them: recomputed, and marked when not NaN. */
  predicate ActiveSet(t: Table)
    requires t.Valid()
  {
    forall cpu :: 0 <= cpu < t.cpus ==> t.Local(cpu, ACTIVE) == RowSum(t, cpu, ACTIVE)
  }

  lemma {:induction false} CpuLineNonIdle(t: Table, cpu: nat, n: nat)
    requires t.Valid() && cpu < t.cpus && n <= ACTIVE
    ensures NonIdle(CpuLine(t, cpu), n) == RowSum(t, cpu, n)
  {
    if n > 0 {
      CpuLineNonIdle(t, cpu, n - 1);
    }
  }

  lemma {:induction false} GlobalLineNonIdle(t: Table, n: nat)
    requires t.Valid() && n <= ACTIVE
    ensures NonIdle(GlobalLine(t), n) == ActiveByState(t, t.cpus, n)
  {
    if n > 0 {
      GlobalLineNonIdle(t, n - 1);
    }
  }

  /** Every line that is dispatched, global or of one CPU, is balanced, so its
      percentages add up. */
  lemma LinesBalanced(t: Table)
    requires t.Valid() && ActiveSet(t)
    ensures Balanced(GlobalLine(t))
    ensures forall cpu :: 0 <= cpu < t.cpus ==> Balanced(CpuLine(t, cpu))
  {
    GlobalLineNonIdle(t, ACTIVE);
    ActiveIsNonIdle(t, t.cpus);
    forall cpu | 0 <= cpu < t.cpus ensures Balanced(CpuLine(t, cpu)) {
      CpuLineNonIdle(t, cpu, ACTIVE);
    }
  }

  // ------------------------------------------------------------- staging a value

  function Zeros(n: nat): (r: seq<CpuState>)
    ensures |r| == n && forall i :: 0 <= i < n ==> r[i] == ZERO
  {
    seq(n, _ => ZERO)
  }

  /** cpu_states_alloc: grow to cover a CPU, keeping every cell. */
  function Grown(states: seq<CpuState>, cpu: nat): seq<CpuState> {
    var size := (cpu + 1) * STATES;
    if |states| >= size then states else states + Zeros(size - |states|)
  }

  const EINVAL: int := 22

  /** cpu_stage: the new table, and whether the value was rejected. */
  function Stage(t: Table, convert: Converter, cpu: nat, state: nat, value: int, now: int): (r: Table)
    requires t.Valid()
    ensures r.Valid()
  {
    if state >= ACTIVE then t
    else
      var states := Grown(t.states, cpu);
      var cpus := if t.cpus <= cpu then cpu + 1 else t.cpus;
      InRow(cpu, cpu + 1, state);
      var at := cpu * STATES + state;
      var (conv, rate) := convert(states[at].conv, value, now);
      var cell := match rate
                  case None => states[at].(conv := conv)
                  case Some(x) => CpuState(conv, Some(x), true);
      Table(states[at := cell], cpus)
  }

  /** cpu_reset */
  function Reset(t: Table): (r: Table)
    requires t.Valid()
    ensures r.Valid()
  {
    Table(seq(|t.states|, i requires 0 <= i < |t.states| => t.states[i].(hasValue := false)), 0)
  }

  /** aggregate's effect on the table after the first n CPUs. */
  function AggregatedTo(t: Table, n: nat): (r: Table)
    requires t.Valid() && n <= t.cpus
    ensures |r.states| == |t.states| && r.cpus == t.cpus && r.Valid()
  {
    Table(seq(|t.states|, i requires 0 <= i < |t.states| =>
                if i % STATES == ACTIVE && i / STATES < n
                then WithActive(t.states[i], RowSum(t, i / STATES, ACTIVE)) else t.states[i]),
          t.cpus)
  }

  function Aggregated(t: Table): (r: Table)
    requires t.Valid()
    ensures |r.states| == |t.states| && r.cpus == t.cpus && r.Valid()
  {
    AggregatedTo(t, t.cpus)
  }

  function WithActive(s: CpuState, sum: Gauge): CpuState {
    CpuState(s.conv, sum, s.hasValue || sum.Some?)
  }

  lemma AggregatedCell(t: Table, n: nat, cpu: nat, state: nat)
    requires t.Valid() && n <= t.cpus && cpu < t.cpus && state < STATES
    ensures AggregatedTo(t, n).Cell(cpu, state) ==
            if state == ACTIVE && cpu < n then WithActive(t.Cell(cpu, state), RowSum(t, cpu, ACTIVE))
            else t.Cell(cpu, state)
  {
    InRow(cpu, t.cpus, state);
    assert (cpu * STATES + state) % STATES == state && (cpu * STATES + state) / STATES == cpu;
  }

  lemma {:induction false} AggregatedRowSum(t: Table, n: nat, cpu: nat, k: nat)
    requires t.Valid() && n <= t.cpus && cpu < t.cpus && k <= ACTIVE
    ensures RowSum(AggregatedTo(t, n), cpu, k) == RowSum(t, cpu, k)
  {
    if k > 0 {
      AggregatedRowSum(t, n, cpu, k - 1);
      AggregatedCell(t, n, cpu, k - 1);
    }
  }

  lemma AggregatedActiveSet(t: Table)
    requires t.Valid()
    ensures ActiveSet(Aggregated(t))
  {
    forall cpu | 0 <= cpu < t.cpus
      ensures Aggregated(t).Local(cpu, ACTIVE) == RowSum(Aggregated(t), cpu, ACTIVE)
    {
      AggregatedCell(t, t.cpus, cpu, ACTIVE);
      AggregatedRowSum(t, t.cpus, cpu, ACTIVE);
    }
  }

  // ---------------------------------------------------------------- whole runs

  datatype Op = Staged(cpu: nat, state: nat, value: int, now: int) | Committed | WasReset

  function Next(t: Table, convert: Converter, op: Op): (r: Table)
    requires t.Valid()
    ensures r.Valid()
  {
    match op
    case Staged(cpu, state, value, now) => Stage(t, convert, cpu, state, value, now)
    case Committed => Aggregated(t)
    case WasReset => Reset(t)
  }

  /** The table after a run from the empty one. */
  function Run(convert: Converter, ops: seq<Op>): (r: Table)
    ensures r.Valid()
  {
    if ops == [] then Table([], 0) else Next(Run(convert, ops[..|ops| - 1]), convert, ops[|ops| - 1])
  }

  /** The conversion state that the values staged for one CPU and state lead to. */
  function History(convert: Converter, ops: seq<Op>, cpu: nat, state: nat): Conv {
    if ops == [] then Conv(None)
    else
      var before := History(convert, ops[..|ops| - 1], cpu, state);
      match ops[|ops| - 1]
      case Staged(c, s, value, now) =>
        if c == cpu && s == state then convert(before, value, now).0 else before
      case _ => before
  }

  /** The conversion state of a cell; a cell that is not allocated has the initial one. */
  function ConvOf(t: Table, cpu: nat, state: nat): Conv {
    var at := cpu * STATES + state;
    if at < |t.states| then t.states[at].conv else Conv(None)
  }

  lemma StageConv(t: Table, convert: Converter, c: nat, s: nat, value: int, now: int, cpu: nat, state: nat)
    requires t.Valid() && state < ACTIVE
    ensures ConvOf(Stage(t, convert, c, s, value, now), cpu, state) ==
            if c == cpu && s == state then convert(ConvOf(t, cpu, state), value, now).0 else ConvOf(t, cpu, state)
  {
    if s < ACTIVE {
      CellsDiffer(c, s, cpu, state);
      InRow(c, c + 1, s);
    }
  }

  /** For every run: the conversion state of a CPU and state is the whole history of the
      values staged for it, however often the table has grown and been aggregated or
      reset. */
  lemma {:induction false} HistoryKept(convert: Converter, ops: seq<Op>, cpu: nat, state: nat)
    requires state < ACTIVE
    ensures ConvOf(Run(convert, ops), cpu, state) == History(convert, ops, cpu, state)
  {
    if ops != [] {
      var t := Run(convert, ops[..|ops| - 1]);
      HistoryKept(convert, ops[..|ops| - 1], cpu, state);
      match ops[|ops| - 1]
      case Staged(c, s, value, now) => StageConv(t, convert, c, s, value, now, cpu, state);
      case _ =>
    }
  }

  /** The rate that a cell has for the aggregation; none if it is not allocated. */
  function RateOf(t: Table, cpu: nat, state: nat): Gauge {
    var at := cpu * STATES + state;
    if at < |t.states| && t.states[at].hasValue then t.states[at].rate else None
  }

  /** The rate of the last value staged since the reset, values that could not be
      converted aside. */
  function LastRate(convert: Converter, ops: seq<Op>, cpu: nat, state: nat): Gauge {
    if ops == [] then None
    else
      var init := ops[..|ops| - 1];
      match ops[|ops| - 1]
      case WasReset => None
      case Committed => LastRate(convert, init, cpu, state)
      case Staged(c, s, value, now) =>
        var rate := convert(History(convert, init, cpu, state), value, now).1;
        if c == cpu && s == state && rate.Some? then rate else LastRate(convert, init, cpu, state)
  }

  /** The number of CPUs up to the last one with a value staged since the reset. */
  function Seen(ops: seq<Op>): nat {
    if ops == [] then 0
    else
      var before := Seen(ops[..|ops| - 1]);
      match ops[|ops| - 1]
      case WasReset => 0
      case Committed => before
      case Staged(c, s, _, _) => if s < ACTIVE && before < c + 1 then c + 1 else before
  }

  lemma StageRate(t: Table, convert: Converter, c: nat, s: nat, value: int, now: int, cpu: nat, state: nat)
    requires t.Valid() && state < ACTIVE
    ensures var rate := convert(ConvOf(t, cpu, state), value, now).1;
            RateOf(Stage(t, convert, c, s, value, now), cpu, state) ==
            if c == cpu && s == state && rate.Some? then rate else RateOf(t, cpu, state)
  {
    if s < ACTIVE {
      CellsDiffer(c, s, cpu, state);
      InRow(c, c + 1, s);
    }
  }

  lemma NextRate(t: Table, convert: Converter, op: Op, cpu: nat, state: nat)
    requires t.Valid() && state < ACTIVE
    ensures RateOf(Next(t, convert, op), cpu, state) ==
            match op
            case WasReset => None
            case Committed => RateOf(t, cpu, state)
            case Staged(c, s, value, now) =>
              var rate := convert(ConvOf(t, cpu, state), value, now).1;
              if c == cpu && s == state && rate.Some? then rate else RateOf(t, cpu, state)
  {
    match op
    case Staged(c, s, value, now) => StageRate(t, convert, c, s, value, now, cpu, state);
    case _ =>
  }

  lemma LocalIsRate(t: Table, cpu: nat, state: nat)
    requires t.Valid() && state < ACTIVE
    ensures cpu < t.cpus ==> t.Local(cpu, state) == RateOf(t, cpu, state)
  {
    if cpu < t.cpus {
      InRow(cpu, t.cpus, state);
    }
  }

  /** For every run: the rates that an aggregation finds are those of the values last
      staged since the reset, for the CPUs seen since then. */
  lemma {:induction false} RatesKept(convert: Converter, ops: seq<Op>, cpu: nat, state: nat)
    requires state < ACTIVE
    ensures var t := Run(convert, ops);
            && t.cpus == Seen(ops)
            && RateOf(t, cpu, state) == LastRate(convert, ops, cpu, state)
            && (cpu < t.cpus ==> t.Local(cpu, state) == LastRate(convert, ops, cpu, state))
  {
    if ops != [] {
      var init := ops[..|ops| - 1];
      RatesKept(convert, init, cpu, state);
      HistoryKept(convert, init, cpu, state);
      NextRate(Run(convert, init), convert, ops[|ops| - 1], cpu, state);
    }
    LocalIsRate(Run(convert, ops), cpu, state);
  }

  lemma CellsDiffer(c: nat, s: nat, cpu: nat, state: nat)
    requires s < STATES && state < STATES
    ensures c * STATES + s == cpu * STATES + state <==> c == cpu && s == state
  {
    if c < cpu {
      assert (c + 1) * STATES <= cpu * STATES;
    } else if cpu < c {
      assert (cpu + 1) * STATES <= c * STATES;
    }
  }

  lemma AggregatedNext(t: Table, cpu: nat)
    requires t.Valid() && cpu < t.cpus
    ensures cpu * STATES + ACTIVE < |t.states|
    ensures AggregatedTo(t, cpu + 1).states ==
            AggregatedTo(t, cpu).states[cpu * STATES + ACTIVE :=
              WithActive(AggregatedTo(t, cpu).states[cpu * STATES + ACTIVE], RowSum(t, cpu, ACTIVE))]
  {
    InRow(cpu, t.cpus, ACTIVE);
    forall i | 0 <= i < |t.states|
      ensures i % STATES == ACTIVE && i / STATES == cpu <==> i == cpu * STATES + ACTIVE
    {
    }
  }

  lemma AggregatedNone(t: Table)
    requires t.Valid()
    ensures AggregatedTo(t, 0) == t
  {
    assert AggregatedTo(t, 0).states == t.states;
  }

  /** When its turn comes, a CPU's row is as it was in the beginning. */
  lemma RowUntouched(t: Table, cpu: nat)
    requires t.Valid() && cpu < t.cpus
    ensures RowSum(AggregatedTo(t, cpu), cpu, ACTIVE) == RowSum(t, cpu, ACTIVE)
    ensures forall s :: 0 <= s < ACTIVE ==> AggregatedTo(t, cpu).Local(cpu, s) == t.Local(cpu, s)
  {
    AggregatedRowSum(t, cpu, cpu, ACTIVE);
    forall s | 0 <= s < ACTIVE ensures AggregatedTo(t, cpu).Local(cpu, s) == t.Local(cpu, s) {
      AggregatedCell(t, cpu, cpu, s);
    }
  }

  /** One more CPU in the global rates. */
  lemma GlobalNext(t: Table, cpu: nat, before: seq<Gauge>, after: seq<Gauge>)
    requires t.Valid() && cpu < t.cpus && |after| == STATES && before == GlobalTo(t, cpu)
    requires forall s :: 0 <= s < ACTIVE ==> after[s] == RateAdd(before[s], AggregatedTo(t, cpu).Local(cpu, s))
    requires after[ACTIVE] == RateAdd(before[ACTIVE], RowSum(AggregatedTo(t, cpu), cpu, ACTIVE))
    ensures after == GlobalTo(t, cpu + 1)
  {
    RowUntouched(t, cpu);
    forall s | 0 <= s < STATES ensures after[s] == GlobalTo(t, cpu + 1)[s] {
      if s == ACTIVE {
        assert GlobalTo(t, cpu)[ACTIVE] == ActiveByCpu(t, cpu);
        assert ActiveByCpu(t, cpu + 1) == RateAdd(ActiveByCpu(t, cpu), RowSum(t, cpu, ACTIVE));
        assert after[s] == ActiveByCpu(t, cpu + 1);
      } else {
        assert GlobalTo(t, cpu)[s] == ColumnSum(t, s, cpu);
        assert after[s] == RateAdd(before[s], t.Local(cpu, s));
        assert after[s] == ColumnSum(t, s, cpu + 1);
      }
    }
  }

  // ---------------------------------------------------------------- the procedures

  /** A dispatched percentage: the CPU (-1 for the global line), the state, the value. */
  datatype Submission = Submission(cpu: int, state: nat, value: Percent)

  /** What cpu_commit_one submits for a line by state, in order. */
  function Submitted(cpu: int, line: Line, n: nat): seq<Submission>
    requires n <= ACTIVE
  {
    if n == 0 then []
    else
      var value := PercentOf(line[n - 1], Total(line));
      Submitted(cpu, line, n - 1) + (if value.NaN? then [] else [Submission(cpu, n - 1, value)])
  }

  /** The dispatches of cpu_commit by state and in percent. */
  function CommittedTo(t: Table, n: nat): seq<Submission>
    requires t.Valid() && n <= t.cpus
  {
    if n == 0 then [] else CommittedTo(t, n - 1) + Submitted(n - 1, CpuLine(t, n - 1), ACTIVE)
  }

  // ------------------------------------------------------- what a commit reports

  /** What cpu_commit dispatches, from the table before its aggregation. */
  function Dispatched(t: Table, byCpu: bool): seq<Submission>
    requires t.Valid()
  {
    if byCpu then CommittedTo(Aggregated(t), t.cpus) else Submitted(-1, GlobalLine(t), ACTIVE)
  }

  /** The rates of one state on the CPUs from lo up to hi. */
  function Column(t: Table, lo: nat, hi: nat, state: nat): (r: seq<Gauge>)
    requires t.Valid() && lo <= hi <= t.cpus && state < STATES
    ensures |r| == hi - lo && forall i :: 0 <= i < |r| ==> r[i] == t.Local(lo + i, state)
  {
    seq(hi - lo, i requires 0 <= i < hi - lo => t.Local(lo + i, state))
  }

  predicate Present(rates: seq<Gauge>) {
    exists i :: 0 <= i < |rates| && rates[i].Some?
  }

  function SumOf(rates: seq<Gauge>): real {
    if rates == [] then 0.0 else SumOf(rates[..|rates| - 1]) + OrZero(rates[|rates| - 1])
  }

  /** All rates on these CPUs, of the states below n: idle or not, and nothing twice. */
  function WholeTo(t: Table, lo: nat, hi: nat, n: nat): real
    requires t.Valid() && lo <= hi <= t.cpus && n <= ACTIVE
  {
    if n == 0 then 0.0 else WholeTo(t, lo, hi, n - 1) + SumOf(Column(t, lo, hi, n - 1))
  }

  predicate Labelled(s: Submission, cpu: int, state: nat) {
    s.cpu == cpu && s.state == state
  }

  /** The state's share in all rates of these CPUs is submitted under this label; nothing
      is if the state has no rate there, or is 0 out of 0. */
  ghost predicate Reported(out: seq<Submission>, cpu: int, state: nat, t: Table, lo: nat, hi: nat)
    requires t.Valid() && lo <= hi <= t.cpus && state < ACTIVE
  {
    var own, whole := SumOf(Column(t, lo, hi, state)), WholeTo(t, lo, hi, ACTIVE);
    if !Present(Column(t, lo, hi, state)) || (whole == 0.0 && own == 0.0) then
      forall i :: 0 <= i < |out| ==> !Labelled(out[i], cpu, state)
    else
      exists i :: 0 <= i < |out| && Labelled(out[i], cpu, state)
                  && out[i].value == if whole == 0.0 then Infinite else Finite(100.0 * own / whole)
  }

  /** A CPU's own share. */
  ghost predicate ReportedOf(out: seq<Submission>, cpu: nat, state: nat, t: Table)
    requires t.Valid() && cpu < t.cpus && state < ACTIVE
  {
    Reported(out, cpu, state, t, cpu, cpu + 1)
  }

  /** By CPU and state, so that no label comes twice. */
  ghost predicate Ordered(out: seq<Submission>) {
    forall i, j :: 0 <= i < j < |out| ==>
      out[i].cpu < out[j].cpu || (out[i].cpu == out[j].cpu && out[i].state < out[j].state)
  }

  /** Every CPU's own shares, or those in the sums over all CPUs; and nothing else. */
  ghost predicate Reports(out: seq<Submission>, t: Table, byCpu: bool)
    requires t.Valid()
  {
    && Ordered(out)
    && (forall i :: 0 <= i < |out| ==>
          out[i].state < ACTIVE && if byCpu then 0 <= out[i].cpu < t.cpus else out[i].cpu == -1)
    && (if byCpu then forall cpu: nat, state: nat :: cpu < t.cpus && state < ACTIVE ==>
                        ReportedOf(out, cpu, state, t)
        else forall state: nat :: state < ACTIVE ==> Reported(out, -1, state, t, 0, t.cpus))
  }

  /** A gauge is the sum of these rates, and none if there are none. */
  predicate Sums(g: Gauge, rates: seq<Gauge>) {
    (g.Some? <==> Present(rates)) && OrZero(g) == SumOf(rates)
  }

  lemma {:induction false} ColumnSums(t: Table, state: nat, n: nat)
    requires t.Valid() && state < STATES && n <= t.cpus
    ensures Sums(ColumnSum(t, state, n), Column(t, 0, n, state))
  {
    var rates := Column(t, 0, n, state);
    if n > 0 {
      ColumnSums(t, state, n - 1);
      assert rates[..n - 1] == Column(t, 0, n - 1, state);
      assert Present(rates) <==> Present(rates[..n - 1]) || rates[n - 1].Some?;
    }
  }

  lemma OneRate(t: Table, cpu: nat, state: nat)
    requires t.Valid() && cpu < t.cpus && state < STATES
    ensures Sums(t.Local(cpu, state), Column(t, cpu, cpu + 1, state))
  {
    var rates := Column(t, cpu, cpu + 1, state);
    assert rates[..0] == [] && rates[0] == t.Local(cpu, state);
  }

  /** A balanced line of such sums: its total is the sum of everything. */
  ghost predicate LineOf(line: Line, t: Table, lo: nat, hi: nat)
    requires t.Valid() && lo <= hi <= t.cpus
  {
    Balanced(line) && forall s :: 0 <= s < ACTIVE ==> Sums(line[s], Column(t, lo, hi, s))
  }

  lemma {:induction false} NonIdleIsWhole(line: Line, t: Table, lo: nat, hi: nat, n: nat)
    requires t.Valid() && lo <= hi <= t.cpus && n <= ACTIVE && LineOf(line, t, lo, hi)
    ensures OrZero(NonIdle(line, n)) + (if n > IDLE then OrZero(line[IDLE]) else 0.0) == WholeTo(t, lo, hi, n)
    ensures NonIdle(line, n).Some? <==> exists s :: 0 <= s < n && s != IDLE && line[s].Some?
  {
    if n > 0 {
      NonIdleIsWhole(line, t, lo, hi, n - 1);
      assert Sums(line[n - 1], Column(t, lo, hi, n - 1));
    }
  }

  lemma TotalIsWhole(line: Line, t: Table, lo: nat, hi: nat)
    requires t.Valid() && lo <= hi <= t.cpus && LineOf(line, t, lo, hi)
    ensures OrZero(Total(line)) == WholeTo(t, lo, hi, ACTIVE)
    ensures forall s :: 0 <= s < ACTIVE && line[s].Some? ==> Total(line).Some?
  {
    NonIdleIsWhole(line, t, lo, hi, ACTIVE);
  }

  lemma {:induction false} SubmittedAt(cpu: int, line: Line, n: nat, state: nat)
    requires n <= ACTIVE && state < n
    ensures var out, value := Submitted(cpu, line, n), PercentOf(line[state], Total(line));
            if value.NaN? then forall i :: 0 <= i < |out| ==> !Labelled(out[i], cpu, state)
            else Submission(cpu, state, value) in out
  {
    SubmittedLabels(cpu, line, n - 1);
    if state < n - 1 {
      SubmittedAt(cpu, line, n - 1, state);
    }
  }

  lemma {:induction false} SubmittedLabels(cpu: int, line: Line, n: nat)
    requires n <= ACTIVE
    ensures var out := Submitted(cpu, line, n);
            Ordered(out) && forall i :: 0 <= i < |out| ==> out[i].cpu == cpu && out[i].state < n
  {
    if n > 0 {
      SubmittedLabels(cpu, line, n - 1);
    }
  }

  lemma LineReported(cpu: int, line: Line, t: Table, lo: nat, hi: nat, state: nat)
    requires t.Valid() && lo <= hi <= t.cpus && LineOf(line, t, lo, hi) && state < ACTIVE
    ensures Reported(Submitted(cpu, line, ACTIVE), cpu, state, t, lo, hi)
  {
    TotalIsWhole(line, t, lo, hi);
    SubmittedAt(cpu, line, ACTIVE, state);
    assert Sums(line[state], Column(t, lo, hi, state));
    var out, value := Submitted(cpu, line, ACTIVE), PercentOf(line[state], Total(line));
    if !value.NaN? {
      var i :| 0 <= i < |out| && out[i] == Submission(cpu, state, value);
    }
  }

  lemma GlobalIsLine(t: Table)
    requires t.Valid()
    ensures LineOf(GlobalLine(t), t, 0, t.cpus)
  {
    GlobalLineNonIdle(t, ACTIVE);
    ActiveIsNonIdle(t, t.cpus);
    forall s | 0 <= s < ACTIVE ensures Sums(GlobalLine(t)[s], Column(t, 0, t.cpus, s)) {
      ColumnSums(t, s, t.cpus);
    }
  }

  lemma CpuIsLine(t: Table, cpu: nat)
    requires t.Valid() && cpu < t.cpus
    ensures LineOf(CpuLine(Aggregated(t), cpu), t, cpu, cpu + 1)
  {
    AggregatedActiveSet(t);
    LinesBalanced(Aggregated(t));
    forall s | 0 <= s < ACTIVE ensures Sums(CpuLine(Aggregated(t), cpu)[s], Column(t, cpu, cpu + 1, s)) {
      AggregatedCell(t, t.cpus, cpu, s);
      OneRate(t, cpu, s);
    }
  }

  lemma {:induction false} CommittedLabels(t: Table, n: nat)
    requires t.Valid() && n <= t.cpus
    ensures var out := CommittedTo(t, n);
            Ordered(out) && forall i :: 0 <= i < |out| ==> 0 <= out[i].cpu < n && out[i].state < ACTIVE
  {
    if n > 0 {
      CommittedLabels(t, n - 1);
      SubmittedLabels(n - 1, CpuLine(t, n - 1), ACTIVE);
    }
  }

  /** A CPU's submissions, and those of the CPUs before and after it. */
  lemma {:induction false} CommittedSplit(t: Table, n: nat, cpu: nat) returns (a: seq<Submission>, b: seq<Submission>)
    requires t.Valid() && cpu < n <= t.cpus
    ensures CommittedTo(t, n) == a + (Submitted(cpu, CpuLine(t, cpu), ACTIVE) + b)
    ensures forall i :: 0 <= i < |a| ==> a[i].cpu != cpu
    ensures forall i :: 0 <= i < |b| ==> b[i].cpu != cpu
  {
    var last := Submitted(n - 1, CpuLine(t, n - 1), ACTIVE);
    if cpu == n - 1 {
      a, b := CommittedTo(t, n - 1), [];
      CommittedLabels(t, n - 1);
      assert last + b == last;
    } else {
      a, b := CommittedSplit(t, n - 1, cpu);
      SubmittedLabels(n - 1, CpuLine(t, n - 1), ACTIVE);
      var own := Submitted(cpu, CpuLine(t, cpu), ACTIVE);
      assert a + (own + b) + last == a + (own + (b + last));
      b := b + last;
    }
  }

  lemma CommittedReported(t: Table, cpu: nat, state: nat)
    requires t.Valid() && cpu < t.cpus && state < ACTIVE
    ensures ReportedOf(Dispatched(t, true), cpu, state, t)
  {
    var a, b := CommittedSplit(Aggregated(t), t.cpus, cpu);
    var own := Submitted(cpu, CpuLine(Aggregated(t), cpu), ACTIVE);
    CpuReported(t, cpu, state);
    ReportedFirst(own, b, cpu, state, t, cpu, cpu + 1);
    ReportedLast(a, own + b, cpu, state, t, cpu, cpu + 1);
  }

  lemma CpuReported(t: Table, cpu: nat, state: nat)
    requires t.Valid() && cpu < t.cpus && state < ACTIVE
    ensures Reported(Submitted(cpu, CpuLine(Aggregated(t), cpu), ACTIVE), cpu, state, t, cpu, cpu + 1)
  {
    CpuIsLine(t, cpu);
    LineReported(cpu, CpuLine(Aggregated(t), cpu), t, cpu, cpu + 1, state);
  }

  lemma ReportedFirst(a: seq<Submission>, b: seq<Submission>, cpu: int, state: nat, t: Table, lo: nat, hi: nat)
    requires t.Valid() && lo <= hi <= t.cpus && state < ACTIVE && Reported(a, cpu, state, t, lo, hi)
    requires forall i :: 0 <= i < |b| ==> b[i].cpu != cpu
    ensures Reported(a + b, cpu, state, t, lo, hi)
  {
    forall i | 0 <= i < |a| ensures (a + b)[i] == a[i] {
    }
  }

  lemma ReportedLast(a: seq<Submission>, b: seq<Submission>, cpu: int, state: nat, t: Table, lo: nat, hi: nat)
    requires t.Valid() && lo <= hi <= t.cpus && state < ACTIVE && Reported(b, cpu, state, t, lo, hi)
    requires forall i :: 0 <= i < |a| ==> a[i].cpu != cpu
    ensures Reported(a + b, cpu, state, t, lo, hi)
  {
    forall i | 0 <= i < |b| ensures (a + b)[|a| + i] == b[i] {
    }
  }

  /** What a commit dispatches, without the loops that do it. */
  lemma CommitReports(t: Table, byCpu: bool)
    requires t.Valid()
    ensures Reports(Dispatched(t, byCpu), t, byCpu)
  {
    if byCpu {
      CommittedLabels(Aggregated(t), t.cpus);
      forall cpu: nat, state: nat | cpu < t.cpus && state < ACTIVE
        ensures ReportedOf(Dispatched(t, true), cpu, state, t)
      {
        CommittedReported(t, cpu, state);
      }
    } else {
      SubmittedLabels(-1, GlobalLine(t), ACTIVE);
      GlobalIsLine(t);
      forall state: nat | state < ACTIVE ensures Reported(Dispatched(t, false), -1, state, t, 0, t.cpus) {
        LineReported(-1, GlobalLine(t), t, 0, t.cpus, state);
      }
    }
  }

  /** The percentages under one label for the CPU, added up. */
  function SummedFor(out: seq<Submission>, cpu: int): real {
    if out == [] then 0.0
    else
      var last := out[|out| - 1];
      SummedFor(out[..|out| - 1], cpu) + if last.cpu == cpu && last.value.Finite? then last.value.value else 0.0
  }

  lemma {:induction false} SummedForConcat(a: seq<Submission>, b: seq<Submission>, cpu: int)
    ensures SummedFor(a + b, cpu) == SummedFor(a, cpu) + SummedFor(b, cpu)
  {
    if b == [] {
      assert a + b == a;
    } else {
      assert (a + b)[..|a + b| - 1] == a + b[..|b| - 1];
      SummedForConcat(a, b[..|b| - 1], cpu);
    }
  }

  lemma {:induction false} SubmittedSum(cpu: int, line: Line, n: nat, other: int)
    requires n <= ACTIVE
    ensures SummedFor(Submitted(cpu, line, n), other) == if other == cpu then PercentSum(line, n) else 0.0
  {
    if n > 0 {
      SubmittedSum(cpu, line, n - 1, other);
      var before, value := Submitted(cpu, line, n - 1), PercentOf(line[n - 1], Total(line));
      assert (before + [Submission(cpu, n - 1, value)])[..|before|] == before;
      assert before + [] == before;
    }
  }

  lemma {:induction false} SummedNone(out: seq<Submission>, cpu: int)
    requires forall i :: 0 <= i < |out| ==> out[i].cpu != cpu
    ensures SummedFor(out, cpu) == 0.0
  {
    if out != [] {
      SummedNone(out[..|out| - 1], cpu);
    }
  }

  lemma CommittedSum(t: Table, cpu: nat)
    requires t.Valid() && cpu < t.cpus
    ensures SummedFor(CommittedTo(t, t.cpus), cpu) == PercentSum(CpuLine(t, cpu), ACTIVE)
  {
    var own := Submitted(cpu, CpuLine(t, cpu), ACTIVE);
    var a, b := CommittedSplit(t, t.cpus, cpu);
    SummedForConcat(a, own + b, cpu);
    SummedForConcat(own, b, cpu);
    SummedNone(a, cpu);
    SummedNone(b, cpu);
    SubmittedSum(cpu, CpuLine(t, cpu), ACTIVE, cpu);
  }

  /** What a commit dispatches for a CPU, or for the global line, adds up to 100 percent
      unless its rates are missing or add up to zero. */
  lemma DispatchesAddUp(t: Table)
    requires t.Valid()
    ensures WholeTo(t, 0, t.cpus, ACTIVE) != 0.0 ==> SummedFor(Dispatched(t, false), -1) == 100.0
    ensures forall cpu: nat :: cpu < t.cpus && WholeTo(t, cpu, cpu + 1, ACTIVE) != 0.0 ==>
              SummedFor(Dispatched(t, true), cpu) == 100.0
  {
    GlobalIsLine(t);
    LineAddsUp(GlobalLine(t), t, 0, t.cpus);
    SubmittedSum(-1, GlobalLine(t), ACTIVE, -1);
    forall cpu: nat | cpu < t.cpus && WholeTo(t, cpu, cpu + 1, ACTIVE) != 0.0
      ensures SummedFor(Dispatched(t, true), cpu) == 100.0
    {
      CpuAddsUp(t, cpu);
    }
  }

  lemma CpuAddsUp(t: Table, cpu: nat)
    requires t.Valid() && cpu < t.cpus && WholeTo(t, cpu, cpu + 1, ACTIVE) != 0.0
    ensures SummedFor(Dispatched(t, true), cpu) == 100.0
  {
    CpuIsLine(t, cpu);
    LineAddsUp(CpuLine(Aggregated(t), cpu), t, cpu, cpu + 1);
    CommittedSum(Aggregated(t), cpu);
  }

  lemma LineAddsUp(line: Line, t: Table, lo: nat, hi: nat)
    requires t.Valid() && lo <= hi <= t.cpus && LineOf(line, t, lo, hi)
    ensures WholeTo(t, lo, hi, ACTIVE) != 0.0 ==> PercentSum(line, ACTIVE) == 100.0
  {
    TotalIsWhole(line, t, lo, hi);
    if WholeTo(t, lo, hi, ACTIVE) != 0.0 {
      PercentsAddUp(line);
    }
  }

  class Plugin {
    const convert: Converter
    var states: seq<CpuState>
    var cpus: nat

    ghost predicate Valid()
      reads this
    {
      View().Valid()
    }

    ghost function View(): Table
      reads this
    {
      Table(states, cpus)
    }

    constructor (convert: Converter)
      ensures Valid() && View() == Table([], 0) && this.convert == convert
    {
      this.convert := convert;
      states, cpus := [], 0;
    }

    /** cpu_states_alloc */
    method Alloc(cpu: nat)
      modifies this`states
      ensures states == Grown(old(states), cpu)
    {
      var size := (cpu + 1) * STATES;
      if |states| >= size {
        return;
      }
      states := states + Zeros(size - |states|);
    }

    /** cpu_stage; the result is 0, EINVAL, or -1 for a failed conversion. */
    method OnValue(cpu: nat, state: nat, value: int, now: int) returns (status: int)
      requires Valid()
      modifies this
      ensures Valid() && View() == Stage(old(View()), convert, cpu, state, value, now)
      ensures status == EINVAL <==> state >= ACTIVE
      ensures status == 0 ==> View().cpus > cpu && View().Local(cpu, state).Some?
    {
      if state >= ACTIVE {
        return EINVAL;
      }
      Alloc(cpu);
      InRow(cpu, cpu + 1, state);
      if cpus <= cpu {
        cpus := cpu + 1;
      }
      var at := cpu * STATES + state;
      var (conv, rate) := convert(states[at].conv, value, now);
      states := states[at := states[at].(conv := conv)];
      if rate.None? {
        return -1;
      }
      states := states[at := states[at].(rate := rate)];
      states := states[at := states[at].(hasValue := true)];
      return 0;
    }

    /** One CPU's turn in aggregate. */
    method AggregateCpu(cpu: nat, sums: array<Gauge>)
      requires Valid() && cpu < cpus && sums.Length == STATES
      modifies this`states, sums
      ensures Valid() && |states| == |old(states)|
      ensures states == old(states)[cpu * STATES + ACTIVE :=
                WithActive(old(states)[cpu * STATES + ACTIVE], RowSum(old(View()), cpu, ACTIVE))]
      ensures forall s :: 0 <= s < ACTIVE ==> sums[s] == RateAdd(old(sums[s]), old(View()).Local(cpu, s))
      ensures sums[ACTIVE] == RateAdd(old(sums[ACTIVE]), RowSum(old(View()), cpu, ACTIVE))
    {
      ghost var t := View();
      InRow(cpu, cpus, ACTIVE);
      var row := cpu * STATES;
      states := states[row + ACTIVE := states[row + ACTIVE].(rate := None)];
      for state := 0 to ACTIVE
        invariant |states| == |t.states| && cpus == t.cpus
        invariant states == t.states[row + ACTIVE := t.states[row + ACTIVE].(rate := RowSum(t, cpu, state))]
        invariant forall s :: 0 <= s < STATES ==>
                    sums[s] == if s < state then RateAdd(old(sums[s]), t.Local(cpu, s)) else old(sums[s])
      {
        if states[row + state].hasValue {
          sums[state] := RateAdd(sums[state], states[row + state].rate);
          if state != IDLE {
            states := states[row + ACTIVE :=
              states[row + ACTIVE].(rate := RateAdd(states[row + ACTIVE].rate, states[row + state].rate))];
          }
        }
      }
      if states[row + ACTIVE].rate.Some? {
        states := states[row + ACTIVE := states[row + ACTIVE].(hasValue := true)];
      }
      sums[ACTIVE] := RateAdd(sums[ACTIVE], states[row + ACTIVE].rate);
    }

    /** Every global rate starts as NaN. */
    method NoRates(sums: array<Gauge>)
      modifies sums
      ensures forall k :: 0 <= k < sums.Length ==> sums[k] == None
    {
      for s := 0 to sums.Length
        invariant forall k :: 0 <= k < s ==> sums[k] == None
      {
        sums[s] := None;
      }
    }

    /** aggregate: the table's active cells and the global rates. */
    method Aggregate(sums: array<Gauge>)
      requires Valid() && sums.Length == STATES
      modifies this`states, sums
      ensures Valid() && View() == Aggregated(old(View()))
      ensures sums[..] == GlobalLine(old(View()))
    {
      ghost var t := View();
      NoRates(sums);
      AggregatedNone(t);
      assert sums[..] == GlobalTo(t, 0);
      for cpu := 0 to cpus
        invariant Valid() && View() == AggregatedTo(t, cpu)
        invariant sums[..] == GlobalTo(t, cpu)
      {
        ghost var before := sums[..];
        AggregateCpu(cpu, sums);
        RowUntouched(t, cpu);
        AggregatedNext(t, cpu);
        GlobalNext(t, cpu, before, sums[..]);
      }
    }

    /** cpu_commit_one, reporting by state. */
    method CommitOne(cpu: int, line: Line) returns (out: seq<Submission>)
      ensures out == Submitted(cpu, line, ACTIVE)
    {
      var sum := line[ACTIVE];
      sum := RateAdd(sum, line[IDLE]);
      out := [];
      for state := 0 to ACTIVE
        invariant out == Submitted(cpu, line, state)
      {
        var percent := PercentOf(line[state], sum);
        if percent != NaN {
          out := out + [Submission(cpu, state, percent)];
        }
      }
    }

    /** local_rates for one CPU. */
    method LocalRates(cpu: nat) returns (rates: Line)
      requires Valid() && cpu < cpus
      ensures rates == CpuLine(View(), cpu)
    {
      var line: seq<Gauge> := [];
      for state := 0 to STATES
        invariant line == CpuLine(View(), cpu)[..state]
      {
        InRow(cpu, cpus, state);
        var cell := states[cpu * STATES + state];
        line := line + [if cell.hasValue then cell.rate else None];
      }
      assert line == CpuLine(View(), cpu);
      rates := line;
    }

    /** cpu_commit, reporting by state and in percent. */
    method Commit(byCpu: bool) returns (out: seq<Submission>)
      requires Valid()
      modifies this`states
      ensures Valid() && View() == Aggregated(old(View()))
      ensures out == Dispatched(old(View()), byCpu) && Reports(out, old(View()), byCpu)
    {
      CommitReports(View(), byCpu);
      var global := new Gauge[STATES];
      Aggregate(global);
      if !byCpu {
        out := CommitOne(-1, global[..]);
        return;
      }
      out := CommitEach();
    }

    /** The loop of cpu_commit over the CPUs. */
    method CommitEach() returns (out: seq<Submission>)
      requires Valid()
      ensures out == CommittedTo(View(), cpus)
    {
      out := [];
      for cpu := 0 to cpus
        invariant out == CommittedTo(View(), cpu)
      {
        var rates := LocalRates(cpu);
        var one := CommitOne(cpu, rates);
        out := out + one;
      }
    }

    /** cpu_reset */
    method OnReset()
      requires Valid()
      modifies this
      ensures Valid() && View() == Reset(old(View()))
    {
      for i := 0 to |states|
        invariant |states| == |old(states)|
        invariant forall k :: 0 <= k < |states| ==>
                    states[k] == if k < i then old(states)[k].(hasValue := false) else old(states)[k]
      {
        states := states[i := states[i].(hasValue := false)];
      }
      cpus := 0;
    }
  }
}
