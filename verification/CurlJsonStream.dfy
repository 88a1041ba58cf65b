/** The streaming matcher of src/curl_json.c: yajl callbacks drive a stack of
    levels, one per nesting depth, that walks the configuration tree. This module
    gives each callback as a function on the stack and proves that a whole document
    is handled exactly like a recursive walk of document and tree together. */
module CurlJsonStream {
  import opened Common
  import opened Json
  import opened CurlJsonTrie

  /** value_t */
  datatype Value = Gauge(gauge: real) | Derive(derive: int) | Counter(counter: nat) | Absolute(absolute: nat)

  /** What one call of cj_submit hands over. */
  datatype Submission = Submission(key: Key, value: Value, names: seq<string>)

  /** The configuration tree, and parse_value with the data source type of a key. */
  datatype Config = Config(store: Store, parse: (Key, string) -> Option<Value>)

  /** cj_state_t */
  datatype Level = Level(entry: Option<Entry>, inArray: bool, index: int, name: string)

  const ZERO: Level := Level(None, false, 0, "")

  /** The part of cj_t that the callbacks change, and the submissions made so far. */
  datatype Stack = Stack(depth: nat, levels: seq<Level>, out: seq<Submission>) {
    predicate Fits() {
      depth < |levels|
    }

    function Top(): Level
      requires Fits()
    {
      levels[depth]
    }

    function SetTop(level: Level): Stack
      requires Fits()
    {
      this.(levels := levels[depth := level])
    }

    /** Level names from depth 1 up to the current one, as cj_submit_impl reads them. */
    function Names(): (r: seq<string>)
      requires Fits()
      ensures |r| == depth
    {
      seq(depth, i requires 0 <= i < depth => levels[i + 1].name)
    }
  }

  predicate IsBranch(e: Option<Entry>) {
    e.Some? && e.value.TreeEntry?
  }

  /** The exact name first, then the wildcard. */
  function Child(store: Store, e: Option<Entry>, name: string): Option<Entry> {
    if IsBranch(e) && e.value.node < |store| then
      var tree := store[e.value.node];
      if name in tree then Some(tree[name])
      else if ANY in tree then Some(tree[ANY])
      else None
    else None
  }

  // ------------------------------------------------------------------ callbacks

  function LoadKey(c: Config, s: Stack, key: string): (r: Stack)
    requires s.Fits()
    ensures r.Fits() && r.depth == s.depth && |r.levels| == |s.levels|
  {
    if s.depth == 0 then s
    else
      var named := s.Top().(name := Cut(key, NAME_LEN));
      var parent := s.levels[s.depth - 1].entry;
      s.SetTop(if IsBranch(parent) then named.(entry := Child(c.store, parent, key)) else named)
  }

  function AdvanceArray(c: Config, s: Stack): (r: Stack)
    requires s.Fits()
    ensures r.Fits() && r.depth == s.depth && |r.levels| == |s.levels|
  {
    if !s.Top().inArray then s
    else
      var next := s.Top().index + 1;
      var moved := s.SetTop(s.Top().(index := next));
      LoadKey(c, moved, DecimalInt(next))
  }

  function DecimalInt(i: int): string {
    if i < 0 then "-" + Decimal(-i) else Decimal(i)
  }

  function Scalar(c: Config, s: Stack, text: string): (r: Stack)
    requires s.Fits()
    ensures r.Fits() && r.depth == s.depth && |r.levels| == |s.levels|
  {
    var e := s.Top().entry;
    if e.Some? && e.value.KeyEntry? && c.parse(e.value.key, CString(text)).Some? then
      var hit := Submission(e.value.key, c.parse(e.value.key, CString(text)).value, s.Names());
      AdvanceArray(c, s.(out := s.out + [hit]))
    else AdvanceArray(c, s)
  }

  function BoolText(b: bool): string {
    if b then "1" else "0"
  }

  function End(c: Config, s: Stack): (r: Stack)
    requires s.Fits() && 0 < s.depth
    ensures r.Fits() && r.depth == s.depth - 1 && |r.levels| == |s.levels|
  {
    var cleared := s.SetTop(ZERO);
    AdvanceArray(c, cleared.(depth := s.depth - 1))
  }

  /** One callback: the new stack, and whether parsing may continue. An end event at
      depth 0 or a key outside a map does not occur: yajl balances its callbacks. */
  function Step(c: Config, s: Stack, event: Event): (r: (Stack, bool))
    requires s.Fits()
    ensures r.0.Fits() && |r.0.levels| == |s.levels|
  {
    match event
    case OnNull => (AdvanceArray(c, s), true)
    case OnBool(b) => (Scalar(c, s, BoolText(b)), true)
    case OnNumber(text) => (Scalar(c, s, text), true)
    case OnString(text) => (Scalar(c, s, text), true)
    case StartMap =>
      if s.depth + 1 >= |s.levels| then (s, false) else (s.(depth := s.depth + 1), true)
    case StartArray =>
      if s.depth + 1 >= |s.levels| then (s, false)
      else
        var deeper := s.(depth := s.depth + 1);
        (LoadKey(c, deeper.SetTop(deeper.Top().(inArray := true, index := 0)), "0"), true)
    case MapKey(name) => if s.depth == 0 then (s, false) else (LoadKey(c, s, CString(name)), true)
    case EndMap => if s.depth == 0 then (s, false) else (End(c, s), true)
    case EndArray =>
      if s.depth == 0 then (s, false) else (End(c, s.SetTop(s.Top().(inArray := false))), true)
  }

  /** yajl_parse: callbacks in order until one of them aborts. */
  function Run(c: Config, s: Stack, events: seq<Event>): (r: (Stack, bool))
    requires s.Fits()
    ensures r.0.Fits() && |r.0.levels| == |s.levels|
    decreases |events|
  {
    if events == [] then (s, true)
    else
      var (s', ok) := Step(c, s, events[0]);
      if ok then Run(c, s', events[1..]) else (s', false)
  }

  // ------------------------------------------------------------- reference walk

  /** The submissions of a recursive descent through the document: `e` is the
      configuration for this value and `names` its path as reported. */
  function Walk(c: Config, e: Option<Entry>, names: seq<string>, j: Json): seq<Submission>
    decreases j, 1
  {
    match j
    case Null => []
    case Bool(b) => WalkScalar(c, e, names, BoolText(b))
    case Num(text) => WalkScalar(c, e, names, text)
    case Str(text) => WalkScalar(c, e, names, text)
    case Arr(items) => WalkItems(c, e, names, items, 0)
    case Obj(members) => WalkMembers(c, e, names, members)
  }

  function WalkScalar(c: Config, e: Option<Entry>, names: seq<string>, text: string): seq<Submission> {
    if e.Some? && e.value.KeyEntry? && c.parse(e.value.key, CString(text)).Some? then
      [Submission(e.value.key, c.parse(e.value.key, CString(text)).value, names)]
    else []
  }

  function WalkItems(c: Config, e: Option<Entry>, names: seq<string>, items: seq<Json>, i: nat): seq<Submission>
    decreases items, 0
  {
    if items == [] then []
    else
      var name := Decimal(i);
      Walk(c, Child(c.store, e, name), names + [Cut(name, NAME_LEN)], items[0])
      + WalkItems(c, e, names, items[1..], i + 1)
  }

  function WalkMembers(c: Config, e: Option<Entry>, names: seq<string>, members: seq<Member>): seq<Submission>
    decreases members, 0
  {
    if members == [] then []
    else
      var name := CString(members[0].name);
      Walk(c, Child(c.store, e, name), names + [Cut(name, NAME_LEN)], members[0].value)
      + WalkMembers(c, e, names, members[1..])
  }

  // ------------------------------------------------------- stacks by their levels

  /** The names of the levels above the bottom one. */
  function NamesOf(path: seq<Level>): (r: seq<string>)
    requires path != []
    ensures |r| == |path| - 1
  {
    seq(|path| - 1, i requires 0 <= i < |path| - 1 => path[i + 1].name)
  }

  function Last(path: seq<Level>): Level
    requires path != []
  {
    path[|path| - 1]
  }

  /** The stack with these levels, and zeroes above them. */
  function At(max: nat, path: seq<Level>, out: seq<Submission>): (s: Stack)
    requires 0 < |path| <= max
    ensures s.Fits() && |s.levels| == max && s.depth == |path| - 1
    ensures s.Top() == Last(path) && s.Names() == NamesOf(path)
  {
    var s := Stack(|path| - 1, path + seq(max - |path|, _ => ZERO), out);
    assert s.Names() == NamesOf(path);
    s
  }

  /** A level after a key has been loaded from its parent's entry. */
  function Loaded(c: Config, parent: Option<Entry>, level: Level, key: string): Level {
    var named := level.(name := Cut(key, NAME_LEN));
    if IsBranch(parent) then named.(entry := Child(c.store, parent, key)) else named
  }

  /** The levels after the array step of the top level. */
  function Advanced(c: Config, path: seq<Level>): (r: seq<Level>)
    requires path != []
    ensures |r| == |path|
  {
    var n := |path| - 1;
    if !path[n].inArray then path
    else
      var next := path[n].(index := path[n].index + 1);
      if n == 0 then [next]
      else path[..n] + [Loaded(c, path[n - 1].entry, next, DecimalInt(next.index))]
  }

  lemma LoadKeyAt(c: Config, max: nat, path: seq<Level>, level: Level, out: seq<Submission>, key: string)
    requires path != [] && |path| < max
    ensures LoadKey(c, At(max, path + [level], out), key)
         == At(max, path + [Loaded(c, Last(path).entry, level, key)], out)
  {
    assert LoadKey(c, At(max, path + [level], out), key).levels
        == At(max, path + [Loaded(c, Last(path).entry, level, key)], out).levels;
  }

  lemma AdvanceAt(c: Config, max: nat, path: seq<Level>, out: seq<Submission>)
    requires 0 < |path| <= max
    ensures AdvanceArray(c, At(max, path, out)) == At(max, Advanced(c, path), out)
  {
    var n := |path| - 1;
    if path[n].inArray {
      var next := path[n].(index := path[n].index + 1);
      var s := At(max, path, out);
      assert path == path[..n] + [path[n]];
      assert s.SetTop(next).levels == At(max, path[..n] + [next], out).levels;
      if n > 0 {
        LoadKeyAt(c, max, path[..n], next, out, DecimalInt(next.index));
      }
    }
  }

  /** Entering and leaving an array or a map. */
  lemma EnterAt(c: Config, max: nat, path: seq<Level>, out: seq<Submission>)
    requires path != [] && |path| < max
    ensures Step(c, At(max, path, out), StartMap) == (At(max, path + [ZERO], out), true)
    ensures Step(c, At(max, path, out), StartArray) == (At(max, path + [ItemLevel(c, Last(path).entry, 0)], out), true)
  {
    var deeper := At(max, path, out).(depth := |path|);
    var first := Level(None, true, 0, "");
    assert deeper.levels == At(max, path + [ZERO], out).levels;
    assert deeper.SetTop(first).levels == At(max, path + [first], out).levels;
    LoadKeyAt(c, max, path, first, out, "0");
    assert Decimal(0) == "0";
  }

  lemma LeaveAt(c: Config, max: nat, path: seq<Level>, level: Level, out: seq<Submission>)
    requires path != [] && |path| < max
    ensures Step(c, At(max, path + [level], out), EndMap) == (At(max, Advanced(c, path), out), true)
    ensures Step(c, At(max, path + [level], out), EndArray) == (At(max, Advanced(c, path), out), true)
  {
    var s := At(max, path + [level], out);
    assert s.SetTop(ZERO).levels == At(max, path, out).levels;
    assert s.SetTop(s.Top().(inArray := false)).SetTop(ZERO).levels == At(max, path, out).levels;
    AdvanceAt(c, max, path, out);
  }

  /** The level of the i-th array element below an entry. */
  function ItemLevel(c: Config, e: Option<Entry>, i: nat): Level {
    Level(Child(c.store, e, Decimal(i)), true, i, Cut(Decimal(i), NAME_LEN))
  }

  lemma NextItem(c: Config, path: seq<Level>, i: nat)
    requires path != []
    ensures Advanced(c, path + [ItemLevel(c, Last(path).entry, i)]) == path + [ItemLevel(c, Last(path).entry, i + 1)]
  {
    assert (path + [ItemLevel(c, Last(path).entry, i)])[..|path|] == path;
  }

  /** The level of an object member below an entry. */
  function MemberLevel(c: Config, e: Option<Entry>, name: string): Level {
    Level(Child(c.store, e, name), false, 0, Cut(name, NAME_LEN))
  }

  /** A level that a map's next key may replace. */
  predicate InMap(e: Option<Entry>, level: Level) {
    !level.inArray && level.index == 0 && (!IsBranch(e) ==> level.entry == None)
  }

  // ----------------------------------------------------------------- refinement

  /** A run goes through exactly if it is not too deep, ending in `end` with these
      submissions; otherwise it was aborted after a prefix of them. */
  ghost predicate Outcome(r: (Stack, bool), ok: bool, end: Stack, more: seq<Submission>, from: Stack) {
    && r.1 == ok
    && (ok ==> r.0 == end && end.out == from.out + more)
    && from.out <= r.0.out <= from.out + more
  }

  lemma {:induction false} RunConcat(c: Config, s: Stack, a: seq<Event>, b: seq<Event>)
    requires s.Fits()
    ensures Run(c, s, a + b) ==
            var (s', ok) := Run(c, s, a);
            if ok then Run(c, s', b) else (s', false)
    decreases |a|
  {
    if a == [] {
      assert a + b == b;
    } else {
      assert (a + b)[1..] == a[1..] + b;
      var (s', ok) := Step(c, s, a[0]);
      if ok {
        RunConcat(c, s', a[1..], b);
      }
    }
  }

  lemma RunOne(c: Config, s: Stack, event: Event)
    requires s.Fits()
    ensures Run(c, s, [event]) == Step(c, s, event)
  {
    assert [event][1..] == [];
  }

  /** The outcome of two runs in a row, the second only after a complete first one. */
  lemma OutcomeThen(r1: (Stack, bool), r2: (Stack, bool), r: (Stack, bool), s: Stack, mid: Stack, end: Stack,
                    ok1: bool, ok2: bool, m1: seq<Submission>, m2: seq<Submission>)
    requires mid.out == s.out + m1 && Outcome(r1, ok1, mid, m1, s)
    requires if r1.1 then r == r2 && Outcome(r2, ok2, end, m2, mid) else r == (r1.0, false)
    ensures Outcome(r, ok1 && ok2, end, m1 + m2, s)
  {
    Extended(s.out, m1, m2, r.0.out);
  }

  /** Two runs in a row. */
  lemma Sequence(c: Config, s: Stack, mid: Stack, end: Stack, a: seq<Event>, b: seq<Event>,
                 ok1: bool, ok2: bool, m1: seq<Submission>, m2: seq<Submission>)
    requires s.Fits() && mid.Fits() && mid.out == s.out + m1
    requires Outcome(Run(c, s, a), ok1, mid, m1, s)
    requires Outcome(Run(c, mid, b), ok2, end, m2, mid)
    ensures Outcome(Run(c, s, a + b), ok1 && ok2, end, m1 + m2, s)
  {
    RunConcat(c, s, a, b);
    OutcomeThen(Run(c, s, a), Run(c, mid, b), Run(c, s, a + b), s, mid, end, ok1, ok2, m1, m2);
  }

  /** A callback without submission, and then a run. */
  lemma SilentFirst(c: Config, s: Stack, event: Event, mid: Stack, rest: seq<Event>, end: Stack,
                    ok: bool, more: seq<Submission>)
    requires s.Fits() && Step(c, s, event) == (mid, true) && mid.out == s.out
    requires Outcome(Run(c, mid, rest), ok, end, more, mid)
    ensures Outcome(Run(c, s, [event] + rest), ok, end, more, s)
  {
    assert ([event] + rest)[1..] == rest;
  }

  /** A run, and then a callback without submission. */
  lemma SilentLast(c: Config, s: Stack, last: Stack, end: Stack, body: seq<Event>, close: Event,
                   ok: bool, more: seq<Submission>)
    requires s.Fits() && last.Fits() && last.out == s.out + more && end.out == last.out
    requires Outcome(Run(c, s, body), ok, last, more, s)
    requires Run(c, last, [close]) == (end, true)
    ensures Outcome(Run(c, s, body + [close]), ok, end, more, s)
  {
    RunConcat(c, s, body, [close]);
  }

  /** A run between two callbacks without submission. */
  lemma Bracketed(c: Config, s: Stack, start: Stack, last: Stack, end: Stack,
                  open: Event, body: seq<Event>, close: Event, ok: bool, more: seq<Submission>)
    requires s.Fits() && Step(c, s, open) == (start, true) && start.out == s.out
    requires Outcome(Run(c, start, body), ok, last, more, start)
    requires last.Fits() && last.out == start.out + more
    requires Run(c, last, [close]) == (end, true) && end.out == last.out
    ensures Outcome(Run(c, s, [open] + (body + [close])), ok, end, more, s)
  {
    SilentLast(c, start, last, end, body, close, ok, more);
    SilentFirst(c, s, open, start, body + [close], end, ok, more);
  }

  /** The main refinement: streaming a value makes the submissions of its walk, takes the
      array step of the level it stands on, and leaves every other level as it was. */
  lemma {:induction false} StreamIsWalk(c: Config, max: nat, path: seq<Level>, out: seq<Submission>, j: Json)
    requires 0 < |path| <= max
    ensures var s := At(max, path, out);
            var more := Walk(c, Last(path).entry, NamesOf(path), j);
            Outcome(Run(c, s, Events(j)), |path| + Height(j) <= max, At(max, Advanced(c, path), out + more), more, s)
    decreases j, 1
  {
    match j
    case Arr(items) => StreamArray(c, max, path, out, items);
    case Obj(members) => StreamObject(c, max, path, out, members);
    case Null =>
      RunOne(c, At(max, path, out), OnNull);
      AdvanceAt(c, max, path, out);
      assert out + [] == out;
    case Bool(b) => StreamScalar(c, max, path, out, OnBool(b), BoolText(b));
    case Num(text) => StreamScalar(c, max, path, out, OnNumber(text), text);
    case Str(text) => StreamScalar(c, max, path, out, OnString(text), text);
  }

  lemma StreamScalar(c: Config, max: nat, path: seq<Level>, out: seq<Submission>, event: Event, text: string)
    requires 0 < |path| <= max
    requires Step(c, At(max, path, out), event) == (Scalar(c, At(max, path, out), text), true)
    ensures var more := WalkScalar(c, Last(path).entry, NamesOf(path), text);
            Outcome(Run(c, At(max, path, out), [event]), true, At(max, Advanced(c, path), out + more), more,
                    At(max, path, out))
  {
    var more := WalkScalar(c, Last(path).entry, NamesOf(path), text);
    RunOne(c, At(max, path, out), event);
    AdvanceAt(c, max, path, out + more);
    assert out + [] == out;
    assert At(max, path, out).(out := out + more) == At(max, path, out + more);
  }

  lemma StreamArray(c: Config, max: nat, path: seq<Level>, out: seq<Submission>, items: seq<Json>)
    requires 0 < |path| <= max
    ensures var s := At(max, path, out);
            var more := WalkItems(c, Last(path).entry, NamesOf(path), items, 0);
            Outcome(Run(c, s, Events(Arr(items))), |path| + Height(Arr(items)) <= max,
                    At(max, Advanced(c, path), out + more), more, s)
    decreases items, 1
  {
    var s := At(max, path, out);
    if |path| == max {
      TooDeep(c, s, StartArray, ItemEvents(items) + [EndArray]);
    } else {
      EnterAt(c, max, path, out);
      var first, last, more := StreamItems(c, max, path, out, items, 0, |items|);
      LeaveAt(c, max, path, last, out + more);
      RunOne(c, At(max, path + [last], out + more), EndArray);
      Bracketed(c, s, At(max, path + [first], out), At(max, path + [last], out + more),
                At(max, Advanced(c, path), out + more), StartArray, ItemEvents(items), EndArray,
                |path| + 1 + ItemsHeight(items) <= max, more);
    }
  }

  lemma TooDeep(c: Config, s: Stack, event: Event, rest: seq<Event>)
    requires s.Fits() && Step(c, s, event) == (s, false)
    ensures Run(c, s, [event] + rest) == (s, false)
  {
  }

  lemma {:induction false} StreamItems(c: Config, max: nat, path: seq<Level>, out: seq<Submission>,
                                       items: seq<Json>, i: nat, end: nat)
    returns (level: Level, last: Level, more: seq<Submission>)
    requires path != [] && |path| < max && end == i + |items|
    ensures level == ItemLevel(c, Last(path).entry, i) && last == ItemLevel(c, Last(path).entry, end)
    ensures more == WalkItems(c, Last(path).entry, NamesOf(path), items, i)
    ensures Outcome(Run(c, At(max, path + [level], out), ItemEvents(items)), |path| + 1 + ItemsHeight(items) <= max,
                    At(max, path + [last], out + more), more, At(max, path + [level], out))
    decreases items, 0
  {
    if items == [] {
      level, last, more := ItemLevel(c, Last(path).entry, i), ItemLevel(c, Last(path).entry, i), [];
      NoEvents(c, At(max, path + [level], out));
      assert out + [] == out;
    } else {
      var first, next, rest;
      level, first := StreamItem(c, max, path, out, items[0], i);
      next, last, rest := StreamItems(c, max, path, out + first, items[1..], i + 1, end);
      more := first + rest;
      ItemThenRest(c, max, path, level, next, last, out, Events(items[0]), ItemEvents(items[1..]),
                   |path| + 1 + Height(items[0]) <= max, |path| + 1 + ItemsHeight(items[1..]) <= max, first, rest);
    }
  }

  lemma NoEvents(c: Config, s: Stack)
    requires s.Fits()
    ensures Outcome(Run(c, s, []), true, s, [], s)
  {
    assert s.out + [] == s.out;
  }

  lemma ItemThenRest(c: Config, max: nat, path: seq<Level>, level: Level, next: Level, last: Level,
                     out: seq<Submission>, events: seq<Event>, tail: seq<Event>,
                     ok1: bool, ok2: bool, first: seq<Submission>, rest: seq<Submission>)
    requires |path| < max
    requires Outcome(Run(c, At(max, path + [level], out), events), ok1, At(max, path + [next], out + first), first,
                     At(max, path + [level], out))
    requires Outcome(Run(c, At(max, path + [next], out + first), tail), ok2,
                     At(max, path + [last], out + first + rest), rest, At(max, path + [next], out + first))
    ensures Outcome(Run(c, At(max, path + [level], out), events + tail), ok1 && ok2,
                    At(max, path + [last], out + (first + rest)), first + rest, At(max, path + [level], out))
  {
    assert out + first + rest == out + (first + rest);
    Sequence(c, At(max, path + [level], out), At(max, path + [next], out + first),
             At(max, path + [last], out + (first + rest)), events, tail, ok1, ok2, first, rest);
  }

  /** One array element: its level becomes that of the next element. */
  lemma StreamItem(c: Config, max: nat, path: seq<Level>, out: seq<Submission>, item: Json, i: nat)
    returns (level: Level, more: seq<Submission>)
    requires path != [] && |path| < max
    ensures level == ItemLevel(c, Last(path).entry, i)
    ensures more == Walk(c, level.entry, NamesOf(path) + [level.name], item)
    ensures Outcome(Run(c, At(max, path + [level], out), Events(item)), |path| + 1 + Height(item) <= max,
                    At(max, path + [ItemLevel(c, Last(path).entry, i + 1)], out + more), more,
                    At(max, path + [level], out))
    decreases item, 2
  {
    level := ItemLevel(c, Last(path).entry, i);
    assert NamesOf(path + [level]) == NamesOf(path) + [level.name];
    more := Walk(c, level.entry, NamesOf(path) + [level.name], item);
    StreamIsWalk(c, max, path + [level], out, item);
    NextItem(c, path, i);
  }

  lemma StreamObject(c: Config, max: nat, path: seq<Level>, out: seq<Submission>, members: seq<Member>)
    requires 0 < |path| <= max
    ensures var s := At(max, path, out);
            var more := WalkMembers(c, Last(path).entry, NamesOf(path), members);
            Outcome(Run(c, s, Events(Obj(members))), |path| + Height(Obj(members)) <= max,
                    At(max, Advanced(c, path), out + more), more, s)
    decreases members, 1
  {
    var s := At(max, path, out);
    if |path| == max {
      TooDeep(c, s, StartMap, MemberEvents(members) + [EndMap]);
    } else {
      var more := WalkMembers(c, Last(path).entry, NamesOf(path), members);
      EnterAt(c, max, path, out);
      var last := StreamMembers(c, max, path, out, members, ZERO);
      LeaveAt(c, max, path, last, out + more);
      RunOne(c, At(max, path + [last], out + more), EndMap);
      Bracketed(c, s, At(max, path + [ZERO], out), At(max, path + [last], out + more),
                At(max, Advanced(c, path), out + more), StartMap, MemberEvents(members), EndMap,
                |path| + 1 + MembersHeight(members) <= max, more);
    }
  }

  /** A key is loaded over the level of the member before it. */
  lemma NextMember(c: Config, max: nat, path: seq<Level>, level: Level, out: seq<Submission>, name: string)
    requires path != [] && |path| < max && InMap(Last(path).entry, level)
    ensures Step(c, At(max, path + [level], out), MapKey(name))
         == (At(max, path + [MemberLevel(c, Last(path).entry, CString(name))], out), true)
    ensures Advanced(c, path + [MemberLevel(c, Last(path).entry, CString(name))])
         == path + [MemberLevel(c, Last(path).entry, CString(name))]
  {
    LoadKeyAt(c, max, path, level, out, CString(name));
  }

  lemma {:induction false} StreamMembers(c: Config, max: nat, path: seq<Level>, out: seq<Submission>,
                                         members: seq<Member>, level: Level)
    returns (last: Level)
    requires path != [] && |path| < max && InMap(Last(path).entry, level)
    ensures var s := At(max, path + [level], out);
            var more := WalkMembers(c, Last(path).entry, NamesOf(path), members);
            Outcome(Run(c, s, MemberEvents(members)), |path| + 1 + MembersHeight(members) <= max,
                    At(max, path + [last], out + more), more, s)
    decreases members, 0
  {
    last := level;
    if members == [] {
      assert out + [] == out;
    } else {
      var e, name := Last(path).entry, CString(members[0].name);
      var inner := MemberLevel(c, e, name);
      var first, rest := Walk(c, inner.entry, NamesOf(path) + [inner.name], members[0].value),
                         WalkMembers(c, e, NamesOf(path), members[1..]);
      assert NamesOf(path + [inner]) == NamesOf(path) + [inner.name];
      StreamIsWalk(c, max, path + [inner], out, members[0].value);
      last := StreamMembers(c, max, path, out + first, members[1..], inner);
      MemberThenRest(c, max, path, level, out, last, members[0].name,
                     Events(members[0].value), MemberEvents(members[1..]),
                     |path| + 1 + Height(members[0].value) <= max,
                     |path| + 1 + MembersHeight(members[1..]) <= max, first, rest);
    }
  }

  lemma MemberThenRest(c: Config, max: nat, path: seq<Level>, level: Level, out: seq<Submission>, last: Level,
                       name: string, events: seq<Event>, tail: seq<Event>,
                       ok1: bool, ok2: bool, first: seq<Submission>, rest: seq<Submission>)
    requires path != [] && |path| < max && InMap(Last(path).entry, level)
    requires var inner := path + [MemberLevel(c, Last(path).entry, CString(name))];
             && Outcome(Run(c, At(max, inner, out), events), ok1, At(max, Advanced(c, inner), out + first), first,
                        At(max, inner, out))
             && Outcome(Run(c, At(max, inner, out + first), tail), ok2, At(max, path + [last], out + first + rest),
                        rest, At(max, inner, out + first))
    ensures Outcome(Run(c, At(max, path + [level], out), [MapKey(name)] + (events + tail)), ok1 && ok2,
                    At(max, path + [last], out + (first + rest)), first + rest, At(max, path + [level], out))
  {
    var inner := path + [MemberLevel(c, Last(path).entry, CString(name))];
    var s, at, mid := At(max, path + [level], out), At(max, inner, out), At(max, inner, out + first);
    var end := At(max, path + [last], out + (first + rest));
    assert out + first + rest == out + (first + rest);
    NextMember(c, max, path, level, out, name);
    Sequence(c, at, mid, end, events, tail, ok1, ok2, first, rest);
    SilentFirst(c, s, MapKey(name), at, events + tail, end, ok1 && ok2, first + rest);
  }
}
