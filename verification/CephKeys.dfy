/** The key stack of src/ceph.c: yajl callbacks push and pop object keys, and every
    number is reported to a handler under the dotted path of its enclosing keys. */
module CephKeys {
  import opened Common
  import opened Json

  /** char key[2 * DATA_MAX_NAME_LEN] in ceph_cb_number. */
  const KEY_SIZE: nat := 256

  /** One call of the node handler. */
  datatype Call = Call(value: string, key: string)

  /** convert_special_metrics, and whether the handler, which keeps state between its
      calls, returns 0 for a call after these earlier ones. */
  datatype Setup = Setup(convert: bool, accepts: (seq<Call>, Call) -> bool)

  /** struct yajl_struct: the current key, the stack of YAJL_MAX_DEPTH slots (NULL is
      None) and its height; and the handler calls made so far. */
  datatype Keys = Keys(key: Option<string>, stack: seq<Option<string>>, depth: nat, calls: seq<Call>) {
    predicate Fits() {
      depth <= |stack|
    }
  }

  /** A callback's result. NullKey stands for the use of a NULL key as a string, which
      has no defined behaviour. */
  datatype Result = Continue(s: Keys) | Abort(s: Keys) | NullKey

  // ------------------------------------------------------------------ the key text

  /** BUFFER_ADD */
  function Add(buffer: string, text: string): (r: string)
    ensures |r| < KEY_SIZE
  {
    Cut(buffer + text, KEY_SIZE)
  }

  /** The loop of ceph_cb_number over stack slots. */
  function StackText(slots: seq<Option<string>>): (r: string)
    ensures |r| < KEY_SIZE
  {
    if slots == [] then ""
    else
      var before := StackText(slots[..|slots| - 1]);
      match slots[|slots| - 1]
      case None => before
      case Some(name) => Add(if before != "" then Add(before, ".") else before, name)
  }

  function Report(slots: seq<Option<string>>, key: string): string {
    Add(Add(StackText(slots), "."), key)
  }

  predicate Special(setup: Setup, slots: seq<Option<string>>, key: Option<string>) {
    && setup.convert && |slots| > 2
    && slots[|slots| - 2] == Some("filestore")
    && slots[|slots| - 1] == Some("journal_wr_bytes")
    && key == Some("avgcount")
  }

  // ------------------------------------------------------------------- callbacks

  function OnNumber(setup: Setup, s: Keys, text: string): Result
    requires s.Fits()
  {
    var slots := s.stack[..s.depth];
    if Special(setup, slots, s.key) then Continue(s)
    else if s.key.None? then NullKey
    else
      var call := Call(CString(text), Report(slots, s.key.value));
      var s' := s.(calls := s.calls + [call]);
      if setup.accepts(s.calls, call) then Continue(s') else Abort(s')
  }

  function Step(setup: Setup, s: Keys, event: Event): (r: Result)
    requires s.Fits()
    ensures r.Continue? ==> r.s.Fits() && |r.s.stack| == |s.stack|
  {
    match event
    case OnNumber(text) => OnNumber(setup, s, text)
    case StartMap =>
      if s.depth == |s.stack| then Abort(s)
      else Continue(s.(stack := s.stack[s.depth := s.key], depth := s.depth + 1, key := None))
    case EndMap =>
      if s.depth == 0 then Abort(s)
      else
        var d := s.depth - 1;
        Continue(s.(key := s.stack[d], stack := s.stack[d := None], depth := d))
    case MapKey(name) => Continue(s.(key := Some(CString(name))))
    case _ => Continue(s)
  }

  function Run(setup: Setup, s: Keys, events: seq<Event>): (r: Result)
    requires s.Fits()
    ensures r.Continue? ==> r.s.Fits() && |r.s.stack| == |s.stack|
    decreases |events|
  {
    if events == [] then Continue(s)
    else
      match Step(setup, s, events[0])
      case Continue(s') => Run(setup, s', events[1..])
      case stop => stop
  }

  // ------------------------------------------------------------ reference semantics

  /** Keys joined by dots; leading empty keys leave no trace. */
  function Dotted(names: seq<string>): string {
    if names == [] then ""
    else
      var before := Dotted(names[..|names| - 1]);
      if before == "" then names[|names| - 1] else before + "." + names[|names| - 1]
  }

  /** The full path of a number: note the leading dot of a top-level number. */
  function FullKey(enclosing: seq<string>, key: string): string {
    Dotted(enclosing) + "." + key
  }

  /** The plain path: all keys, empty ones included, joined by dots. */
  function Join(names: seq<string>): string {
    if names == [] then ""
    else if |names| == 1 then names[0]
    else Join(names[..|names| - 1]) + "." + names[|names| - 1]
  }

  /** The code tells the first key by an empty buffer, so leading empty keys vanish. */
  lemma {:induction false} DottedIsJoin(names: seq<string>)
    ensures |Dotted(names)| <= |Join(names)|
    ensures Dotted(names) == Join(names) <==> |names| <= 1 || names[0] != ""
  {
    if |names| > 1 {
      var init, last := names[..|names| - 1], names[|names| - 1];
      DottedIsJoin(init);
      var d, j := Dotted(init), Join(init);
      if names[0] == "" {
        assert |Dotted(names)| < |Join(names)| by {
          FirstEmpty(init);
        }
      } else {
        assert d == j && d != "" by {
          FirstNotEmpty(init);
        }
      }
    } else if |names| == 1 {
      assert names[..0] == [];
    }
  }

  lemma {:induction false} FirstNotEmpty(names: seq<string>)
    requires names != [] && names[0] != ""
    ensures Join(names) != ""
  {
  }

  lemma {:induction false} FirstEmpty(names: seq<string>)
    requires names != [] && names[0] == ""
    ensures Dotted(names) == "" || |Dotted(names)| < |Join(names)|
  {
    if |names| > 1 {
      FirstEmpty(names[..|names| - 1]);
    } else {
      assert names[..0] == [];
    }
  }

  /** A plain path: below the root object, in another object, and the outermost key is
      not empty unless it is the only one. */
  predicate PlainPath(enclosing: seq<string>) {
    |enclosing| == 1 || (|enclosing| > 1 && enclosing[0] != "")
  }

  /** Exactly when a number is reported under the plain path of its keys. */
  lemma FullKeyIsJoin(enclosing: seq<string>, key: string)
    ensures FullKey(enclosing, key) == Join(enclosing + [key]) <==> PlainPath(enclosing)
  {
    assert (enclosing + [key])[..|enclosing|] == enclosing;
    if enclosing == [] {
      assert |FullKey(enclosing, key)| == 1 + |key|;
    } else {
      DottedIsJoin(enclosing);
      if Dotted(enclosing) != Join(enclosing) {
        FirstEmpty(enclosing);
        assert |FullKey(enclosing, key)| == |Dotted(enclosing)| + 1 + |key|;
        assert |Join(enclosing + [key])| == |Join(enclosing)| + 1 + |key|;
      }
    }
  }

  /** A number directly below the root, and one below an empty key. */
  lemma OddKeys()
    ensures FullKey([], "a") == ".a" && Join(["a"]) == "a"
    ensures FullKey(["", "b"], "c") == "b.c" && Join(["", "b", "c"]) == ".b.c"
  {
    assert ["", "b"][..1] == [""] && [""][..0] == [];
    assert ["", "b", "c"][..2] == ["", "b"];
    assert Dotted([""]) == "" && Join(["", "b"]) == ".b";
  }

  /** The numbers whose two innermost enclosing keys and own key are these. */
  predicate Skipped(setup: Setup, enclosing: seq<string>, key: string) {
    && setup.convert && |enclosing| >= 2
    && enclosing[|enclosing| - 2] == "filestore"
    && enclosing[|enclosing| - 1] == "journal_wr_bytes"
    && key == "avgcount"
  }

  function Enclose(enclosing: seq<string>, key: Option<string>): seq<string> {
    if key.Some? then enclosing + [key.value] else enclosing
  }

  /** The calls for a value inside the objects of these keys, itself under `key`. */
  function Calls(setup: Setup, enclosing: seq<string>, key: Option<string>, j: Json): seq<Call>
    decreases j, 1
  {
    match j
    case Num(text) =>
      if key.None? || Skipped(setup, enclosing, key.value) then []
      else [Call(CString(text), Cut(FullKey(enclosing, key.value), KEY_SIZE))]
    case Arr(items) => ItemCalls(setup, enclosing, key, items)
    case Obj(members) => MemberCalls(setup, Enclose(enclosing, key), members)
    case _ => []
  }

  function ItemCalls(setup: Setup, enclosing: seq<string>, key: Option<string>, items: seq<Json>): seq<Call>
    decreases items, 0
  {
    if items == [] then []
    else Calls(setup, enclosing, key, items[0]) + ItemCalls(setup, enclosing, key, items[1..])
  }

  function MemberCalls(setup: Setup, enclosing: seq<string>, members: seq<Member>): seq<Call>
    decreases members, 0
  {
    if members == [] then []
    else
      Calls(setup, enclosing, Some(CString(members[0].name)), members[0].value)
      + MemberCalls(setup, enclosing, members[1..])
  }

  /** Nesting depth counting objects only: arrays use no stack slot. */
  function MapHeight(j: Json): nat
    decreases j, 1
  {
    match j
    case Arr(items) => ItemsMapHeight(items)
    case Obj(members) => 1 + MembersMapHeight(members)
    case _ => 0
  }

  function ItemsMapHeight(items: seq<Json>): nat
    decreases items, 0
  {
    if items == [] then 0
    else
      var h, t := MapHeight(items[0]), ItemsMapHeight(items[1..]);
      if h < t then t else h
  }

  function MembersMapHeight(members: seq<Member>): nat
    decreases members, 0
  {
    if members == [] then 0
    else
      var h, t := MapHeight(members[0].value), MembersMapHeight(members[1..]);
      if h < t then t else h
  }

  /** A number outside every object. */
  predicate Bare(j: Json)
    decreases j, 1
  {
    j.Num? || (j.Arr? && BareItems(j.items))
  }

  predicate BareItems(items: seq<Json>)
    decreases items, 0
  {
    items != [] && (Bare(items[0]) || BareItems(items[1..]))
  }

  // -------------------------------------------------------------------- refinement

  lemma CutAdd(a: string, b: string)
    ensures Add(Cut(a, KEY_SIZE), b) == Cut(a + b, KEY_SIZE)
  {
    if |a| >= KEY_SIZE {
      assert (Cut(a, KEY_SIZE) + b)[..KEY_SIZE - 1] == (a + b)[..KEY_SIZE - 1];
    }
  }

  /** Stack contents that occur: NULL for the outermost object, then keys. */
  predicate Proper(slots: seq<Option<string>>) {
    slots == []
    || (|slots| == 1 && slots[0].None?)
    || (|slots| > 1 && slots[|slots| - 1].Some? && Proper(slots[..|slots| - 1]))
  }

  /** The enclosing keys that a stack holds. */
  function Names(slots: seq<Option<string>>): seq<string> {
    if slots == [] then [] else Enclose(Names(slots[..|slots| - 1]), slots[|slots| - 1])
  }

  lemma {:induction false} NamesOfProper(slots: seq<Option<string>>)
    requires Proper(slots) && slots != []
    ensures |Names(slots)| == |slots| - 1
    ensures |slots| > 1 ==> Some(Names(slots)[|slots| - 2]) == slots[|slots| - 1]
    ensures |slots| > 2 ==> Some(Names(slots)[|slots| - 3]) == slots[|slots| - 2]
  {
    assert Names([]) == [];
    if |slots| > 1 {
      NamesOfProper(slots[..|slots| - 1]);
    } else {
      assert slots[..0] == [];
    }
  }

  lemma {:induction false} StackTextIsDotted(slots: seq<Option<string>>)
    ensures StackText(slots) == Cut(Dotted(Names(slots)), KEY_SIZE)
  {
    if slots != [] {
      var init := slots[..|slots| - 1];
      StackTextIsDotted(init);
      var before := Dotted(Names(init));
      match slots[|slots| - 1]
      case None =>
      case Some(name) =>
        assert Names(slots)[..|Names(slots)| - 1] == Names(init);
        CutAdd(before, ".");
        CutAdd(before + ".", name);
    }
  }

  /** Does the handler return 0 for all of them, one after the other? */
  predicate AllAccepted(setup: Setup, made: seq<Call>, calls: seq<Call>)
    decreases |calls|
  {
    calls == [] || (setup.accepts(made, calls[0]) && AllAccepted(setup, made + [calls[0]], calls[1..]))
  }

  lemma {:induction false} AllAcceptedConcat(setup: Setup, made: seq<Call>, a: seq<Call>, b: seq<Call>)
    ensures AllAccepted(setup, made, a + b) <==> AllAccepted(setup, made, a) && AllAccepted(setup, made + a, b)
    decreases |a|
  {
    if a == [] {
      assert a + b == b && made + a == made;
    } else {
      assert (a + b)[1..] == a[1..] + b;
      assert made + [a[0]] + a[1..] == made + a;
      AllAcceptedConcat(setup, made + [a[0]], a[1..], b);
    }
  }

  lemma SpecialIsSkipped(setup: Setup, slots: seq<Option<string>>, key: string)
    requires Proper(slots)
    ensures Special(setup, slots, Some(key)) == Skipped(setup, Names(slots), key)
  {
    if slots != [] {
      NamesOfProper(slots);
    }
  }

  lemma NumberReported(setup: Setup, s: Keys, text: string)
    requires s.Fits() && s.key.Some? && Proper(s.stack[..s.depth])
    ensures var calls := Calls(setup, Names(s.stack[..s.depth]), s.key, Num(text));
            OnNumber(setup, s, text) ==
            if AllAccepted(setup, s.calls, calls) then Continue(s.(calls := s.calls + calls))
            else Abort(s.(calls := s.calls + calls))
  {
    var slots := s.stack[..s.depth];
    var enclosing := Names(slots);
    StackTextIsDotted(slots);
    CutAdd(Dotted(enclosing), ".");
    CutAdd(Dotted(enclosing) + ".", s.key.value);
    SpecialIsSkipped(setup, slots, s.key.value);
    if !Skipped(setup, enclosing, s.key.value) {
      var call := Call(CString(text), Cut(FullKey(enclosing, s.key.value), KEY_SIZE));
      assert Calls(setup, enclosing, s.key, Num(text)) == [call] && [call][1..] == [];
    } else {
      assert s.calls + [] == s.calls;
    }
  }

  /** The handler calls made by the end of a run or until it was aborted. */
  function Made(r: Result): seq<Call> {
    match r case NullKey => [] case Continue(s) => s.calls case Abort(s) => s.calls
  }

  /** A run that goes through ends in `end` and made exactly these calls; it goes
      through exactly when the nesting fits and the handler accepts every call. An
      aborted run made a prefix of the calls. */
  ghost predicate Outcome(setup: Setup, r: Result, end: Keys, from: Keys, fits: bool, calls: seq<Call>) {
    && !r.NullKey?
    && (r.Continue? <==> fits && AllAccepted(setup, from.calls, calls))
    && (r.Continue? ==> r.s == end && end.calls == from.calls + calls)
    && from.calls <= Made(r) <= from.calls + calls
  }

  lemma {:induction false} RunConcat(setup: Setup, s: Keys, a: seq<Event>, b: seq<Event>)
    requires s.Fits()
    ensures Run(setup, s, a + b) ==
            match Run(setup, s, a) case Continue(s') => Run(setup, s', b) case stop => stop
    decreases |a|
  {
    if a == [] {
      assert a + b == b;
    } else {
      assert (a + b)[1..] == a[1..] + b;
      match Step(setup, s, a[0])
      case Continue(s') => RunConcat(setup, s', a[1..], b);
      case _ =>
    }
  }

  lemma RunOne(setup: Setup, s: Keys, event: Event)
    requires s.Fits()
    ensures Run(setup, s, [event]) == Step(setup, s, event)
  {
    assert [event][1..] == [];
  }

  /** The outcome of two runs in a row, the second only after a complete first one. */
  lemma OutcomeThen(setup: Setup, r1: Result, r2: Result, r: Result, s: Keys, mid: Keys, end: Keys,
                    fits1: bool, fits2: bool, c1: seq<Call>, c2: seq<Call>)
    requires mid.calls == s.calls + c1 && Outcome(setup, r1, mid, s, fits1, c1)
    requires if r1.Continue? then r == r2 && Outcome(setup, r2, end, mid, fits2, c2) else r == r1
    ensures Outcome(setup, r, end, s, fits1 && fits2, c1 + c2)
  {
    Extended(s.calls, c1, c2, Made(r));
    AllAcceptedConcat(setup, s.calls, c1, c2);
  }

  lemma Sequence(setup: Setup, s: Keys, mid: Keys, end: Keys, a: seq<Event>, b: seq<Event>,
                 fits1: bool, fits2: bool, c1: seq<Call>, c2: seq<Call>)
    requires s.Fits() && mid.Fits() && mid.calls == s.calls + c1
    requires Outcome(setup, Run(setup, s, a), mid, s, fits1, c1)
    requires Outcome(setup, Run(setup, mid, b), end, mid, fits2, c2)
    ensures Outcome(setup, Run(setup, s, a + b), end, s, fits1 && fits2, c1 + c2)
  {
    RunConcat(setup, s, a, b);
    OutcomeThen(setup, Run(setup, s, a), Run(setup, mid, b), Run(setup, s, a + b), s, mid, end,
                fits1, fits2, c1, c2);
  }

  /** A callback that makes no call, alone or before a run. */
  lemma SilentStep(setup: Setup, s: Keys, event: Event, mid: Keys)
    requires s.Fits() && Step(setup, s, event) == Continue(mid) && mid.calls == s.calls
    ensures Outcome(setup, Run(setup, s, [event]), mid, s, true, [])
  {
    RunOne(setup, s, event);
    assert s.calls + [] == s.calls;
  }

  lemma SilentFirst(setup: Setup, s: Keys, event: Event, mid: Keys, rest: seq<Event>, end: Keys,
                    fits: bool, calls: seq<Call>)
    requires s.Fits() && Step(setup, s, event) == Continue(mid) && mid.calls == s.calls
    requires Outcome(setup, Run(setup, mid, rest), end, mid, fits, calls)
    ensures Outcome(setup, Run(setup, s, [event] + rest), end, s, fits, calls)
  {
    assert ([event] + rest)[1..] == rest;
  }

  /** A silent callback, a run, and another run. */
  lemma FirstThenRest(setup: Setup, s: Keys, at: Keys, mid: Keys, end: Keys, event: Event,
                      a: seq<Event>, b: seq<Event>, fits1: bool, fits2: bool, c1: seq<Call>, c2: seq<Call>)
    requires s.Fits() && Step(setup, s, event) == Continue(at) && at.calls == s.calls
    requires Outcome(setup, Run(setup, at, a), mid, at, fits1, c1)
    requires mid.Fits() && mid.calls == at.calls + c1
    requires Outcome(setup, Run(setup, mid, b), end, mid, fits2, c2)
    ensures Outcome(setup, Run(setup, s, [event] + (a + b)), end, s, fits1 && fits2, c1 + c2)
  {
    Sequence(setup, at, mid, end, a, b, fits1, fits2, c1, c2);
    SilentFirst(setup, s, event, at, a + b, end, fits1 && fits2, c1 + c2);
  }

  /** A run between two silent callbacks. */
  lemma Bracketed(setup: Setup, s: Keys, start: Keys, last: Keys, end: Keys,
                  open: Event, body: seq<Event>, close: Event, fits: bool, calls: seq<Call>)
    requires s.Fits() && Step(setup, s, open) == Continue(start) && start.calls == s.calls
    requires Outcome(setup, Run(setup, start, body), last, start, fits, calls)
    requires last.Fits() && last.calls == start.calls + calls
    requires Step(setup, last, close) == Continue(end) && end.calls == last.calls
    ensures Outcome(setup, Run(setup, s, [open] + (body + [close])), end, s, fits, calls)
  {
    SilentStep(setup, last, close, end);
    assert calls + [] == calls;
    Sequence(setup, start, last, end, body, [close], fits, true, calls, []);
    SilentFirst(setup, s, open, start, body + [close], end, fits, calls);
  }

  /** The state at a place of a document: `outer` on the stack, NULL above it. */
  function Place(max: nat, outer: seq<Option<string>>, key: Option<string>, calls: seq<Call>): (s: Keys)
    requires |outer| <= max
    ensures s.Fits() && |s.stack| == max && s.stack[..s.depth] == outer
  {
    Keys(key, outer + seq(max - |outer|, _ => None), |outer|, calls)
  }

  /** The state after further calls. */
  function Plus(s: Keys, more: seq<Call>): (r: Keys)
    ensures r.calls == s.calls + more
    ensures s.Fits() ==> r.Fits()
  {
    s.(calls := s.calls + more)
  }

  lemma EnterAndLeave(setup: Setup, max: nat, outer: seq<Option<string>>, key: Option<string>,
                      last: Option<string>, made: seq<Call>, more: seq<Call>)
    requires |outer| < max
    ensures Step(setup, Place(max, outer, key, made), StartMap) == Continue(Place(max, outer + [key], None, made))
    ensures Step(setup, Place(max, outer + [key], last, made + more), EndMap)
         == Continue(Plus(Place(max, outer, key, made), more))
  {
    var s, inner := Place(max, outer, key, made), Place(max, outer + [key], None, made);
    assert s.stack[|outer| := key] == inner.stack;
    assert inner.stack[|outer| := None] == s.stack;
  }

  /** The main refinement: a value inside objects, or one that holds no number outside
      every object, is reported exactly as the reference says, and the stack is restored. */
  lemma {:induction false} StreamIsCalls(setup: Setup, max: nat, outer: seq<Option<string>>,
                                         key: Option<string>, made: seq<Call>, j: Json)
    requires |outer| <= max && Proper(outer) && (outer == [] <==> key.None?)
    requires outer == [] ==> !Bare(j)
    ensures var s := Place(max, outer, key, made);
            var calls := Calls(setup, Names(outer), key, j);
            Outcome(setup, Run(setup, s, Events(j)), Plus(s, calls), s, |outer| + MapHeight(j) <= max, calls)
    decreases j, 1
  {
    var s := Place(max, outer, key, made);
    match j
    case Num(text) =>
      RunOne(setup, s, Event.OnNumber(text));
      NumberReported(setup, s, text);
    case Arr(items) =>
      StreamArray(setup, max, outer, key, made, items);
    case Obj(members) =>
      StreamObject(setup, max, outer, key, made, members);
    case _ =>
      assert Plus(s, []) == s;
      SilentStep(setup, s, Events(j)[0], s);
  }

  lemma StreamArray(setup: Setup, max: nat, outer: seq<Option<string>>, key: Option<string>,
                    made: seq<Call>, items: seq<Json>)
    requires |outer| <= max && Proper(outer) && (outer == [] <==> key.None?)
    requires outer == [] ==> !BareItems(items)
    ensures var s := Place(max, outer, key, made);
            var calls := Calls(setup, Names(outer), key, Arr(items));
            Outcome(setup, Run(setup, s, Events(Arr(items))), Plus(s, calls), s,
                    |outer| + MapHeight(Arr(items)) <= max, calls)
    decreases items, 1
  {
    var s := Place(max, outer, key, made);
    var calls := ItemCalls(setup, Names(outer), key, items);
    StreamItems(setup, max, outer, key, made, items);
    Bracketed(setup, s, s, Plus(s, calls), Plus(s, calls), StartArray, ItemEvents(items), EndArray,
              |outer| + ItemsMapHeight(items) <= max, calls);
  }

  lemma {:induction false} StreamItems(setup: Setup, max: nat, outer: seq<Option<string>>,
                                       key: Option<string>, made: seq<Call>, items: seq<Json>)
    requires |outer| <= max && Proper(outer) && (outer == [] <==> key.None?)
    requires outer == [] ==> !BareItems(items)
    ensures var s := Place(max, outer, key, made);
            var calls := ItemCalls(setup, Names(outer), key, items);
            Outcome(setup, Run(setup, s, ItemEvents(items)), Plus(s, calls), s,
                    |outer| + ItemsMapHeight(items) <= max, calls)
    decreases items, 0
  {
    var s := Place(max, outer, key, made);
    if items == [] {
      assert Plus(s, []) == s;
    } else {
      var c1, c2 := Calls(setup, Names(outer), key, items[0]), ItemCalls(setup, Names(outer), key, items[1..]);
      StreamIsCalls(setup, max, outer, key, made, items[0]);
      StreamItems(setup, max, outer, key, made + c1, items[1..]);
      ItemThenRest(setup, max, outer, key, made, Events(items[0]), ItemEvents(items[1..]),
                   |outer| + MapHeight(items[0]) <= max, |outer| + ItemsMapHeight(items[1..]) <= max, c1, c2);
    }
  }

  lemma ItemThenRest(setup: Setup, max: nat, outer: seq<Option<string>>, key: Option<string>, made: seq<Call>,
                     events: seq<Event>, tail: seq<Event>,
                     fits1: bool, fits2: bool, c1: seq<Call>, c2: seq<Call>)
    requires |outer| <= max
    requires var s := Place(max, outer, key, made);
             Outcome(setup, Run(setup, s, events), Plus(s, c1), s, fits1, c1)
    requires var mid := Place(max, outer, key, made + c1);
             Outcome(setup, Run(setup, mid, tail), Plus(mid, c2), mid, fits2, c2)
    ensures var s := Place(max, outer, key, made);
            Outcome(setup, Run(setup, s, events + tail), Plus(s, c1 + c2), s, fits1 && fits2, c1 + c2)
  {
    var s := Place(max, outer, key, made);
    assert made + c1 + c2 == made + (c1 + c2);
    Sequence(setup, s, Plus(s, c1), Plus(s, c1 + c2), events, tail, fits1, fits2, c1, c2);
  }

  lemma StreamObject(setup: Setup, max: nat, outer: seq<Option<string>>, key: Option<string>,
                     made: seq<Call>, members: seq<Member>)
    requires |outer| <= max && Proper(outer) && (outer == [] <==> key.None?)
    ensures var s := Place(max, outer, key, made);
            var calls := MemberCalls(setup, Enclose(Names(outer), key), members);
            Outcome(setup, Run(setup, s, Events(Obj(members))), Plus(s, calls), s,
                    |outer| + MapHeight(Obj(members)) <= max, calls)
    decreases members, 1
  {
    var s := Place(max, outer, key, made);
    if |outer| == max {
      RunConcat(setup, s, [StartMap], MemberEvents(members) + [EndMap]);
      RunOne(setup, s, StartMap);
    } else {
      var calls := MemberCalls(setup, Enclose(Names(outer), key), members);
      var name := StreamMembers(setup, max, outer, key, made, members, None);
      EnterAndLeave(setup, max, outer, key, name, made, calls);
      Bracketed(setup, s, Place(max, outer + [key], None, made), Place(max, outer + [key], name, made + calls),
                Plus(s, calls), StartMap, MemberEvents(members), EndMap,
                |outer| + 1 + MembersMapHeight(members) <= max, calls);
    }
  }

  lemma ProperInside(outer: seq<Option<string>>, key: Option<string>)
    requires Proper(outer) && (outer == [] <==> key.None?)
    ensures Proper(outer + [key]) && Names(outer + [key]) == Enclose(Names(outer), key)
  {
    assert (outer + [key])[..|outer|] == outer;
  }

  lemma {:induction false} StreamMembers(setup: Setup, max: nat, outer: seq<Option<string>>, key: Option<string>,
                                         made: seq<Call>, members: seq<Member>, name: Option<string>)
    returns (name': Option<string>)
    requires |outer| < max && Proper(outer) && (outer == [] <==> key.None?)
    ensures var s := Place(max, outer + [key], name, made);
            var calls := MemberCalls(setup, Enclose(Names(outer), key), members);
            Outcome(setup, Run(setup, s, MemberEvents(members)), Place(max, outer + [key], name', made + calls), s,
                    |outer| + 1 + MembersMapHeight(members) <= max, calls)
    decreases members, 0
  {
    name' := name;
    if members == [] {
      assert made + [] == made;
    } else {
      var inner := outer + [key];
      ProperInside(outer, key);
      var own := Some(CString(members[0].name));
      var c1, c2 := Calls(setup, Names(inner), own, members[0].value), MemberCalls(setup, Names(inner), members[1..]);
      StreamIsCalls(setup, max, inner, own, made, members[0].value);
      name' := StreamMembers(setup, max, outer, key, made + c1, members[1..], own);
      MemberThenRest(setup, max, inner, name, members[0].name, name', made,
                     Events(members[0].value), MemberEvents(members[1..]),
                     |inner| + MapHeight(members[0].value) <= max,
                     |outer| + 1 + MembersMapHeight(members[1..]) <= max, c1, c2);
    }
  }

  /** A key is read over whatever key was there. */
  lemma KeyRead(setup: Setup, max: nat, inner: seq<Option<string>>, name: Option<string>, own: string, made: seq<Call>)
    requires |inner| <= max
    ensures Step(setup, Place(max, inner, name, made), MapKey(own)) == Continue(Place(max, inner, Some(CString(own)), made))
  {
  }

  lemma MemberThenRest(setup: Setup, max: nat, inner: seq<Option<string>>, name: Option<string>, own: string,
                       name': Option<string>, made: seq<Call>, events: seq<Event>, tail: seq<Event>,
                       fits1: bool, fits2: bool, c1: seq<Call>, c2: seq<Call>)
    requires |inner| <= max
    requires var at := Place(max, inner, Some(CString(own)), made);
             Outcome(setup, Run(setup, at, events), Plus(at, c1), at, fits1, c1)
    requires var mid := Place(max, inner, Some(CString(own)), made + c1);
             Outcome(setup, Run(setup, mid, tail), Place(max, inner, name', made + c1 + c2), mid, fits2, c2)
    ensures var s := Place(max, inner, name, made);
            Outcome(setup, Run(setup, s, [MapKey(own)] + (events + tail)),
                    Place(max, inner, name', made + (c1 + c2)), s, fits1 && fits2, c1 + c2)
  {
    var s, at := Place(max, inner, name, made), Place(max, inner, Some(CString(own)), made);
    assert made + c1 + c2 == made + (c1 + c2);
    KeyRead(setup, max, inner, name, own, made);
    FirstThenRest(setup, s, at, Plus(at, c1), Place(max, inner, name', made + (c1 + c2)),
                  MapKey(own), events, tail, fits1, fits2, c1, c2);
  }

  /** The state cconn_process_json starts from. */
  function Initial(max: nat): (s: Keys)
    ensures s.Fits() && |s.stack| == max
  {
    Place(max, [], None, [])
  }

  /** A whole document whose root is an object: every number, and nothing else, reaches
      the handler under the dotted path of its keys, cut to the buffer. */
  lemma DocumentReported(setup: Setup, max: nat, members: seq<Member>)
    ensures var r := Run(setup, Initial(max), Events(Obj(members)));
            var calls := Calls(setup, [], None, Obj(members));
            && !r.NullKey?
            && (r.Continue? <==> MapHeight(Obj(members)) <= max && AllAccepted(setup, [], calls))
            && (r.Continue? ==> r.s == Initial(max).(calls := calls))
            && Made(r) <= calls
  {
    StreamIsCalls(setup, max, [], None, [], Obj(members));
    var calls := Calls(setup, [], None, Obj(members));
    assert [] + calls == calls;
  }

  // ------------------------------------------------------------------ plain paths

  /** A number of a document: the keys around it, its own key and its text. */
  datatype Found = Found(enclosing: seq<string>, key: string, text: string)

  /** The numbers inside the objects of these keys, in document order. */
  function Finds(enclosing: seq<string>, key: Option<string>, j: Json): seq<Found>
    decreases j, 1
  {
    match j
    case Num(text) => if key.None? then [] else [Found(enclosing, key.value, text)]
    case Arr(items) => ItemFinds(enclosing, key, items)
    case Obj(members) => MemberFinds(Enclose(enclosing, key), members)
    case _ => []
  }

  function ItemFinds(enclosing: seq<string>, key: Option<string>, items: seq<Json>): seq<Found>
    decreases items, 0
  {
    if items == [] then [] else Finds(enclosing, key, items[0]) + ItemFinds(enclosing, key, items[1..])
  }

  function MemberFinds(enclosing: seq<string>, members: seq<Member>): seq<Found>
    decreases members, 0
  {
    if members == [] then []
    else
      Finds(enclosing, Some(CString(members[0].name)), members[0].value) + MemberFinds(enclosing, members[1..])
  }

  /** Every number but the skipped ones, under the plain path of its keys cut to the
      buffer, or under the key that the code builds. */
  function Reported(setup: Setup, plain: bool, found: seq<Found>): seq<Call> {
    if found == [] then []
    else
      var Found(enclosing, key, text) := found[0];
      var name := if plain then Join(enclosing + [key]) else FullKey(enclosing, key);
      (if Skipped(setup, enclosing, key) then [] else [Call(CString(text), Cut(name, KEY_SIZE))])
      + Reported(setup, plain, found[1..])
  }

  lemma {:induction false} ReportedConcat(setup: Setup, plain: bool, a: seq<Found>, b: seq<Found>)
    ensures Reported(setup, plain, a + b) == Reported(setup, plain, a) + Reported(setup, plain, b)
  {
    if a == [] {
      assert a + b == b;
    } else {
      assert (a + b)[1..] == a[1..] + b;
      ReportedConcat(setup, plain, a[1..], b);
    }
  }

  /** The reference makes one call for each number of the document that is not skipped. */
  lemma {:induction false} CallsAreReported(setup: Setup, enclosing: seq<string>, key: Option<string>, j: Json)
    ensures Calls(setup, enclosing, key, j) == Reported(setup, false, Finds(enclosing, key, j))
    decreases j, 1
  {
    match j
    case Num(text) =>
      if key.Some? {
        assert [Found(enclosing, key.value, text)][1..] == [];
      }
    case Arr(items) => ItemCallsAreReported(setup, enclosing, key, items);
    case Obj(members) => MemberCallsAreReported(setup, Enclose(enclosing, key), members);
    case _ =>
  }

  lemma {:induction false} ItemCallsAreReported(setup: Setup, enclosing: seq<string>, key: Option<string>,
                                                items: seq<Json>)
    ensures ItemCalls(setup, enclosing, key, items) == Reported(setup, false, ItemFinds(enclosing, key, items))
    decreases items, 0
  {
    if items != [] {
      CallsAreReported(setup, enclosing, key, items[0]);
      ItemCallsAreReported(setup, enclosing, key, items[1..]);
      ReportedConcat(setup, false, Finds(enclosing, key, items[0]), ItemFinds(enclosing, key, items[1..]));
    }
  }

  lemma {:induction false} MemberCallsAreReported(setup: Setup, enclosing: seq<string>, members: seq<Member>)
    ensures MemberCalls(setup, enclosing, members) == Reported(setup, false, MemberFinds(enclosing, members))
    decreases members, 0
  {
    if members != [] {
      var key := Some(CString(members[0].name));
      CallsAreReported(setup, enclosing, key, members[0].value);
      MemberCallsAreReported(setup, enclosing, members[1..]);
      ReportedConcat(setup, false, Finds(enclosing, key, members[0].value), MemberFinds(enclosing, members[1..]));
    }
  }

  ghost predicate PlainFinds(setup: Setup, found: seq<Found>) {
    forall f :: f in found && !Skipped(setup, f.enclosing, f.key) ==> PlainPath(f.enclosing)
  }

  /** The full keys and the plain paths stay below the size of the buffer. */
  ghost predicate AllFit(found: seq<Found>) {
    forall f :: f in found ==> |FullKey(f.enclosing, f.key)| < KEY_SIZE && |Join(f.enclosing + [f.key])| < KEY_SIZE
  }

  /** Numbers on plain paths are reported under these, cut or not; and as long as
      nothing is cut, only documents with plain paths alone are. */
  lemma {:induction false} ReportedPlain(setup: Setup, found: seq<Found>)
    ensures PlainFinds(setup, found) ==> Reported(setup, true, found) == Reported(setup, false, found)
    ensures AllFit(found) && Reported(setup, true, found) == Reported(setup, false, found) ==> PlainFinds(setup, found)
  {
    if found != [] {
      var f, rest := found[0], found[1..];
      assert found == [f] + rest;
      ReportedPlain(setup, rest);
      FullKeyIsJoin(f.enclosing, f.key);
      var p, q := Reported(setup, true, found), Reported(setup, false, found);
      if Skipped(setup, f.enclosing, f.key) {
        assert p == Reported(setup, true, rest) && q == Reported(setup, false, rest);
      } else {
        assert p[1..] == Reported(setup, true, rest) && q[1..] == Reported(setup, false, rest);
        if AllFit(found) && p == q {
          assert p[0].key == q[0].key;
          assert FullKey(f.enclosing, f.key) == Join(f.enclosing + [f.key]);
        }
      }
    }
  }

  /** A document whose numbers all sit inside an object below the root, and none below a
      leading empty key: each is reported under the plain path of its keys. */
  lemma PlainDocument(setup: Setup, max: nat, members: seq<Member>)
    requires PlainFinds(setup, Finds([], None, Obj(members)))
    ensures var r := Run(setup, Initial(max), Events(Obj(members)));
            var calls := Reported(setup, true, Finds([], None, Obj(members)));
            && !r.NullKey?
            && (r.Continue? <==> MapHeight(Obj(members)) <= max && AllAccepted(setup, [], calls))
            && (r.Continue? ==> r.s == Initial(max).(calls := calls))
            && Made(r) <= calls
  {
    DocumentReported(setup, max, members);
    CallsAreReported(setup, [], None, Obj(members));
    ReportedPlain(setup, Finds([], None, Obj(members)));
  }

  /** The document of the counter with the special case. */
  function Journal(count: string, sum: string): seq<Member> {
    [Member("filestore", Obj([Member("journal_wr_bytes", Pair(count, sum))]))]
  }

  function Pair(count: string, sum: string): Json {
    Obj([Member("avgcount", Num(count)), Member("sum", Num(sum))])
  }

  /** Of its two numbers, the count is skipped if special metrics are converted, and the
      sum is reported either way. */
  lemma JournalCounter(setup: Setup, count: string, sum: string, max: nat)
    requires 3 <= max && forall made, call :: setup.accepts(made, call)
    ensures Run(setup, Initial(max), Events(Obj(Journal(count, sum)))) ==
            Continue(Initial(max).(calls :=
              (if setup.convert then [] else [Call(CString(count), "filestore.journal_wr_bytes.avgcount")])
              + [Call(CString(sum), "filestore.journal_wr_bytes.sum")]))
  {
    JournalFound(count, sum);
    var outer := ["filestore", "journal_wr_bytes"];
    JournalReported(setup, Found(outer, "avgcount", count), Found(outer, "sum", sum));
    AllReported(setup, max, Journal(count, sum));
  }

  lemma JournalFound(count: string, sum: string)
    ensures var outer := ["filestore", "journal_wr_bytes"];
            Finds([], None, Obj(Journal(count, sum))) == [Found(outer, "avgcount", count), Found(outer, "sum", sum)]
    ensures MapHeight(Obj(Journal(count, sum))) == 3
  {
    NestedPair("filestore", "journal_wr_bytes", count, sum);
  }

  lemma NestedPair(a: string, b: string, count: string, sum: string)
    requires '\0' !in a && '\0' !in b
    ensures var root := Obj([Member(a, Obj([Member(b, Pair(count, sum))]))]);
            && Finds([], None, root) == [Found([a, b], "avgcount", count), Found([a, b], "sum", sum)]
            && MapHeight(root) == 3
  {
    TwoLevels(a, b, Pair(count, sum));
    PairFound([a, b], count, sum);
  }

  lemma TwoLevels(a: string, b: string, value: Json)
    requires '\0' !in a && '\0' !in b && value.Obj?
    ensures var members := [Member(a, Obj([Member(b, value)]))];
            && MemberFinds([], members) == MemberFinds([a, b], value.members)
            && MembersMapHeight(members) == 2 + MembersMapHeight(value.members)
  {
    var inner := Obj([Member(b, value)]);
    OnlyMember([], a, inner);
    OnlyMember([a], b, value);
    assert [] + [a] == [a] && [a] + [b] == [a, b];
  }

  /** A document to a handler that accepts everything. */
  lemma AllReported(setup: Setup, max: nat, members: seq<Member>)
    requires MapHeight(Obj(members)) <= max && forall made, call :: setup.accepts(made, call)
    ensures Run(setup, Initial(max), Events(Obj(members))) ==
            Continue(Initial(max).(calls := Reported(setup, false, Finds([], None, Obj(members)))))
  {
    DocumentReported(setup, max, members);
    CallsAreReported(setup, [], None, Obj(members));
    EveryCallAccepted(setup, [], Calls(setup, [], None, Obj(members)));
  }

  lemma OnlyMember(enclosing: seq<string>, name: string, value: Json)
    requires '\0' !in name && value.Obj?
    ensures MemberFinds(enclosing, [Member(name, value)]) == MemberFinds(enclosing + [name], value.members)
    ensures MembersMapHeight([Member(name, value)]) == 1 + MembersMapHeight(value.members)
  {
    var none: seq<Member> := [];
    assert [Member(name, value)][1..] == none && MemberFinds(enclosing, none) == [] && MembersMapHeight(none) == 0;
    WholeName(name);
  }

  lemma {:induction false} WholeName(s: string)
    requires '\0' !in s
    ensures CString(s) == s
  {
    if s != "" {
      WholeName(s[1..]);
    }
  }

  lemma PairFound(outer: seq<string>, count: string, sum: string)
    ensures MemberFinds(outer, Pair(count, sum).members) == [Found(outer, "avgcount", count), Found(outer, "sum", sum)]
    ensures MembersMapHeight(Pair(count, sum).members) == 0
  {
    NumberFound(outer, "avgcount", count, [Member("sum", Num(sum))]);
    NumberFound(outer, "sum", sum, []);
    assert [Member("avgcount", Num(count))] + [Member("sum", Num(sum))] == Pair(count, sum).members;
    assert [Member("sum", Num(sum))] + [] == [Member("sum", Num(sum))];
  }

  lemma NumberFound(outer: seq<string>, name: string, text: string, rest: seq<Member>)
    requires '\0' !in name
    ensures MemberFinds(outer, [Member(name, Num(text))] + rest) == [Found(outer, name, text)] + MemberFinds(outer, rest)
    ensures MembersMapHeight([Member(name, Num(text))] + rest) == MembersMapHeight(rest)
  {
    assert ([Member(name, Num(text))] + rest)[1..] == rest;
    WholeName(name);
  }

  lemma JournalReported(setup: Setup, f: Found, g: Found)
    requires f.enclosing == g.enclosing == ["filestore", "journal_wr_bytes"] && f.key == "avgcount" && g.key == "sum"
    ensures Reported(setup, false, [f, g]) ==
            (if setup.convert then [] else [Call(CString(f.text), "filestore.journal_wr_bytes.avgcount")])
            + [Call(CString(g.text), "filestore.journal_wr_bytes.sum")]
  {
    var outer := f.enclosing;
    assert outer[..1] == ["filestore"] && outer[..1][..0] == [];
    assert Dotted(outer[..1]) == "filestore";
    assert Dotted(outer) == "filestore.journal_wr_bytes";
    assert FullKey(outer, "avgcount") == "filestore.journal_wr_bytes.avgcount";
    assert FullKey(outer, "sum") == "filestore.journal_wr_bytes.sum";
    assert [f, g][1..] == [g] && [g][1..] == [] && Reported(setup, false, []) == [];
  }

  /** Why the root matters: a number outside every object has no key to report it under. */
  lemma {:induction false} BareNumberHasNoKey(setup: Setup, max: nat, made: seq<Call>, j: Json)
    requires Bare(j) && MapHeight(j) <= max
    requires forall before, c :: setup.accepts(before, c)
    ensures Run(setup, Place(max, [], None, made), Events(j)).NullKey?
    decreases j, 1
  {
    var s := Place(max, [], None, made);
    if j.Num? {
      RunOne(setup, s, Event.OnNumber(j.text));
    } else {
      RunConcat(setup, s, [StartArray], ItemEvents(j.items) + [EndArray]);
      RunConcat(setup, s, ItemEvents(j.items), [EndArray]);
      RunOne(setup, s, StartArray);
      BareItemHasNoKey(setup, max, made, j.items);
    }
  }

  lemma {:induction false} BareItemHasNoKey(setup: Setup, max: nat, made: seq<Call>, items: seq<Json>)
    requires BareItems(items) && ItemsMapHeight(items) <= max
    requires forall before, c :: setup.accepts(before, c)
    ensures Run(setup, Place(max, [], None, made), ItemEvents(items)).NullKey?
    decreases items, 0
  {
    var s := Place(max, [], None, made);
    RunConcat(setup, s, Events(items[0]), ItemEvents(items[1..]));
    if Bare(items[0]) {
      BareNumberHasNoKey(setup, max, made, items[0]);
    } else {
      var c1 := Calls(setup, [], None, items[0]);
      StreamIsCalls(setup, max, [], None, made, items[0]);
      EveryCallAccepted(setup, made, c1);
      assert Plus(s, c1) == Place(max, [], None, made + c1);
      BareItemHasNoKey(setup, max, made + c1, items[1..]);
    }
  }

  lemma {:induction false} EveryCallAccepted(setup: Setup, made: seq<Call>, calls: seq<Call>)
    requires forall before, c :: setup.accepts(before, c)
    ensures AllAccepted(setup, made, calls)
    decreases |calls|
  {
    if calls != [] {
      EveryCallAccepted(setup, made + [calls[0]], calls[1..]);
    }
  }

  // ------------------------------------------------------------------- the object

  /** struct yajl_struct with its callbacks. */
  class Parser {
    const setup: Setup
    var key: Option<string>
    var stack: array<Option<string>>
    var depth: nat
    var calls: seq<Call>

    ghost predicate Valid()
      reads this
    {
      depth <= stack.Length
    }

    ghost function View(): (s: Keys)
      requires Valid()
      reads this, stack
      ensures s.Fits()
    {
      Keys(key, stack[..], depth, calls)
    }

    constructor (max: nat, setup: Setup)
      ensures Valid() && fresh(stack) && this.setup == setup && View() == Initial(max)
    {
      this.setup := setup;
      key := None;
      depth := 0;
      calls := [];
      stack := new Option<string>[max](_ => None);
      new;
      assert stack[..] == Initial(max).stack;
    }

    /** The key buffer of ceph_cb_number, filled slot by slot. */
    method StackKey() returns (buffer: string)
      requires Valid()
      ensures buffer == StackText(stack[..depth])
    {
      buffer := "";
      for i := 0 to depth
        invariant buffer == StackText(stack[..i])
      {
        assert stack[..i + 1][..i] == stack[..i];
        if stack[i].Some? {
          if |buffer| != 0 {
            buffer := Add(buffer, ".");
          }
          buffer := Add(buffer, stack[i].value);
        }
      }
    }

    method OnNumber(text: string) returns (ok: bool)
      requires Valid() && key.Some?
      modifies this`calls
      ensures Step(setup, old(View()), Event.OnNumber(text)) == if ok then Continue(View()) else Abort(View())
    {
      var buffer := StackKey();
      if setup.convert && depth > 2 && stack[depth - 2] == Some("filestore")
         && stack[depth - 1] == Some("journal_wr_bytes") && key.value == "avgcount" {
        return true;
      }
      buffer := Add(buffer, ".");
      buffer := Add(buffer, key.value);
      var call := Call(CString(text), buffer);
      ok := setup.accepts(calls, call);
      calls := calls + [call];
    }

    method OnStartMap() returns (ok: bool)
      requires Valid()
      modifies this`key, this`depth, stack
      ensures Valid()
      ensures Step(setup, old(View()), StartMap) == if ok then Continue(View()) else Abort(View())
    {
      if depth == stack.Length {
        return false;
      }
      stack[depth] := key;
      depth := depth + 1;
      key := None;
      return true;
    }

    method OnEndMap() returns (ok: bool)
      requires Valid()
      modifies this`key, this`depth, stack
      ensures Valid()
      ensures Step(setup, old(View()), EndMap) == if ok then Continue(View()) else Abort(View())
    {
      if depth == 0 {
        return false;
      }
      depth := depth - 1;
      key := stack[depth];
      stack[depth] := None;
      return true;
    }

    method OnMapKey(name: string)
      requires Valid()
      modifies this`key
      ensures Step(setup, old(View()), MapKey(name)) == Continue(View())
    {
      key := Some(CString(name));
    }

    /** traverse_json: the callbacks for all events, until one of them aborts. */
    method Parse(events: seq<Event>) returns (ok: bool)
      requires Valid() && !Run(setup, View(), events).NullKey?
      modifies this`key, this`depth, this`calls, stack
      ensures Valid()
      ensures Run(setup, old(View()), events) == if ok then Continue(View()) else Abort(View())
    {
      for i := 0 to |events|
        invariant Valid()
        invariant Run(setup, View(), events[i..]) == Run(setup, old(View()), events)
      {
        assert events[i..][1..] == events[i + 1..];
        ghost var before := View();
        assert Run(setup, before, events[i..]) ==
               match Step(setup, before, events[i])
               case Continue(s') => Run(setup, s', events[i + 1..])
               case stop => stop;
        ok := true;
        match events[i] {
          case OnNumber(text) => ok := OnNumber(text);
          case StartMap => ok := OnStartMap();
          case EndMap => ok := OnEndMap();
          case MapKey(name) => OnMapKey(name);
          case _ =>
        }
        assert Step(setup, before, events[i]) == if ok then Continue(View()) else Abort(View());
        if !ok {
          return false;
        }
      }
      return true;
    }

    /** cconn_process_json on a document with an object at its root: when it goes
        through, the calls are exactly the reference's. */
    method Process(members: seq<Member>) returns (ok: bool)
      requires Valid() && View() == Initial(stack.Length)
      modifies this`key, this`depth, this`calls, stack
      ensures Valid()
      ensures ok <==> MapHeight(Obj(members)) <= stack.Length && AllAccepted(setup, [], Calls(setup, [], None, Obj(members)))
      ensures ok ==> calls == Calls(setup, [], None, Obj(members))
      ensures calls <= Calls(setup, [], None, Obj(members))
    {
      DocumentReported(setup, stack.Length, members);
      ok := Parse(Events(Obj(members)));
    }
  }
}
