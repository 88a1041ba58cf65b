/** JSON documents and the callback events a streaming (SAX) parser such as yajl
    reports for them. Numbers and strings keep their source text. */
module Json {

  datatype Json =
    | Null
    | Bool(b: bool)
    | Num(text: string)
    | Str(text: string)
    | Arr(items: seq<Json>)
    | Obj(members: seq<Member>)

  datatype Member = Member(name: string, value: Json)

  datatype Event =
    | OnNull
    | OnBool(b: bool)
    | OnNumber(text: string)
    | OnString(text: string)
    | StartMap
    | MapKey(name: string)
    | EndMap
    | StartArray
    | EndArray

  function Events(j: Json): seq<Event>
    decreases j, 1
  {
    match j
    case Null => [OnNull]
    case Bool(b) => [OnBool(b)]
    case Num(text) => [OnNumber(text)]
    case Str(text) => [OnString(text)]
    case Arr(items) => [StartArray] + (ItemEvents(items) + [EndArray])
    case Obj(members) => [StartMap] + (MemberEvents(members) + [EndMap])
  }

  function ItemEvents(items: seq<Json>): seq<Event>
    decreases items, 0
  {
    if items == [] then [] else Events(items[0]) + ItemEvents(items[1..])
  }

  function MemberEvents(members: seq<Member>): seq<Event>
    decreases members, 0
  {
    if members == [] then []
    else [MapKey(members[0].name)] + (Events(members[0].value) + MemberEvents(members[1..]))
  }

  /** Nesting depth in arrays and maps; scalars have height 0. */
  function Height(j: Json): nat
    decreases j, 1
  {
    match j
    case Arr(items) => 1 + ItemsHeight(items)
    case Obj(members) => 1 + MembersHeight(members)
    case _ => 0
  }

  function ItemsHeight(items: seq<Json>): nat
    decreases items, 0
  {
    if items == [] then 0
    else
      var h, t := Height(items[0]), ItemsHeight(items[1..]);
      if h < t then t else h
  }

  function MembersHeight(members: seq<Member>): nat
    decreases members, 0
  {
    if members == [] then 0
    else
      var h, t := Height(members[0].value), MembersHeight(members[1..]);
      if h < t then t else h
  }

  /** The well-nesting that a JSON parser guarantees: starting `depth` levels deep,
      no end event arrives without its start, and keys arrive only inside a map. */
  predicate Nested(events: seq<Event>, depth: nat)
    decreases |events|
  {
    events == [] ||
    match events[0]
    case StartMap => Nested(events[1..], depth + 1)
    case StartArray => Nested(events[1..], depth + 1)
    case EndMap => 0 < depth && Nested(events[1..], depth - 1)
    case EndArray => 0 < depth && Nested(events[1..], depth - 1)
    case MapKey(_) => 0 < depth && Nested(events[1..], depth)
    case _ => Nested(events[1..], depth)
  }

  lemma NestedFirst(event: Event, tail: seq<Event>, depth: nat)
    ensures Nested([event] + tail, depth) ==
            match event
            case StartMap => Nested(tail, depth + 1)
            case StartArray => Nested(tail, depth + 1)
            case EndMap => 0 < depth && Nested(tail, depth - 1)
            case EndArray => 0 < depth && Nested(tail, depth - 1)
            case MapKey(_) => 0 < depth && Nested(tail, depth)
            case _ => Nested(tail, depth)
  {
    assert ([event] + tail)[1..] == tail;
  }

  lemma Enclosed(open: Event, body: seq<Event>, close: Event, rest: seq<Event>, depth: nat)
    requires open.StartArray? || open.StartMap?
    requires Nested(body + ([close] + rest), depth + 1)
    ensures Nested([open] + (body + [close]) + rest, depth)
  {
    NestedFirst(open, body + ([close] + rest), depth);
    assert [open] + (body + [close]) + rest == [open] + (body + ([close] + rest));
  }

  /** The events of a document are well nested, whatever follows them. */
  lemma {:induction false} EventsNested(j: Json, depth: nat, rest: seq<Event>)
    requires Nested(rest, depth)
    ensures Nested(Events(j) + rest, depth)
    decreases j, 1
  {
    match j
    case Arr(items) =>
      NestedFirst(EndArray, rest, depth + 1);
      ItemEventsNested(items, depth + 1, [EndArray] + rest);
      Enclosed(StartArray, ItemEvents(items), EndArray, rest, depth);
    case Obj(members) =>
      NestedFirst(EndMap, rest, depth + 1);
      MemberEventsNested(members, depth + 1, [EndMap] + rest);
      Enclosed(StartMap, MemberEvents(members), EndMap, rest, depth);
    case _ =>
      assert (Events(j) + rest)[1..] == rest;
  }

  lemma {:induction false} ItemEventsNested(items: seq<Json>, depth: nat, rest: seq<Event>)
    requires Nested(rest, depth)
    ensures Nested(ItemEvents(items) + rest, depth)
    decreases items, 0
  {
    if items == [] {
      assert ItemEvents(items) + rest == rest;
    } else {
      ItemEventsNested(items[1..], depth, rest);
      EventsNested(items[0], depth, ItemEvents(items[1..]) + rest);
      assert ItemEvents(items) + rest == Events(items[0]) + (ItemEvents(items[1..]) + rest);
    }
  }

  lemma {:induction false} MemberEventsNested(members: seq<Member>, depth: nat, rest: seq<Event>)
    requires Nested(rest, depth) && 0 < depth
    ensures Nested(MemberEvents(members) + rest, depth)
    decreases members, 0
  {
    if members == [] {
      assert MemberEvents(members) + rest == rest;
    } else {
      MemberEventsNested(members[1..], depth, rest);
      var tail := Events(members[0].value) + (MemberEvents(members[1..]) + rest);
      EventsNested(members[0].value, depth, MemberEvents(members[1..]) + rest);
      NestedFirst(MapKey(members[0].name), tail, depth);
      assert MemberEvents(members) + rest == [MapKey(members[0].name)] + tail;
    }
  }
}
