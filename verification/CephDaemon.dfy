/** A ceph daemon in src/ceph.c from its documents to the dispatched values: the schema
    document defines names and types, and every data document is streamed through the key
    stack into the handler, which looks types up by name and averages latencies. This
    module composes CephKeys, CephNames and CephCounters. */
module CephDaemon {
  import opened Common
  import opened Json
  import CephKeys
  import CephNames
  import CephCounters

  /** sscanf of a value, and atoi of a schema type. */
  type Reader = string -> CephCounters.Reading
  type TypeReader = string -> bv32

  // ------------------------------------------------------------------- data handler

  /** The has_suffix tests of node_handler_fetch_data. */
  function SuffixOf(key: string): CephCounters.Suffix {
    if CephNames.HasSuffix(key, ".avgcount") then CephCounters.AvgCount
    else if CephNames.HasSuffix(key, ".sum") then CephCounters.Sum
    else if CephNames.HasSuffix(key, ".avgtime") then CephCounters.AvgTime
    else CephCounters.NoSuffix
  }

  function NameOfKey(key: string): string {
    if key == "" then "" else CephNames.DsName(key)
  }

  /** A handler call as node_handler_fetch_data understands it. */
  function NumberOf(read: Reader, call: CephKeys.Call): CephCounters.Number {
    CephCounters.Number(NameOfKey(call.key), SuffixOf(call.key), read(call.value))
  }

  function NumbersOf(read: Reader, calls: seq<CephKeys.Call>): (r: seq<CephCounters.Number>)
    ensures |r| == |calls| && forall i :: 0 <= i < |r| ==> r[i] == NumberOf(read, calls[i])
  {
    seq(|calls|, i requires 0 <= i < |calls| => NumberOf(read, calls[i]))
  }

  lemma NumbersOfConcat(read: Reader, a: seq<CephKeys.Call>, b: seq<CephKeys.Call>)
    ensures NumbersOf(read, a + b) == NumbersOf(read, a) + NumbersOf(read, b)
  {
  }

  /** Does the handler return 0 for this call, after those it has already had? parse_keys
      refuses an empty key. */
  predicate Accepts(d: CephCounters.Schema, longRun: bool, read: Reader, start: CephCounters.Session,
                    made: seq<CephKeys.Call>, call: CephKeys.Call)
    requires d.Valid() && d.names != []
  {
    call.key != "" &&
    match CephCounters.FetchAll(d, longRun, start, NumbersOf(read, made))
    case None => false
    case Some(s) => CephCounters.FetchAll(d, longRun, s, [NumberOf(read, call)]).Some?
  }

  /** The parser with this handler. */
  function Fetching(convert: bool, d: CephCounters.Schema, longRun: bool, read: Reader, start: CephCounters.Session)
    : CephKeys.Setup
    requires d.Valid() && d.names != []
  {
    CephKeys.Setup(convert, (made, call) => Accepts(d, longRun, read, start, made, call))
  }

  predicate Keyed(calls: seq<CephKeys.Call>) {
    forall i :: 0 <= i < |calls| ==> calls[i].key != ""
  }

  /** The calls are accepted one by one exactly if the handler gets through all of them. */
  lemma {:induction false} AcceptedIsFetched(
    convert: bool, d: CephCounters.Schema, longRun: bool, read: Reader, start: CephCounters.Session,
    made: seq<CephKeys.Call>, s: CephCounters.Session, calls: seq<CephKeys.Call>)
    requires d.Valid() && d.names != [] && Keyed(calls)
    requires CephCounters.FetchAll(d, longRun, start, NumbersOf(read, made)) == Some(s)
    ensures CephKeys.AllAccepted(Fetching(convert, d, longRun, read, start), made, calls)
       <==> CephCounters.FetchAll(d, longRun, s, NumbersOf(read, calls)).Some?
    decreases |calls|
  {
    if calls != [] {
      var call, rest := calls[0], calls[1..];
      var one := CephCounters.FetchAll(d, longRun, s, [NumberOf(read, call)]);
      FirstCall(d, longRun, read, s, calls);
      assert CephKeys.AllAccepted(Fetching(convert, d, longRun, read, start), made, calls)
        <==> one.Some? && CephKeys.AllAccepted(Fetching(convert, d, longRun, read, start), made + [call], rest);
      if one.Some? {
        OneMoreCall(d, longRun, read, start, made, s, call);
        AcceptedIsFetched(convert, d, longRun, read, start, made + [call], one.value, rest);
      }
    }
  }

  lemma FirstCall(d: CephCounters.Schema, longRun: bool, read: Reader, s: CephCounters.Session, calls: seq<CephKeys.Call>)
    requires d.Valid() && d.names != [] && calls != []
    ensures CephCounters.FetchAll(d, longRun, s, NumbersOf(read, calls)) ==
            match CephCounters.FetchAll(d, longRun, s, [NumberOf(read, calls[0])])
            case None => None
            case Some(s') => CephCounters.FetchAll(d, longRun, s', NumbersOf(read, calls[1..]))
  {
    assert calls == [calls[0]] + calls[1..];
    NumbersOfConcat(read, [calls[0]], calls[1..]);
    assert NumbersOf(read, [calls[0]]) == [NumberOf(read, calls[0])];
    CephCounters.FetchAllConcat(d, longRun, s, [NumberOf(read, calls[0])], NumbersOf(read, calls[1..]));
  }

  lemma OneMoreCall(d: CephCounters.Schema, longRun: bool, read: Reader, start: CephCounters.Session,
                    made: seq<CephKeys.Call>, s: CephCounters.Session, call: CephKeys.Call)
    requires d.Valid() && d.names != []
    requires CephCounters.FetchAll(d, longRun, start, NumbersOf(read, made)) == Some(s)
    ensures CephCounters.FetchAll(d, longRun, start, NumbersOf(read, made + [call]))
         == CephCounters.FetchAll(d, longRun, s, [NumberOf(read, call)])
  {
    NumbersOfConcat(read, made, [call]);
    assert NumbersOf(read, [call]) == [NumberOf(read, call)];
    CephCounters.FetchAllConcat(d, longRun, start, NumbersOf(read, made), [NumberOf(read, call)]);
  }

  lemma {:induction false} ReportedKeyed(setup: CephKeys.Setup, found: seq<CephKeys.Found>)
    ensures Keyed(CephKeys.Reported(setup, false, found))
  {
    if found != [] {
      ReportedKeyed(setup, found[1..]);
    }
  }

  /** Any document with an object at its root: it is parsed to the end exactly if its
      nesting fits and the handler gets through the numbers that its calls stand for. */
  lemma DocumentFetched(convert: bool, d: CephCounters.Schema, longRun: bool, read: Reader,
                        start: CephCounters.Session, max: nat, members: seq<Member>)
    requires d.Valid() && d.names != []
    ensures var setup := Fetching(convert, d, longRun, read, start);
            var r := CephKeys.Run(setup, CephKeys.Initial(max), Events(Obj(members)));
            var calls := CephKeys.Reported(setup, false, CephKeys.Finds([], None, Obj(members)));
            && !r.NullKey?
            && (r.Continue? <==>
                  && CephKeys.MapHeight(Obj(members)) <= max
                  && CephCounters.FetchAll(d, longRun, start, NumbersOf(read, calls)).Some?)
            && (r.Continue? ==> r.s.calls == calls)
  {
    var setup := Fetching(convert, d, longRun, read, start);
    var found := CephKeys.Finds([], None, Obj(members));
    CephKeys.DocumentReported(setup, max, members);
    CephKeys.CallsAreReported(setup, [], None, Obj(members));
    ReportedKeyed(setup, found);
    assert NumbersOf(read, []) == [];
    AcceptedIsFetched(convert, d, longRun, read, start, [], start, CephKeys.Reported(setup, false, found));
  }

  // ----------------------------------------------------------------- schema handler

  const JOURNAL: string := "filestore" + "." + "journal_wr_bytes"

  /** ceph_daemon_add_ds_entry: the type of a schema entry. */
  function TypeOf(convert: bool, atoi: TypeReader, call: CephKeys.Call): CephCounters.DsType {
    var pc := if convert && call.key == JOURNAL + ".type" then 10 else atoi(call.value);
    if pc & 8 != 0 then CephCounters.Rate else if pc & 4 != 0 then CephCounters.Latency else CephCounters.Bytes
  }

  /** The schema that the calls of a schema document define. */
  function SchemaOf(convert: bool, atoi: TypeReader, calls: seq<CephKeys.Call>): (d: CephCounters.Schema)
    requires Keyed(calls)
    ensures d.Valid() && |d.names| == |calls|
  {
    CephCounters.Schema(
      seq(|calls|, i requires 0 <= i < |calls| => CephNames.StoredName(calls[i].key)),
      seq(|calls|, i requires 0 <= i < |calls| => TypeOf(convert, atoi, calls[i])))
  }

  /** The parser with node_handler_define_schema, which refuses nothing but an empty key. */
  function Defining(convert: bool): CephKeys.Setup {
    CephKeys.Setup(convert, (made, call: CephKeys.Call) => call.key != "")
  }

  lemma {:induction false} DefiningAccepts(convert: bool, made: seq<CephKeys.Call>, calls: seq<CephKeys.Call>)
    requires Keyed(calls)
    ensures CephKeys.AllAccepted(Defining(convert), made, calls)
    decreases |calls|
  {
    if calls != [] {
      DefiningAccepts(convert, made + [calls[0]], calls[1..]);
    }
  }

  // ---------------------------------------------------------------------- documents

  /** What a counter reports, as texts: one number, or the pair of a latency, followed by
      an average on newer daemons. */
  datatype Value = One(text: string) | Pair(count: string, sum: string, average: Option<string>)

  /** A counter with the text of its schema type, and a section of counters. */
  datatype Leaf = Leaf(name: string, typ: string, value: Value)
  datatype Section = Section(name: string, leaves: seq<Leaf>)

  /** A number in the object of a counter. */
  datatype Field = Field(name: string, text: string)

  function PairFields(value: Value): seq<Field>
    requires value.Pair?
  {
    [Field("avgcount", value.count), Field("sum", value.sum)]
    + (if value.average.None? then [] else [Field("avgtime", value.average.value)])
  }

  function FieldMembers(fields: seq<Field>): seq<Member> {
    if fields == [] then [] else [Member(fields[0].name, Num(fields[0].text))] + FieldMembers(fields[1..])
  }

  function LeafJson(data: bool, leaf: Leaf): Json {
    if !data then Obj(FieldMembers([Field("type", leaf.typ)]))
    else if leaf.value.One? then Num(leaf.value.text)
    else Obj(FieldMembers(PairFields(leaf.value)))
  }

  function LeafMembers(data: bool, leaves: seq<Leaf>): seq<Member> {
    if leaves == [] then [] else [Member(leaves[0].name, LeafJson(data, leaves[0]))] + LeafMembers(data, leaves[1..])
  }

  /** The members of a data document, or of a schema document, with these sections. */
  function SectionMembers(data: bool, sections: seq<Section>): seq<Member> {
    if sections == [] then []
    else
      [Member(sections[0].name, Obj(LeafMembers(data, sections[0].leaves)))] + SectionMembers(data, sections[1..])
  }

  /** A counter in its section. */
  datatype Entry = Entry(section: string, leaf: Leaf)

  function Entries(section: string, leaves: seq<Leaf>): (r: seq<Entry>)
    ensures |r| == |leaves|
  {
    if leaves == [] then [] else [Entry(section, leaves[0])] + Entries(section, leaves[1..])
  }

  function Flat(sections: seq<Section>): seq<Entry> {
    if sections == [] then [] else Entries(sections[0].name, sections[0].leaves) + Flat(sections[1..])
  }

  /** The dotted key of a counter. */
  function CounterOf(e: Entry): (r: string)
    ensures r != ""
  {
    CString(e.section) + "." + CString(e.leaf.name)
  }

  function FieldFinds(outer: seq<string>, fields: seq<Field>): seq<CephKeys.Found> {
    if fields == [] then []
    else [CephKeys.Found(outer, fields[0].name, fields[0].text)] + FieldFinds(outer, fields[1..])
  }

  /** The numbers of a counter, with the keys around them. */
  function EntryFinds(data: bool, e: Entry): seq<CephKeys.Found> {
    var section, name := CString(e.section), CString(e.leaf.name);
    if !data then FieldFinds([section, name], [Field("type", e.leaf.typ)])
    else if e.leaf.value.One? then [CephKeys.Found([section], name, e.leaf.value.text)]
    else FieldFinds([section, name], PairFields(e.leaf.value))
  }

  function AllFinds(data: bool, entries: seq<Entry>): seq<CephKeys.Found> {
    if entries == [] then [] else EntryFinds(data, entries[0]) + AllFinds(data, entries[1..])
  }

  lemma {:induction false} AllFindsConcat(data: bool, a: seq<Entry>, b: seq<Entry>)
    ensures AllFinds(data, a + b) == AllFinds(data, a) + AllFinds(data, b)
  {
    if a == [] {
      assert a + b == b;
    } else {
      assert (a + b)[1..] == a[1..] + b;
      AllFindsConcat(data, a[1..], b);
    }
  }

  lemma LeafFinds(data: bool, section: string, leaf: Leaf)
    ensures CephKeys.Finds([CString(section)], Some(CString(leaf.name)), LeafJson(data, leaf))
         == EntryFinds(data, Entry(section, leaf))
  {
    var outer := [CString(section)] + [CString(leaf.name)];
    assert outer == [CString(section), CString(leaf.name)];
    FieldsFound(outer, if data && leaf.value.Pair? then PairFields(leaf.value) else [Field("type", leaf.typ)]);
  }

  predicate FieldName(name: string) {
    name in {"type", "avgcount", "sum", "avgtime"}
  }

  lemma {:induction false} FieldsFound(outer: seq<string>, fields: seq<Field>)
    requires forall i :: 0 <= i < |fields| ==> FieldName(fields[i].name)
    ensures CephKeys.MemberFinds(outer, FieldMembers(fields)) == FieldFinds(outer, fields)
  {
    if fields != [] {
      var first, rest := Member(fields[0].name, Num(fields[0].text)), FieldMembers(fields[1..]);
      assert ([first] + rest)[1..] == rest;
      WholeCString(fields[0].name);
      FieldsFound(outer, fields[1..]);
    }
  }

  lemma {:induction false} WholeCString(s: string)
    requires '\0' !in s
    ensures CString(s) == s
  {
    if s != "" {
      WholeCString(s[1..]);
    }
  }

  lemma {:induction false} LeavesFinds(data: bool, section: string, leaves: seq<Leaf>)
    ensures CephKeys.MemberFinds([CString(section)], LeafMembers(data, leaves)) == AllFinds(data, Entries(section, leaves))
  {
    if leaves != [] {
      var first, rest := Member(leaves[0].name, LeafJson(data, leaves[0])), LeafMembers(data, leaves[1..]);
      assert ([first] + rest)[1..] == rest;
      assert Entries(section, leaves)[1..] == Entries(section, leaves[1..]);
      LeafFinds(data, section, leaves[0]);
      LeavesFinds(data, section, leaves[1..]);
    }
  }

  /** The numbers of a document are those of its counters, in order. */
  lemma {:induction false} DocumentFinds(data: bool, sections: seq<Section>)
    ensures CephKeys.MemberFinds([], SectionMembers(data, sections)) == AllFinds(data, Flat(sections))
  {
    if sections != [] {
      var s := sections[0];
      var first, rest := Member(s.name, Obj(LeafMembers(data, s.leaves))), SectionMembers(data, sections[1..]);
      assert ([first] + rest)[1..] == rest;
      assert [] + [CString(s.name)] == [CString(s.name)];
      LeavesFinds(data, s.name, s.leaves);
      DocumentFinds(data, sections[1..]);
      AllFindsConcat(data, Entries(s.name, s.leaves), Flat(sections[1..]));
    }
  }

  // ------------------------------------------------------------ calls of a document

  /** A counter in a named section, whose keys fit the buffer. */
  predicate Fitting(e: Entry) {
    CString(e.section) != "" && |CounterOf(e)| + |".avgcount"| < CephKeys.KEY_SIZE
  }

  predicate AllFitting(entries: seq<Entry>) {
    forall i :: 0 <= i < |entries| ==> Fitting(entries[i])
  }

  /** A counter in a named section, whose keys fit the buffer, that is not the one with a
      special case; a plain number's key does not look like a part of a latency. */
  predicate Ordinary(convert: bool, e: Entry) {
    && Fitting(e)
    && (convert ==> CounterOf(e) != JOURNAL)
    && (e.leaf.value.One? ==> CephNames.KnownSuffix(CounterOf(e)) == "")
  }

  predicate AllOrdinary(convert: bool, entries: seq<Entry>) {
    forall i :: 0 <= i < |entries| ==> Ordinary(convert, entries[i])
  }

  function FieldCalls(counter: string, fields: seq<Field>): seq<CephKeys.Call> {
    if fields == [] then []
    else [CephKeys.Call(CString(fields[0].text), counter + ("." + fields[0].name))] + FieldCalls(counter, fields[1..])
  }

  /** The handler calls for a counter. */
  function EntryCalls(data: bool, e: Entry): seq<CephKeys.Call> {
    if !data then FieldCalls(CounterOf(e), [Field("type", e.leaf.typ)])
    else if e.leaf.value.One? then [CephKeys.Call(CString(e.leaf.value.text), CounterOf(e))]
    else FieldCalls(CounterOf(e), PairFields(e.leaf.value))
  }

  function AllCalls(data: bool, entries: seq<Entry>): seq<CephKeys.Call> {
    if entries == [] then [] else EntryCalls(data, entries[0]) + AllCalls(data, entries[1..])
  }

  lemma FieldKey(setup: CephKeys.Setup, e: Entry, name: string)
    requires Fitting(e) && FieldName(name) && (name == "type" || Ordinary(setup.convert, e))
    ensures var outer := [CString(e.section), CString(e.leaf.name)];
            && CephKeys.FullKey(outer, name) == CounterOf(e) + ("." + name)
            && |CephKeys.FullKey(outer, name)| < CephKeys.KEY_SIZE
            && !CephKeys.Skipped(setup, outer, name)
  {
    var outer := [CString(e.section), CString(e.leaf.name)];
    TwoKeys(CString(e.section), CString(e.leaf.name));
    assert CounterOf(e) + "." + name == CounterOf(e) + ("." + name);
    assert |name| <= 8;
  }

  lemma TwoKeys(section: string, name: string)
    requires section != ""
    ensures CephKeys.Dotted([section]) == section
    ensures CephKeys.Dotted([section, name]) == section + "." + name
  {
    assert [section][..0] == [] && [section, name][..1] == [section];
    assert CephKeys.Dotted([]) == "";
  }

  lemma {:induction false} FieldsReported(setup: CephKeys.Setup, e: Entry, fields: seq<Field>)
    requires Fitting(e) && forall i :: 0 <= i < |fields| ==> FieldName(fields[i].name)
    requires Ordinary(setup.convert, e) || forall i :: 0 <= i < |fields| ==> fields[i].name == "type"
    ensures CephKeys.Reported(setup, false, FieldFinds([CString(e.section), CString(e.leaf.name)], fields))
         == FieldCalls(CounterOf(e), fields)
  {
    if fields != [] {
      FieldKey(setup, e, fields[0].name);
      FieldsReported(setup, e, fields[1..]);
    }
  }

  lemma EntryReported(setup: CephKeys.Setup, data: bool, e: Entry)
    requires if data then Ordinary(setup.convert, e) else Fitting(e)
    ensures CephKeys.Reported(setup, false, EntryFinds(data, e)) == EntryCalls(data, e)
  {
    if !data {
      FieldsReported(setup, e, [Field("type", e.leaf.typ)]);
    } else if e.leaf.value.Pair? {
      FieldsReported(setup, e, PairFields(e.leaf.value));
    } else {
      TwoKeys(CString(e.section), CString(e.leaf.name));
      var found := EntryFinds(data, e);
      assert found[1..] == [] && CephKeys.Reported(setup, false, []) == [];
      assert CephKeys.FullKey([CString(e.section)], CString(e.leaf.name)) == CounterOf(e);
    }
  }

  lemma {:induction false} AllReported(setup: CephKeys.Setup, data: bool, entries: seq<Entry>)
    requires if data then AllOrdinary(setup.convert, entries) else AllFitting(entries)
    ensures CephKeys.Reported(setup, false, AllFinds(data, entries)) == AllCalls(data, entries)
  {
    if entries != [] {
      EntryReported(setup, data, entries[0]);
      AllReported(setup, data, entries[1..]);
      CephKeys.ReportedConcat(setup, false, EntryFinds(data, entries[0]), AllFinds(data, entries[1..]));
    }
  }

  lemma {:induction false} CallsKeyed(data: bool, entries: seq<Entry>)
    ensures Keyed(AllCalls(data, entries))
  {
    if entries != [] {
      CallsKeyed(data, entries[1..]);
      var e := entries[0];
      FieldsKeyed(CounterOf(e), if data && e.leaf.value.Pair? then PairFields(e.leaf.value) else [Field("type", e.leaf.typ)]);
    }
  }

  lemma {:induction false} FieldsKeyed(counter: string, fields: seq<Field>)
    ensures Keyed(FieldCalls(counter, fields)) && |FieldCalls(counter, fields)| == |fields|
    ensures forall i :: 0 <= i < |fields| ==>
              FieldCalls(counter, fields)[i] == CephKeys.Call(CString(fields[i].text), counter + ("." + fields[i].name))
  {
    if fields != [] {
      FieldsKeyed(counter, fields[1..]);
    }
  }

  /** The objects of a document are nested three deep at most. */
  lemma {:induction false} DocumentHeight(data: bool, sections: seq<Section>)
    ensures CephKeys.MembersMapHeight(SectionMembers(data, sections)) <= 2
  {
    if sections != [] {
      var first := Member(sections[0].name, Obj(LeafMembers(data, sections[0].leaves)));
      assert ([first] + SectionMembers(data, sections[1..]))[1..] == SectionMembers(data, sections[1..]);
      LeavesHeight(data, sections[0].leaves);
      DocumentHeight(data, sections[1..]);
    }
  }

  lemma {:induction false} LeavesHeight(data: bool, leaves: seq<Leaf>)
    ensures CephKeys.MembersMapHeight(LeafMembers(data, leaves)) <= 1
  {
    if leaves != [] {
      var first := Member(leaves[0].name, LeafJson(data, leaves[0]));
      assert ([first] + LeafMembers(data, leaves[1..]))[1..] == LeafMembers(data, leaves[1..]);
      FieldsHeight(if data && leaves[0].value.Pair? then PairFields(leaves[0].value) else [Field("type", leaves[0].typ)]);
      LeavesHeight(data, leaves[1..]);
    }
  }

  lemma {:induction false} FieldsHeight(fields: seq<Field>)
    ensures CephKeys.MembersMapHeight(FieldMembers(fields)) == 0
  {
    if fields != [] {
      var first := Member(fields[0].name, Num(fields[0].text));
      assert ([first] + FieldMembers(fields[1..]))[1..] == FieldMembers(fields[1..]);
      FieldsHeight(fields[1..]);
    }
  }

  // --------------------------------------------------------------- names of counters

  /** The name a counter is sent under. */
  function NameOf(e: Entry): string {
    CephNames.Compact(CounterOf(e), NAME_LEN)
  }

  function NamesOf(entries: seq<Entry>): (r: seq<string>)
    ensures |r| == |entries| && forall i :: 0 <= i < |r| ==> r[i] == NameOf(entries[i])
  {
    seq(|entries|, i requires 0 <= i < |entries| => NameOf(entries[i]))
  }

  lemma CounterHasDot(e: Entry)
    requires CString(e.section) != ""
    ensures CephNames.Dots(CounterOf(e)[1..]) > 0
  {
    var section, tail := CString(e.section), "." + CString(e.leaf.name);
    assert CounterOf(e)[1..] == section[1..] + tail;
    CephNames.DotsConcat(section[1..], tail);
  }

  /** What a suffix says. */
  function Meaning(suffix: string): CephCounters.Suffix {
    if suffix == ".avgcount" then CephCounters.AvgCount
    else if suffix == ".sum" then CephCounters.Sum
    else if suffix == ".avgtime" then CephCounters.AvgTime
    else CephCounters.NoSuffix
  }

  lemma SuffixMeans(key: string, suffix: string)
    requires suffix in CephNames.SUFFIXES && CephNames.HasSuffix(key, suffix)
    ensures SuffixOf(key) == Meaning(suffix)
  {
    CephNames.OneSuffix(key, suffix);
    assert ".avgcount" in CephNames.SUFFIXES && ".sum" in CephNames.SUFFIXES && ".avgtime" in CephNames.SUFFIXES;
  }

  /** All keys of a counter stand for its name, and say by their suffix what they bring. */
  lemma FieldNameOf(convert: bool, e: Entry, suffix: string)
    requires Ordinary(convert, e) && suffix in CephNames.SUFFIXES
    ensures NameOfKey(CounterOf(e) + suffix) == NameOf(e) && SuffixOf(CounterOf(e) + suffix) == Meaning(suffix)
  {
    var key := CounterOf(e) + suffix;
    CounterHasDot(e);
    CephNames.SuffixesAgree(CounterOf(e), suffix);
    assert key[|key| - |suffix|..] == suffix;
    SuffixMeans(key, suffix);
  }

  lemma PlainNameOf(convert: bool, e: Entry)
    requires Ordinary(convert, e) && e.leaf.value.One?
    ensures NameOfKey(CounterOf(e)) == NameOf(e) && SuffixOf(CounterOf(e)) == CephCounters.NoSuffix
  {
    assert CephNames.Stripped(CounterOf(e)) == CounterOf(e);
  }

  /** The schema that a schema document with these counters defines. */
  function SchemaFor(convert: bool, atoi: TypeReader, entries: seq<Entry>): (d: CephCounters.Schema)
    ensures d.Valid() && |d.names| == |entries|
  {
    CallsKeyed(false, entries);
    SchemaCalls(entries);
    SchemaOf(convert, atoi, AllCalls(false, entries))
  }

  lemma {:induction false} SchemaCalls(entries: seq<Entry>)
    ensures |AllCalls(false, entries)| == |entries|
    ensures forall i :: 0 <= i < |entries| ==>
              AllCalls(false, entries)[i] == CephKeys.Call(CString(entries[i].leaf.typ), CounterOf(entries[i]) + ".type")
  {
    if entries != [] {
      SchemaCalls(entries[1..]);
      var e := entries[0];
      FieldsKeyed(CounterOf(e), [Field("type", e.leaf.typ)]);
      assert "." + "type" == ".type";
      assert EntryCalls(false, e) == [CephKeys.Call(CString(e.leaf.typ), CounterOf(e) + ".type")];
    }
  }

  predicate Bit(n: bv32, k: nat)
    requires k < 32
  {
    (n >> k) & 1 == 1
  }

  /** What a type number says: bit 3 marks a counter that is reported as a rate; without
      it, bit 2 marks a latency; all others are plain sizes. */
  predicate Means(typ: CephCounters.DsType, n: bv32) {
    match typ
    case Rate => Bit(n, 3)
    case Latency => !Bit(n, 3) && Bit(n, 2)
    case Bytes => !Bit(n, 3) && !Bit(n, 2)
  }

  lemma TypeNumbers()
    ensures Means(CephCounters.Rate, 10) && Means(CephCounters.Latency, 5) && Means(CephCounters.Bytes, 2)
    ensures forall typ, n :: Means(typ, n) ==> typ == if Bit(n, 3) then CephCounters.Rate
                                                      else if Bit(n, 2) then CephCounters.Latency
                                                      else CephCounters.Bytes
  {
  }

  /** The number in the schema document, which does not count for one special counter. */
  function TypeNumber(convert: bool, atoi: TypeReader, e: Entry): bv32 {
    if convert && CounterOf(e) == "filestore.journal_wr_bytes" then 10 else atoi(CString(e.leaf.typ))
  }

  lemma TypeMeans(convert: bool, atoi: TypeReader, entries: seq<Entry>, i: nat)
    requires i < |entries|
    ensures Means(SchemaFor(convert, atoi, entries).types[i], TypeNumber(convert, atoi, entries[i]))
  {
    CallsKeyed(false, entries);
    SchemaCalls(entries);
    var call := AllCalls(false, entries)[i];
    SameWithSuffix(CounterOf(entries[i]), JOURNAL, ".type");
    assert JOURNAL == "filestore.journal_wr_bytes";
    BitsOf(TypeNumber(convert, atoi, entries[i]));
  }

  lemma SameWithSuffix(a: string, b: string, suffix: string)
    ensures a + suffix == b + suffix <==> a == b
  {
    assert (a + suffix)[..|a + suffix| - |suffix|] == a && (b + suffix)[..|b + suffix| - |suffix|] == b;
  }

  lemma BitsOf(n: bv32)
    ensures Bit(n, 3) <==> n & 8 != 0
    ensures Bit(n, 2) <==> n & 4 != 0
  {
  }

  /** The schema keeps the names that the data will use, as far as it can. */
  lemma SchemaStored(convert: bool, atoi: TypeReader, entries: seq<Entry>)
    requires AllOrdinary(convert, entries)
    ensures CephCounters.StoredFrom(SchemaFor(convert, atoi, entries), NamesOf(entries))
  {
    CallsKeyed(false, entries);
    SchemaCalls(entries);
    var d := SchemaFor(convert, atoi, entries);
    forall k | 0 <= k < |entries|
      ensures |NameOf(entries[k])| < NAME_LEN && d.names[k] == Cut(NameOf(entries[k]), NAME_LEN - 1)
    {
      CounterHasDot(entries[k]);
      CephNames.SuffixesAgree(CounterOf(entries[k]), ".type");
      CephNames.CompactMeaning(CounterOf(entries[k]), NAME_LEN);
    }
  }

  // ----------------------------------------------------------- numbers of a document

  /** Do two numbers mean the same to a handler that takes the name for one of this type? */
  predicate SameFor(typ: Option<CephCounters.DsType>, a: CephCounters.Number, b: CephCounters.Number) {
    match typ
    case None => true
    case Some(Latency) =>
      && a.suffix == b.suffix
      && (a.suffix == CephCounters.AvgCount ==> a.val.asUint == b.val.asUint)
      && (a.suffix == CephCounters.Sum || a.suffix == CephCounters.AvgTime ==> a.val.asReal == b.val.asReal)
    case Some(_) => a.val == b.val
  }

  ghost predicate Alike(d: CephCounters.Schema, a: CephCounters.Number, b: CephCounters.Number)
    requires d.Valid() && d.names != []
  {
    a.name == b.name && forall index: nat :: SameFor(CephCounters.GuessType(d, index, a.name), a, b)
  }

  ghost predicate AllAlike(d: CephCounters.Schema, a: seq<CephCounters.Number>, b: seq<CephCounters.Number>)
    requires d.Valid() && d.names != []
  {
    |a| == |b| && forall i :: 0 <= i < |a| ==> Alike(d, a[i], b[i])
  }

  lemma AllAlikeConcat(d: CephCounters.Schema, a: seq<CephCounters.Number>, b: seq<CephCounters.Number>,
                       a': seq<CephCounters.Number>, b': seq<CephCounters.Number>)
    requires d.Valid() && d.names != [] && AllAlike(d, a, b) && AllAlike(d, a', b')
    ensures AllAlike(d, a + a', b + b')
  {
  }

  lemma {:induction false} FetchAlike(d: CephCounters.Schema, longRun: bool, s: CephCounters.Session,
                                      a: seq<CephCounters.Number>, b: seq<CephCounters.Number>)
    requires d.Valid() && d.names != [] && AllAlike(d, a, b)
    ensures CephCounters.FetchAll(d, longRun, s, a) == CephCounters.FetchAll(d, longRun, s, b)
    decreases |a|
  {
    if a != [] {
      var m, n := a[0], b[0];
      assert Alike(d, m, n);
      assert SameFor(CephCounters.GuessType(d, s.index, m.name), m, n);
      if CephCounters.Averages(d, longRun, s, m.name, m.suffix)
         ==> CephCounters.RowFor(s.table, m.name, s.latencyIndex).Some? {
        var (s', ret) := CephCounters.Fetch(d, longRun, s, m.name, m.suffix, m.val);
        assert (s', ret) == CephCounters.Fetch(d, longRun, s, n.name, n.suffix, n.val);
        forall i | 0 <= i < |a[1..]| ensures Alike(d, a[1..][i], b[1..][i]) {
          assert Alike(d, a[i + 1], b[i + 1]);
        }
        FetchAlike(d, longRun, s', a[1..], b[1..]);
      }
    }
  }

  /** What the texts of a counter say. */
  function SampleOf(read: Reader, value: Value): CephCounters.Sample {
    match value
    case One(text) => CephCounters.Plain(read(CString(text)))
    case Pair(count, sum, None) => CephCounters.Lat(read(CString(count)).asUint, read(CString(sum)).asReal, None)
    case Pair(count, sum, Some(average)) =>
      CephCounters.Lat(read(CString(count)).asUint, read(CString(sum)).asReal, Some(read(CString(average)).asReal))
  }

  function SamplesOf(read: Reader, entries: seq<Entry>): (r: seq<CephCounters.Sample>)
    ensures |r| == |entries| && forall i :: 0 <= i < |r| ==> r[i] == SampleOf(read, entries[i].leaf.value)
  {
    seq(|entries|, i requires 0 <= i < |entries| => SampleOf(read, entries[i].leaf.value))
  }

  /** The name is not found, or found with the type that this value has. */
  ghost predicate KnownAs(d: CephCounters.Schema, name: string, latency: bool)
    requires d.Valid() && d.names != []
  {
    forall index: nat ::
      var typ := CephCounters.GuessType(d, index, name);
      typ.None? || (typ == Some(CephCounters.Latency) <==> latency)
  }

  /** The numbers of one field: read in full, and as the sample has them. */
  lemma FieldAlike(convert: bool, d: CephCounters.Schema, read: Reader, e: Entry, suffix: string, text: string,
                   val: CephCounters.Reading)
    requires d.Valid() && d.names != [] && Ordinary(convert, e) && KnownAs(d, NameOf(e), true)
    requires suffix in {".avgcount", ".sum", ".avgtime"}
    requires if suffix == ".avgcount" then val.asUint == read(text).asUint else val.asReal == read(text).asReal
    ensures Alike(d, NumberOf(read, CephKeys.Call(text, CounterOf(e) + suffix)),
                  CephCounters.Number(NameOf(e), Meaning(suffix), val))
  {
    assert suffix in CephNames.SUFFIXES;
    FieldNameOf(convert, e, suffix);
    var m := NumberOf(read, CephKeys.Call(text, CounterOf(e) + suffix));
    forall index: nat
      ensures SameFor(CephCounters.GuessType(d, index, m.name), m, CephCounters.Number(NameOf(e), Meaning(suffix), val))
    {
      var typ := CephCounters.GuessType(d, index, NameOf(e));
      assert typ.None? || typ == Some(CephCounters.Latency);
    }
  }

  /** The calls for a latency. */
  lemma PairCalls(e: Entry)
    requires e.leaf.value.Pair?
    ensures var Pair(count, sum, average) := e.leaf.value;
            EntryCalls(true, e) ==
            [CephKeys.Call(CString(count), CounterOf(e) + ".avgcount"), CephKeys.Call(CString(sum), CounterOf(e) + ".sum")]
            + (if average.None? then [] else [CephKeys.Call(CString(average.value), CounterOf(e) + ".avgtime")])
  {
    FieldsKeyed(CounterOf(e), PairFields(e.leaf.value));
    DottedFields();
  }

  lemma DottedFields()
    ensures "." + "avgcount" == ".avgcount" && "." + "sum" == ".sum" && "." + "avgtime" == ".avgtime"
  {
  }

  lemma EntryAlike(convert: bool, d: CephCounters.Schema, read: Reader, e: Entry)
    requires d.Valid() && d.names != [] && Ordinary(convert, e) && KnownAs(d, NameOf(e), e.leaf.value.Pair?)
    ensures AllAlike(d, NumbersOf(read, EntryCalls(true, e)),
                     CephCounters.Numbers(NameOf(e), SampleOf(read, e.leaf.value)))
  {
    match e.leaf.value
    case One(text) =>
      PlainNameOf(convert, e);
      PlainAlike(d, NumberOf(read, EntryCalls(true, e)[0]));
    case Pair(count, sum, average) =>
      PairCalls(e);
      FieldAlike(convert, d, read, e, ".avgcount", CString(count),
                 CephCounters.Reading(read(CString(count)).asUint, 0.0));
      FieldAlike(convert, d, read, e, ".sum", CString(sum), CephCounters.Reading(0, read(CString(sum)).asReal));
      if average.Some? {
        FieldAlike(convert, d, read, e, ".avgtime", CString(average.value),
                   CephCounters.Reading(0, read(CString(average.value)).asReal));
      }
  }

  lemma PlainAlike(d: CephCounters.Schema, n: CephCounters.Number)
    requires d.Valid() && d.names != []
    ensures Alike(d, n, n)
  {
  }

  /** Every counter is known as what it is, or not known. */
  ghost predicate AllKnown(d: CephCounters.Schema, entries: seq<Entry>)
    requires d.Valid() && d.names != []
  {
    forall i :: 0 <= i < |entries| ==> KnownAs(d, NameOf(entries[i]), entries[i].leaf.value.Pair?)
  }

  /** The numbers of a data document mean to the handler what its samples say. */
  lemma {:induction false} EntriesAlike(convert: bool, d: CephCounters.Schema, types: seq<CephCounters.DsType>,
                                        read: Reader, entries: seq<Entry>, k: nat)
    requires d.Valid() && d.names != [] && AllOrdinary(convert, entries) && AllKnown(d, entries)
    requires |types| == |entries| && k <= |entries|
    ensures AllAlike(d, NumbersOf(read, AllCalls(true, entries[k..])),
                     CephCounters.NumbersFrom(CephCounters.Schema(NamesOf(entries), types), SamplesOf(read, entries), k))
    decreases |entries| - k
  {
    if k == |entries| {
      assert NumbersOf(read, []) == [];
    } else {
      EntryAlike(convert, d, read, entries[k]);
      EntriesAlike(convert, d, types, read, entries, k + 1);
      OneMoreAlike(d, types, read, entries, k);
    }
  }

  lemma OneMoreAlike(d: CephCounters.Schema, types: seq<CephCounters.DsType>, read: Reader, entries: seq<Entry>, k: nat)
    requires d.Valid() && d.names != [] && |types| == |entries| && k < |entries|
    requires AllAlike(d, NumbersOf(read, EntryCalls(true, entries[k])),
                      CephCounters.Numbers(NameOf(entries[k]), SampleOf(read, entries[k].leaf.value)))
    requires AllAlike(d, NumbersOf(read, AllCalls(true, entries[k + 1..])),
                      CephCounters.NumbersFrom(CephCounters.Schema(NamesOf(entries), types), SamplesOf(read, entries), k + 1))
    ensures AllAlike(d, NumbersOf(read, AllCalls(true, entries[k..])),
                     CephCounters.NumbersFrom(CephCounters.Schema(NamesOf(entries), types), SamplesOf(read, entries), k))
  {
    var sent, samples := CephCounters.Schema(NamesOf(entries), types), SamplesOf(read, entries);
    NextCalls(read, entries, k);
    NextNumbers(sent, samples, k);
    AllAlikeConcat(d, NumbersOf(read, EntryCalls(true, entries[k])),
                   CephCounters.Numbers(NameOf(entries[k]), SampleOf(read, entries[k].leaf.value)),
                   NumbersOf(read, AllCalls(true, entries[k + 1..])), CephCounters.NumbersFrom(sent, samples, k + 1));
  }

  lemma NextCalls(read: Reader, entries: seq<Entry>, k: nat)
    requires k < |entries|
    ensures NumbersOf(read, AllCalls(true, entries[k..]))
         == NumbersOf(read, EntryCalls(true, entries[k])) + NumbersOf(read, AllCalls(true, entries[k + 1..]))
  {
    assert entries[k..][0] == entries[k] && entries[k..][1..] == entries[k + 1..];
    NumbersOfConcat(read, EntryCalls(true, entries[k]), AllCalls(true, entries[k + 1..]));
  }

  lemma NextNumbers(sent: CephCounters.Schema, samples: seq<CephCounters.Sample>, k: nat)
    requires sent.Valid() && |samples| == |sent.names| && k < |samples|
    ensures CephCounters.NumbersFrom(sent, samples, k)
         == CephCounters.Numbers(sent.names[k], samples[k]) + CephCounters.NumbersFrom(sent, samples, k + 1)
  {
  }

  /** From a schema document with these counters, all are known. */
  lemma SchemaKnows(convert: bool, atoi: TypeReader, entries: seq<Entry>, now: seq<Entry>)
    requires AllOrdinary(convert, entries) && entries != [] && SameCounters(entries, now)
    requires var d := SchemaFor(convert, atoi, entries);
             CephCounters.Distinct(d.names)
             && forall i :: 0 <= i < |now| ==> (now[i].leaf.value.Pair? <==> d.types[i] == CephCounters.Latency)
    ensures AllKnown(SchemaFor(convert, atoi, entries), now)
  {
    var d := SchemaFor(convert, atoi, entries);
    SchemaStored(convert, atoi, entries);
    forall i | 0 <= i < |now| ensures KnownAs(d, NameOf(now[i]), now[i].leaf.value.Pair?) {
      assert NameOf(now[i]) == NamesOf(entries)[i];
      NameKnown(d, NamesOf(entries), i);
    }
  }

  lemma NameKnown(d: CephCounters.Schema, names: seq<string>, i: nat)
    requires d.Valid() && CephCounters.StoredFrom(d, names) && CephCounters.Distinct(d.names) && i < |names|
    ensures KnownAs(d, names[i], d.types[i] == CephCounters.Latency)
  {
    if |names[i]| == NAME_LEN - 1 {
      forall j | 0 <= j < |d.names| ensures d.names[j] != names[i] {
        assert |d.names[j]| < NAME_LEN - 1;
      }
      CephCounters.SearchMisses(d, names[i]);
    } else {
      assert d.names[i] == names[i];
      forall index: nat ensures CephCounters.GuessType(d, index, names[i]) == Some(d.types[i]) {
        CephCounters.TypeKnown(d, index, i);
      }
    }
  }

  /** The same counters in the same order, whatever they report. */
  predicate SameCounters(a: seq<Entry>, b: seq<Entry>) {
    |a| == |b| && forall i :: 0 <= i < |a| ==> CounterOf(a[i]) == CounterOf(b[i])
  }

  // ------------------------------------------------------------------- whole runs

  /** The daemon's data documents, each one parsed with a fresh session and the latency
      table left by the last; None when one of them is aborted. */
  function Served(convert: bool, d: CephCounters.Schema, read: Reader, max: nat, table: seq<CephCounters.Row>,
                  docs: seq<seq<Section>>): Option<(seq<CephCounters.Row>, seq<seq<CephCounters.Dispatch>>)>
    requires d.Valid() && d.names != []
    decreases |docs|
  {
    if docs == [] then Some((table, []))
    else
      var start := CephCounters.Session(0, 0, 0, table, []);
      match CephKeys.Run(Fetching(convert, d, false, read, start), CephKeys.Initial(max),
                         Events(Obj(SectionMembers(true, docs[0]))))
      case Continue(s) =>
        (match CephCounters.FetchAll(d, false, start, NumbersOf(read, s.calls))
         case None => None
         case Some(end) =>
           match Served(convert, d, read, max, end.table, docs[1..])
           case None => None
           case Some((last, outs)) => Some((last, [end.out] + outs)))
      case _ => None
  }

  /** One data document, through the parser, is the poll of its samples. */
  lemma DocumentIsPoll(convert: bool, d: CephCounters.Schema, longRun: bool, read: Reader,
                       start: CephCounters.Session, max: nat, doc: seq<Section>)
    requires d.Valid() && d.names != [] && 3 <= max
    requires AllOrdinary(convert, Flat(doc)) && AllKnown(d, Flat(doc)) && |Flat(doc)| == |d.names|
    ensures var r := CephKeys.Run(Fetching(convert, d, longRun, read, start), CephKeys.Initial(max),
                                  Events(Obj(SectionMembers(true, doc))));
            var sent := CephCounters.Schema(NamesOf(Flat(doc)), d.types);
            var f := CephCounters.FetchAll(d, longRun, start,
                                           CephCounters.NumbersFrom(sent, SamplesOf(read, Flat(doc)), 0));
            && (r.Continue? <==> f.Some?)
            && (r.Continue? ==> CephCounters.FetchAll(d, longRun, start, NumbersOf(read, r.s.calls)) == f)
  {
    var members, entries := SectionMembers(true, doc), Flat(doc);
    var setup := Fetching(convert, d, longRun, read, start);
    DocumentFetched(convert, d, longRun, read, start, max, members);
    DocumentFinds(true, doc);
    DocumentHeight(true, doc);
    AllReported(setup, true, entries);
    assert entries[0..] == entries;
    EntriesAlike(convert, d, d.types, read, entries, 0);
    FetchAlike(d, longRun, start, NumbersOf(read, AllCalls(true, entries)),
               CephCounters.NumbersFrom(CephCounters.Schema(NamesOf(entries), d.types), SamplesOf(read, entries), 0));
  }

  ghost predicate Documents(convert: bool, d: CephCounters.Schema, names: seq<string>, docs: seq<seq<Section>>)
    requires d.Valid() && d.names != []
  {
    forall i :: 0 <= i < |docs| ==>
      AllOrdinary(convert, Flat(docs[i])) && AllKnown(d, Flat(docs[i])) && NamesOf(Flat(docs[i])) == names
  }

  function AllSamples(read: Reader, docs: seq<seq<Section>>): (r: seq<seq<CephCounters.Sample>>)
    ensures |r| == |docs| && forall i :: 0 <= i < |r| ==> r[i] == SamplesOf(read, Flat(docs[i]))
  {
    seq(|docs|, i requires 0 <= i < |docs| => SamplesOf(read, Flat(docs[i])))
  }

  lemma {:induction false} ServedIsPolls(convert: bool, d: CephCounters.Schema, names: seq<string>, read: Reader,
                                         max: nat, table: seq<CephCounters.Row>, docs: seq<seq<Section>>)
    requires d.Valid() && d.names != [] && |names| == |d.names| && 3 <= max && Documents(convert, d, names, docs)
    requires forall p :: p in AllSamples(read, docs) ==> |p| == |d.names|
    ensures Served(convert, d, read, max, table, docs) == CephCounters.Polls(d, names, table, AllSamples(read, docs))
    decreases |docs|
  {
    if docs != [] {
      var start := CephCounters.Session(0, 0, 0, table, []);
      var samples := AllSamples(read, docs);
      assert samples[0] in samples && samples[1..] == AllSamples(read, docs[1..]);
      DocumentIsPoll(convert, d, false, read, start, max, docs[0]);
      var f := CephCounters.FetchAll(d, false, start,
                                     CephCounters.NumbersFrom(CephCounters.Schema(names, d.types), samples[0], 0));
      ServedFirst(convert, d, read, max, table, docs, f);
      if f.Some? {
        ServedIsPolls(convert, d, names, read, max, f.value.table, docs[1..]);
      }
    }
  }

  lemma ServedFirst(convert: bool, d: CephCounters.Schema, read: Reader, max: nat, table: seq<CephCounters.Row>,
                    docs: seq<seq<Section>>, f: Option<CephCounters.Session>)
    requires d.Valid() && d.names != [] && docs != []
    requires var start := CephCounters.Session(0, 0, 0, table, []);
             var r := CephKeys.Run(Fetching(convert, d, false, read, start), CephKeys.Initial(max),
                                   Events(Obj(SectionMembers(true, docs[0]))));
             && (r.Continue? <==> f.Some?)
             && (r.Continue? ==> CephCounters.FetchAll(d, false, start, NumbersOf(read, r.s.calls)) == f)
    ensures Served(convert, d, read, max, table, docs) ==
            match f
            case None => None
            case Some(end) =>
              match Served(convert, d, read, max, end.table, docs[1..])
              case None => None
              case Some((last, outs)) => Some((last, [end.out] + outs))
  {
  }

  /** The schema document is parsed to the end, and its calls define this schema. */
  lemma SchemaParsed(convert: bool, atoi: TypeReader, max: nat, sections: seq<Section>)
    requires 3 <= max && AllFitting(Flat(sections))
    ensures var r := CephKeys.Run(Defining(convert), CephKeys.Initial(max), Events(Obj(SectionMembers(false, sections))));
            && r.Continue? && Keyed(r.s.calls)
            && SchemaOf(convert, atoi, r.s.calls) == SchemaFor(convert, atoi, Flat(sections))
  {
    var setup, entries := Defining(convert), Flat(sections);
    CephKeys.DocumentReported(setup, max, SectionMembers(false, sections));
    CephKeys.CallsAreReported(setup, [], None, Obj(SectionMembers(false, sections)));
    DocumentFinds(false, sections);
    DocumentHeight(false, sections);
    AllReported(setup, false, entries);
    CallsKeyed(false, entries);
    DefiningAccepts(convert, [], AllCalls(false, entries));
  }

  /** The schema that a daemon has after its schema document; None if that is aborted. */
  function Defined(convert: bool, atoi: TypeReader, max: nat, sections: seq<Section>): (d: Option<CephCounters.Schema>)
    ensures d.Some? ==> d.value.Valid()
  {
    match CephKeys.Run(Defining(convert), CephKeys.Initial(max), Events(Obj(SectionMembers(false, sections))))
    case Continue(s) =>
      if forall i :: 0 <= i < |s.calls| ==> s.calls[i].key != "" then Some(SchemaOf(convert, atoi, s.calls)) else None
    case _ => None
  }

  /** The types of the schema are the ones that the numbers in the document mean. */
  lemma SchemaTyped(convert: bool, atoi: TypeReader, max: nat, sections: seq<Section>)
    requires 3 <= max && AllFitting(Flat(sections))
    ensures var d, entries := Defined(convert, atoi, max, sections), Flat(sections);
            && d == Some(SchemaFor(convert, atoi, entries)) && |d.value.types| == |entries|
            && forall i :: 0 <= i < |entries| ==> Means(d.value.types[i], TypeNumber(convert, atoi, entries[i]))
  {
    SchemaParsed(convert, atoi, max, sections);
    forall i | 0 <= i < |Flat(sections)|
      ensures Means(SchemaFor(convert, atoi, Flat(sections)).types[i], TypeNumber(convert, atoi, Flat(sections)[i]))
    {
      TypeMeans(convert, atoi, Flat(sections), i);
    }
  }

  /** End to end: a schema document, and then any number of data documents with the same
      ordinary counters, latencies where the schema says so, and sums that do not fall. The
      schema is defined from its document. All data documents go through if and only if no
      counter's name has 127 characters; then each counter is dispatched in every one of
      them, in order, under its stored name, and every value is the one that the documents
      call for if and only if the counts of the latencies are reliable. */
  lemma EndToEnd(convert: bool, atoi: TypeReader, read: Reader, max: nat, schema: seq<Section>, docs: seq<seq<Section>>)
    requires 3 <= max && Flat(schema) != [] && AllOrdinary(convert, Flat(schema))
    requires forall i :: 0 <= i < |docs| ==> AllOrdinary(convert, Flat(docs[i])) && SameCounters(Flat(schema), Flat(docs[i]))
    requires var d := SchemaFor(convert, atoi, Flat(schema));
             CephCounters.Distinct(d.names) && CephCounters.RegularRun(d, None, AllSamples(read, docs))
    ensures var d, names := SchemaFor(convert, atoi, Flat(schema)), NamesOf(Flat(schema));
            var served := Served(convert, d, read, max, [], docs);
            var samples := AllSamples(read, docs);
            && CephCounters.StoredFrom(d, names)
            && (served.Some? <==> docs == [] || CephCounters.AllShort(names))
            && (CephCounters.AllShort(names) ==>
                  && (forall p :: p in samples ==> |p| == |d.names|)
                  && (served.value.1 == CephCounters.ExpectedPolls(d, None, samples)
                      <==> CephCounters.ReliableRun(None, samples, |d.names|)))
  {
    var d, names := SchemaFor(convert, atoi, Flat(schema)), NamesOf(Flat(schema));
    SchemaStored(convert, atoi, Flat(schema));
    DocumentsKnown(convert, atoi, read, schema, docs);
    ServedIsPolls(convert, d, names, read, max, [], docs);
    CephCounters.AllPolls(d, names, None, AllSamples(read, docs));
  }

  // ------------------------------------------------- the dispatches, from the texts

  /** All documents of a daemon: the schema first, then the data. */
  function Lifetime(convert: bool, atoi: TypeReader, read: Reader, max: nat, schema: seq<Section>, docs: seq<seq<Section>>)
    : Option<seq<seq<CephCounters.Dispatch>>>
  {
    match Defined(convert, atoi, max, schema)
    case None => None
    case Some(d) =>
      if d.names == [] then None
      else match Served(convert, d, read, max, [], docs) case None => None case Some((_, outs)) => Some(outs)
  }

  /** A data document for the counters of the schema: latencies are those that the type
      numbers say, and their sums have not fallen since the document before. */
  ghost predicate Reports(convert: bool, atoi: TypeReader, read: Reader, schema: seq<Entry>,
                          before: Option<seq<Entry>>, now: seq<Entry>)
  {
    && AllOrdinary(convert, now) && SameCounters(schema, now)
    && (forall k :: 0 <= k < |now| ==>
          (now[k].leaf.value.Pair? <==> Means(CephCounters.Latency, TypeNumber(convert, atoi, schema[k]))))
    && (before.Some? ==> CephCounters.SumsGrow(SamplesOf(read, before.value), SamplesOf(read, now)))
  }

  function Previous(docs: seq<seq<Section>>, i: nat): Option<seq<Entry>>
    requires i < |docs|
  {
    if i == 0 then None else Some(Flat(docs[i - 1]))
  }

  /** What has to be dispatched for the k-th counter. A plain number is a derive value of
      the integer it shows, as a rate, if bit 3 of its type is set, and otherwise a gauge
      of size. A latency is a gauge of the mean over what came since the document before,
      where that had counted requests; there is none in the first document. */
  ghost predicate Right(read: Reader, typ: bv32, before: Option<Value>, now: Value, name: string,
                        sent: CephCounters.Dispatch)
  {
    sent.name == name &&
    match now
    case One(text) =>
      if Bit(typ, 3) then
        sent.typ == CephCounters.Rate && sent.value == CephCounters.Derive(read(CString(text)).asUint)
      else
        sent.typ == CephCounters.Bytes && sent.value == CephCounters.Gauge(Some(read(CString(text)).asReal))
    case Pair(count, sum, _) =>
      && sent.typ == CephCounters.Latency
      && match before
         case None => sent.value == CephCounters.Gauge(None)
         case Some(One(_)) => true
         case Some(Pair(count0, sum0, _)) =>
           var n, n0 := read(CString(count)).asUint, read(CString(count0)).asUint;
           n0 > 0 ==>
             sent.value == CephCounters.Gauge(
               if n > n0 then Some((read(CString(sum)).asReal - read(CString(sum0)).asReal) / (n - n0) as real) else None)
  }

  ghost predicate OutRight(convert: bool, atoi: TypeReader, read: Reader, schema: seq<Entry>,
                           before: Option<seq<Entry>>, now: seq<Entry>, sent: seq<CephCounters.Dispatch>)
  {
    |now| == |schema| == |sent| && (before.Some? ==> |before.value| == |schema|) &&
    forall k :: 0 <= k < |schema| ==>
      Right(read, TypeNumber(convert, atoi, schema[k]),
            if before.None? then None else Some(before.value[k].leaf.value), now[k].leaf.value, NameOf(schema[k]), sent[k])
  }

  /** End to end in terms of the texts alone: each data document has every counter sent
      once, in order, under its name, with the type that the number in the schema document
      means and the kind and value that this type calls for. */
  lemma DispatchedAs(convert: bool, atoi: TypeReader, read: Reader, max: nat, schema: seq<Section>, docs: seq<seq<Section>>)
    requires 3 <= max && Flat(schema) != [] && AllOrdinary(convert, Flat(schema))
    requires CephCounters.Distinct(NamesOf(Flat(schema))) && CephCounters.AllShort(NamesOf(Flat(schema)))
    requires forall i :: 0 <= i < |docs| ==>
               Reports(convert, atoi, read, Flat(schema), Previous(docs, i), Flat(docs[i]))
    ensures var outs := Lifetime(convert, atoi, read, max, schema, docs);
            && outs.Some? && |outs.value| == |docs|
            && forall i :: 0 <= i < |docs| ==>
                 OutRight(convert, atoi, read, Flat(schema), Previous(docs, i), Flat(docs[i]), outs.value[i])
  {
    var entries := Flat(schema);
    var d, names, samples := SchemaFor(convert, atoi, entries), NamesOf(entries), AllSamples(read, docs);
    SchemaTyped(convert, atoi, max, schema);
    SchemaStored(convert, atoi, entries);
    CephCounters.ShortNamesAreStored(d, names);
    ReportsRegular(convert, atoi, read, entries, docs);
    DocumentsKnown(convert, atoi, read, schema, docs);
    ServedIsPolls(convert, d, names, read, max, [], docs);
    CephCounters.PollsComputed(d, names, None, samples);
    var outs := CephCounters.ComputedPolls(d, None, samples);
    assert Lifetime(convert, atoi, read, max, schema, docs) == Some(outs);
    if docs != [] {
      CephCounters.ComputedAt(d, None, samples, 0, 0);
    }
    forall i | 0 <= i < |docs|
      ensures OutRight(convert, atoi, read, entries, Previous(docs, i), Flat(docs[i]), outs[i])
    {
      OneDocument(convert, atoi, read, entries, docs, i);
    }
  }

  lemma ReportsRegular(convert: bool, atoi: TypeReader, read: Reader, entries: seq<Entry>, docs: seq<seq<Section>>)
    requires AllOrdinary(convert, entries) && entries != []
    requires CephCounters.Distinct(SchemaFor(convert, atoi, entries).names)
    requires forall i :: 0 <= i < |docs| ==> Reports(convert, atoi, read, entries, Previous(docs, i), Flat(docs[i]))
    ensures CephCounters.RegularRun(SchemaFor(convert, atoi, entries), None, AllSamples(read, docs))
  {
    var d, samples := SchemaFor(convert, atoi, entries), AllSamples(read, docs);
    forall i | 0 <= i < |samples| ensures CephCounters.Regular(d, Before(samples, i), samples[i]) {
      RegularAt(convert, atoi, read, entries, docs, i);
    }
    RegularFrom(d, samples, 0);
    assert samples[0..] == samples;
  }

  function Before(samples: seq<seq<CephCounters.Sample>>, i: nat): Option<seq<CephCounters.Sample>>
    requires i <= |samples|
  {
    if i == 0 then None else Some(samples[i - 1])
  }

  /** Polls that are regular one by one make a regular run. */
  lemma {:induction false} RegularFrom(d: CephCounters.Schema, samples: seq<seq<CephCounters.Sample>>, i: nat)
    requires i <= |samples|
    requires forall j :: 0 <= j < |samples| ==> CephCounters.Regular(d, Before(samples, j), samples[j])
    ensures CephCounters.RegularRun(d, Before(samples, i), samples[i..])
    decreases |samples| - i
  {
    if i < |samples| {
      RegularFrom(d, samples, i + 1);
      assert samples[i..][1..] == samples[i + 1..] && samples[i..][0] == samples[i];
    }
  }

  lemma RegularAt(convert: bool, atoi: TypeReader, read: Reader, entries: seq<Entry>,
                  docs: seq<seq<Section>>, i: nat)
    requires AllOrdinary(convert, entries) && entries != [] && i < |docs|
    requires CephCounters.Distinct(SchemaFor(convert, atoi, entries).names)
    requires forall j :: 0 <= j < |docs| ==> Reports(convert, atoi, read, entries, Previous(docs, j), Flat(docs[j]))
    ensures CephCounters.Regular(SchemaFor(convert, atoi, entries), Before(AllSamples(read, docs), i), AllSamples(read, docs)[i])
  {
    assert Reports(convert, atoi, read, entries, Previous(docs, i), Flat(docs[i]));
    RegularOne(convert, atoi, read, entries, Previous(docs, i), Flat(docs[i]));
    if i > 0 {
      RegularOne(convert, atoi, read, entries, Previous(docs, i - 1), Flat(docs[i - 1]));
    }
  }

  lemma RegularOne(convert: bool, atoi: TypeReader, read: Reader, entries: seq<Entry>, before: Option<seq<Entry>>,
                   now: seq<Entry>)
    requires Reports(convert, atoi, read, entries, before, now)
    ensures CephCounters.Matches(SchemaFor(convert, atoi, entries), SamplesOf(read, now))
  {
    var d := SchemaFor(convert, atoi, entries);
    forall k | 0 <= k < |now| ensures SamplesOf(read, now)[k].Lat? <==> d.types[k] == CephCounters.Latency {
      TypeMeans(convert, atoi, entries, k);
    }
  }

  lemma OneDocument(convert: bool, atoi: TypeReader, read: Reader, entries: seq<Entry>, docs: seq<seq<Section>>, i: nat)
    requires i < |docs| && entries != [] && SchemaFor(convert, atoi, entries).names == NamesOf(entries)
    requires Reports(convert, atoi, read, entries, Previous(docs, i), Flat(docs[i]))
    requires forall p :: p in AllSamples(read, docs) ==> |p| == |entries|
    ensures var outs := CephCounters.ComputedPolls(SchemaFor(convert, atoi, entries), None, AllSamples(read, docs));
            && |outs| == |docs|
            && OutRight(convert, atoi, read, entries, Previous(docs, i), Flat(docs[i]), outs[i])
  {
    var d, samples, before, now :=
      SchemaFor(convert, atoi, entries), AllSamples(read, docs), Previous(docs, i), Flat(docs[i]);
    CephCounters.ComputedAt(d, None, samples, i, 0);
    assert |samples[i]| == |entries| && (i > 0 ==> |samples[i - 1]| == |entries|);
    var sent := CephCounters.ComputedPolls(d, None, samples)[i];
    forall k | 0 <= k < |entries|
      ensures Right(read, TypeNumber(convert, atoi, entries[k]),
                    if before.None? then None else Some(before.value[k].leaf.value), now[k].leaf.value,
                    NameOf(entries[k]), sent[k])
    {
      CephCounters.ComputedAt(d, None, samples, i, k);
      TypeMeans(convert, atoi, entries, k);
      OneValue(read, TypeNumber(convert, atoi, entries[k]), d.types[k], NameOf(entries[k]),
               if before.None? then None else Some(before.value[k].leaf.value), now[k].leaf.value);
    }
  }

  lemma OneValue(read: Reader, n: bv32, typ: CephCounters.DsType, name: string, before: Option<Value>, now: Value)
    requires Means(typ, n) && (now.Pair? <==> typ == CephCounters.Latency)
    ensures Right(read, n, before, now, name,
                  CephCounters.Dispatch(typ, name,
                    CephCounters.Computed(typ, if before.None? then None else Some(SampleOf(read, before.value)),
                                          SampleOf(read, now))))
  {
  }

  /** The data documents are of counters that the schema knows. */
  lemma DocumentsKnown(convert: bool, atoi: TypeReader, read: Reader, schema: seq<Section>, docs: seq<seq<Section>>)
    requires Flat(schema) != [] && AllOrdinary(convert, Flat(schema))
    requires forall i :: 0 <= i < |docs| ==> AllOrdinary(convert, Flat(docs[i])) && SameCounters(Flat(schema), Flat(docs[i]))
    requires var d := SchemaFor(convert, atoi, Flat(schema));
             CephCounters.Distinct(d.names) && CephCounters.RegularRun(d, None, AllSamples(read, docs))
    ensures Documents(convert, SchemaFor(convert, atoi, Flat(schema)), NamesOf(Flat(schema)), docs)
    ensures forall p :: p in AllSamples(read, docs) ==> |p| == |Flat(schema)|
  {
    var d, samples := SchemaFor(convert, atoi, Flat(schema)), AllSamples(read, docs);
    forall i | 0 <= i < |docs|
      ensures AllKnown(d, Flat(docs[i])) && NamesOf(Flat(docs[i])) == NamesOf(Flat(schema))
    {
      KindsMatch(d, None, samples, i);
      PairsMatch(read, d, Flat(docs[i]));
      SchemaKnows(convert, atoi, Flat(schema), Flat(docs[i]));
    }
  }

  lemma PairsMatch(read: Reader, d: CephCounters.Schema, entries: seq<Entry>)
    requires d.Valid() && CephCounters.Matches(d, SamplesOf(read, entries))
    ensures |entries| == |d.names|
    ensures forall i :: 0 <= i < |entries| ==> (entries[i].leaf.value.Pair? <==> d.types[i] == CephCounters.Latency)
  {
    forall i | 0 <= i < |entries| ensures SamplesOf(read, entries)[i].Lat? <==> entries[i].leaf.value.Pair? {
    }
  }

  lemma {:induction false} KindsMatch(d: CephCounters.Schema, before: Option<seq<CephCounters.Sample>>,
                                      samples: seq<seq<CephCounters.Sample>>, i: nat)
    requires i < |samples| && CephCounters.RegularRun(d, before, samples)
    ensures d.Valid() && CephCounters.Matches(d, samples[i])
    decreases i
  {
    if i > 0 {
      KindsMatch(d, Some(samples[0]), samples[1..], i - 1);
    }
  }
}
