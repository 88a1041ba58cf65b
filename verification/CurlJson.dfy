/** src/curl_json.c as a whole: the cj_t object with its configuration and callback
    methods, and the end-to-end statement about a configured database reading a
    document. */
module CurlJson {
  import opened Common
  import opened Json
  import opened CurlJsonTrie
  import opened CurlJsonStream

  // ------------------------------------------------------ documents as leaf lists

  /** A scalar of a document with its path of object keys and array indexes. */
  datatype LeafValue = LeafValue(path: seq<string>, text: string)

  function Leaves(j: Json, path: seq<string>): seq<LeafValue>
    decreases j, 1
  {
    match j
    case Null => []
    case Bool(b) => [LeafValue(path, BoolText(b))]
    case Num(text) => [LeafValue(path, text)]
    case Str(text) => [LeafValue(path, text)]
    case Arr(items) => ItemLeaves(items, path, 0)
    case Obj(members) => MemberLeaves(members, path)
  }

  function ItemLeaves(items: seq<Json>, path: seq<string>, i: nat): seq<LeafValue>
    decreases items, 0
  {
    if items == [] then []
    else Leaves(items[0], path + [Decimal(i)]) + ItemLeaves(items[1..], path, i + 1)
  }

  function MemberLeaves(members: seq<Member>, path: seq<string>): seq<LeafValue>
    decreases members, 0
  {
    if members == [] then []
    else Leaves(members[0].value, path + [CString(members[0].name)]) + MemberLeaves(members[1..], path)
  }

  /** The names of a path as the fixed-size level names hold them. */
  function CutAll(path: seq<string>): (r: seq<string>)
    ensures |r| == |path|
    ensures forall i :: 0 <= i < |r| ==> r[i] == Cut(path[i], NAME_LEN)
  {
    seq(|path|, i requires 0 <= i < |path| => Cut(path[i], NAME_LEN))
  }

  // ------------------------------------------------------- which key a path selects

  /** A configured key with the names that its path spells. */
  datatype Configured = Configured(names: seq<string>, key: Key)

  function Keys(list: seq<Configured>): (r: seq<Key>)
    ensures |r| == |list|
    ensures forall i :: 0 <= i < |list| ==> r[i] == list[i].key
  {
    seq(|list|, i requires 0 <= i < |list| => list[i].key)
  }

  /** No path continues another one, so that they are distinct, and all end in a name. */
  ghost predicate Distinct(list: seq<Configured>) {
    && (forall i :: 0 <= i < |list| ==> list[i].names != [] && list[i].names[|list[i].names| - 1] != "")
    && (forall i, j :: 0 <= i < |list| && 0 <= j < |list| && i != j ==> !(list[i].names <= list[j].names))
  }

  /** The configuration file: these path texts, for these keys. */
  ghost predicate Configures(list: seq<Configured>) {
    && Distinct(list)
    && forall i :: 0 <= i < |list| ==> Spells(list[i].key.path, list[i].names)
  }

  predicate Leads(list: seq<Configured>, names: seq<string>) {
    exists i :: 0 <= i < |list| && names <= list[i].names
  }

  /** The names that a document path is matched with, level by level: the same name as
      long as some configured path goes on with it, and the wildcard otherwise. */
  function Chosen(list: seq<Configured>, path: seq<string>): (r: seq<string>)
    ensures |r| == |path|
  {
    if path == [] then []
    else
      var n := |path| - 1;
      var before := Chosen(list, path[..n]);
      before + [Choice(list, before, path[n])]
  }

  function Choice(list: seq<Configured>, before: seq<string>, name: string): string {
    if Leads(list, before + [name]) then name else "*"
  }

  /** The key configured under exactly these names. */
  function KeyOf(list: seq<Configured>, names: seq<string>): Option<Key> {
    if list == [] then None
    else if list[0].names == names then Some(list[0].key)
    else KeyOf(list[1..], names)
  }

  function KeyAt(list: seq<Configured>, path: seq<string>): Option<Key> {
    KeyOf(list, Chosen(list, path))
  }

  /** Entry i answers a document path: at each level it has the very name, or it has the
      wildcard and no entry goes on from there with the very name. */
  ghost predicate Governs(list: seq<Configured>, i: nat, path: seq<string>)
    requires i < |list|
  {
    && |list[i].names| == |path|
    && forall l :: 0 <= l < |path| ==>
         || list[i].names[l] == path[l]
         || (list[i].names[l] == "*" && !Leads(list, list[i].names[..l] + [path[l]]))
  }

  lemma GovernsIsChosen(list: seq<Configured>, i: nat, path: seq<string>)
    requires i < |list|
    ensures Governs(list, i, path) <==> list[i].names == Chosen(list, path)
  {
    var names := list[i].names;
    forall l | 0 <= l < |names| ensures Leads(list, names[..l] + [names[l]]) {
      assert names[..l] + [names[l]] == names[..l + 1];
    }
    if |names| == |path| {
      if Governs(list, i, path) {
        ChosenAll(list, names, path, |path|);
        assert path[..|path|] == path && names[..|path|] == names;
      }
      if names == Chosen(list, path) {
        ChosenEach(list, path);
      }
    }
  }

  lemma {:induction false} ChosenAll(list: seq<Configured>, names: seq<string>, path: seq<string>, k: nat)
    requires k <= |names| == |path|
    requires forall l :: 0 <= l < |path| ==> names[l] == Choice(list, names[..l], path[l])
    ensures names[..k] == Chosen(list, path[..k])
  {
    if k > 0 {
      ChosenAll(list, names, path, k - 1);
      assert path[..k][..k - 1] == path[..k - 1];
      assert names[..k] == names[..k - 1] + [names[k - 1]];
    }
  }

  lemma {:induction false} ChosenEach(list: seq<Configured>, path: seq<string>)
    ensures var names := Chosen(list, path);
            forall l :: 0 <= l < |path| ==> names[l] == Choice(list, names[..l], path[l])
    decreases |path|
  {
    if path != [] {
      var n, names := |path| - 1, Chosen(list, path);
      var before := Chosen(list, path[..n]);
      ChosenEach(list, path[..n]);
      forall l | 0 <= l < |path| ensures names[l] == Choice(list, names[..l], path[l]) {
        assert names[..l] == before[..l];
        if l < n {
          assert before[l] == Choice(list, before[..l], path[..n][l]);
        } else {
          assert before[..n] == before;
        }
      }
    }
  }

  /** The selection rule: a document path selects the entry that governs it, wildcards
      included, and nothing if there is none. */
  lemma SelectionRule(list: seq<Configured>, path: seq<string>)
    requires Distinct(list)
    ensures forall i :: 0 <= i < |list| && Governs(list, i, path) ==> KeyAt(list, path) == Some(list[i].key)
    ensures KeyAt(list, path).Some? ==>
              exists i :: 0 <= i < |list| && Governs(list, i, path) && list[i].key == KeyAt(list, path).value
  {
    forall i | 0 <= i < |list| && Governs(list, i, path) ensures KeyAt(list, path) == Some(list[i].key) {
      GovernsIsChosen(list, i, path);
      OnlyKeyHere(list, i);
      KeyOfFinds(list, i);
    }
    KeyOfSound(list, Chosen(list, path));
    if KeyAt(list, path).Some? {
      var i :| 0 <= i < |list| && list[i].key == KeyAt(list, path).value && list[i].names == Chosen(list, path);
      GovernsIsChosen(list, i, path);
    }
  }

  /** A path that is configured by name selects its own key, whatever wildcards there are. */
  lemma ExactPathWins(list: seq<Configured>, i: nat)
    requires Distinct(list) && i < |list|
    ensures KeyAt(list, list[i].names) == Some(list[i].key)
  {
    assert Governs(list, i, list[i].names);
    SelectionRule(list, list[i].names);
  }

  /** Without wildcards in the configuration, only a path that is configured selects a key. */
  lemma OnlyExactPaths(list: seq<Configured>, path: seq<string>)
    requires Distinct(list) && forall i :: 0 <= i < |list| ==> "*" !in list[i].names
    ensures KeyAt(list, path).Some? ==>
              exists i :: 0 <= i < |list| && list[i].names == path && list[i].key == KeyAt(list, path).value
  {
    SelectionRule(list, path);
    if KeyAt(list, path).Some? {
      var i :| 0 <= i < |list| && Governs(list, i, path) && list[i].key == KeyAt(list, path).value;
      forall l | 0 <= l < |path| ensures list[i].names[l] == path[l] {
        assert list[i].names[l] in list[i].names;
      }
      assert list[i].names == path;
    }
  }

  /** The leaves whose path is configured and whose value parses, each with its key. */
  function Selected(list: seq<Configured>, parse: (Key, string) -> Option<Value>, leaves: seq<LeafValue>): seq<Submission> {
    if leaves == [] then []
    else
      var rest := Selected(list, parse, leaves[1..]);
      match KeyAt(list, leaves[0].path)
      case None => rest
      case Some(key) =>
        match parse(key, CString(leaves[0].text))
        case None => rest
        case Some(value) => [Submission(key, value, CutAll(leaves[0].path))] + rest
  }

  lemma {:induction false} SelectedConcat(list: seq<Configured>, parse: (Key, string) -> Option<Value>,
                                          a: seq<LeafValue>, b: seq<LeafValue>)
    ensures Selected(list, parse, a + b) == Selected(list, parse, a) + Selected(list, parse, b)
  {
    if a == [] {
      assert a + b == b;
    } else {
      assert (a + b)[1..] == a[1..] + b;
      SelectedConcat(list, parse, a[1..], b);
    }
  }

  /** The entry that a document path leads to in the tree. */
  function EntryAt(store: Store, path: seq<string>): Option<Entry> {
    if path == [] then Some(ROOT)
    else
      var n := |path| - 1;
      Child(store, EntryAt(store, path[..n]), path[n])
  }

  /** The configured tree answers a path like the list of keys does. */
  ghost predicate Agrees(store: Store, list: seq<Configured>) {
    forall p :: KeyAt(list, p) ==
      match EntryAt(store, p) case Some(KeyEntry(key)) => Some(key) case _ => None
  }

  lemma {:induction false} KeyOfFinds(list: seq<Configured>, i: nat)
    requires i < |list|
    requires forall j :: 0 <= j < |list| && j != i ==> list[j].names != list[i].names
    ensures KeyOf(list, list[i].names) == Some(list[i].key)
  {
    if i > 0 {
      assert list[0].names != list[i].names;
      KeyOfFinds(list[1..], i - 1);
    }
  }

  lemma {:induction false} KeyOfSound(list: seq<Configured>, names: seq<string>)
    ensures KeyOf(list, names).Some? ==>
              exists i :: 0 <= i < |list| && list[i].key == KeyOf(list, names).value && list[i].names == names
  {
    if list != [] && list[0].names != names {
      KeyOfSound(list[1..], names);
      if KeyOf(list[1..], names).Some? {
        var i :| 0 <= i < |list[1..]| && list[1..][i].key == KeyOf(list, names).value && list[1..][i].names == names;
        assert list[i + 1].key == KeyOf(list, names).value;
      }
    }
  }

  lemma OnlyKeyHere(list: seq<Configured>, i: nat)
    requires Distinct(list) && i < |list|
    ensures forall j :: 0 <= j < |list| && j != i ==> list[j].names != list[i].names
  {
    forall j | 0 <= j < |list| && j != i ensures list[j].names != list[i].names {
      assert !(list[j].names <= list[i].names);
    }
  }

  lemma SpelledParts(list: seq<Configured>)
    requires Configures(list)
    ensures PrefixFree(Keys(list))
    ensures forall i :: 0 <= i < |list| ==> Parts(Keys(list)[i]) == list[i].names
  {
    forall i | 0 <= i < |list| ensures Parts(Keys(list)[i]) == list[i].names {
      PartsSpelled(list[i].key, list[i].names);
    }
  }

  /** The configured tree binds exactly the names that configured paths begin with. */
  lemma BoundIsLeading(list: seq<Configured>, names: seq<string>)
    requires Configures(list) && names != []
    ensures Look(WithRoot(Configure(Keys(list))), names) != Unbound <==> Leads(list, names)
  {
    var store, keys := WithRoot(Configure(Keys(list))), Keys(list);
    SpelledParts(list);
    ConfigureRealises(keys);
    if Leads(list, names) {
      var i :| 0 <= i < |list| && names <= list[i].names;
      assert Look(store, Parts(keys[i])) == Leaf(keys[i]);
      PrefixesBound(store, Parts(keys[i]));
    } else {
      forall i | 0 <= i < |keys| ensures !(names <= Parts(keys[i])) {
        assert Parts(keys[i]) == list[i].names;
      }
    }
  }

  /** The lookup of src/curl_json.c follows the chosen names through the tree. */
  lemma {:induction false} EntryIsChosen(list: seq<Configured>, path: seq<string>)
    requires Configures(list)
    ensures var store := WithRoot(Configure(Keys(list)));
            EntryAt(store, path) == Resolve(store, ROOT, Chosen(list, path))
  {
    if path != [] {
      var store, n := WithRoot(Configure(Keys(list))), |path| - 1;
      var before := Chosen(list, path[..n]);
      EntryIsChosen(list, path[..n]);
      ResolveSnoc(store, ROOT, before, path[n]);
      ResolveSnoc(store, ROOT, before, "*");
      BoundIsLeading(list, before + [path[n]]);
    }
  }

  /** The tree of a configuration answers every document path with the key that the
      configured paths select for it. */
  lemma ConfiguredAgrees(list: seq<Configured>)
    requires Configures(list)
    ensures Agrees(WithRoot(Configure(Keys(list))), list)
  {
    var store := WithRoot(Configure(Keys(list)));
    forall p ensures KeyAt(list, p) ==
                     match EntryAt(store, p) case Some(KeyEntry(key)) => Some(key) case _ => None
    {
      EntryIsChosen(list, p);
      KeyIsLeaf(list, Chosen(list, p));
    }
  }

  lemma KeyIsLeaf(list: seq<Configured>, names: seq<string>)
    requires Configures(list)
    ensures var found := Look(WithRoot(Configure(Keys(list))), names);
            KeyOf(list, names) == if found.Leaf? then Some(found.key) else None
  {
    var store, keys := WithRoot(Configure(Keys(list))), Keys(list);
    SpelledParts(list);
    ConfigureRealises(keys);
    KeyOfSound(list, names);
    if Look(store, names).Leaf? {
      var i :| 0 <= i < |keys| && names == Parts(keys[i]) && Look(store, names).key == keys[i];
      OnlyKeyHere(list, i);
      KeyOfFinds(list, i);
    }
  }

  lemma ChildEntry(store: Store, path: seq<string>, name: string)
    ensures Child(store, EntryAt(store, path), name) == EntryAt(store, path + [name])
    ensures CutAll(path + [name]) == CutAll(path) + [Cut(name, NAME_LEN)]
  {
    assert (path + [name])[..|path|] == path;
  }

  lemma {:induction false} WalkSelects(c: Config, list: seq<Configured>, path: seq<string>, j: Json)
    requires Agrees(c.store, list)
    ensures Walk(c, EntryAt(c.store, path), CutAll(path), j) == Selected(list, c.parse, Leaves(j, path))
    decreases j, 1
  {
    match j
    case Arr(items) => WalkItemsSelects(c, list, path, items, 0);
    case Obj(members) => WalkMembersSelects(c, list, path, members);
    case Null =>
    case Bool(b) => WalkScalarSelects(c, list, path, BoolText(b));
    case Num(text) => WalkScalarSelects(c, list, path, text);
    case Str(text) => WalkScalarSelects(c, list, path, text);
  }

  lemma WalkScalarSelects(c: Config, list: seq<Configured>, path: seq<string>, text: string)
    requires Agrees(c.store, list)
    ensures WalkScalar(c, EntryAt(c.store, path), CutAll(path), text)
         == Selected(list, c.parse, [LeafValue(path, text)])
  {
    var leaf := [LeafValue(path, text)];
    assert leaf[1..] == [];
    assert KeyAt(list, path) ==
           match EntryAt(c.store, path) case Some(KeyEntry(key)) => Some(key) case _ => None;
  }

  lemma {:induction false} WalkItemsSelects(c: Config, list: seq<Configured>, path: seq<string>, items: seq<Json>, i: nat)
    requires Agrees(c.store, list)
    ensures WalkItems(c, EntryAt(c.store, path), CutAll(path), items, i)
         == Selected(list, c.parse, ItemLeaves(items, path, i))
    decreases items, 0
  {
    if items != [] {
      ChildEntry(c.store, path, Decimal(i));
      WalkSelects(c, list, path + [Decimal(i)], items[0]);
      WalkItemsSelects(c, list, path, items[1..], i + 1);
      SelectedConcat(list, c.parse, Leaves(items[0], path + [Decimal(i)]), ItemLeaves(items[1..], path, i + 1));
    }
  }

  lemma {:induction false} WalkMembersSelects(c: Config, list: seq<Configured>, path: seq<string>, members: seq<Member>)
    requires Agrees(c.store, list)
    ensures WalkMembers(c, EntryAt(c.store, path), CutAll(path), members)
         == Selected(list, c.parse, MemberLeaves(members, path))
    decreases members, 0
  {
    if members != [] {
      var name := CString(members[0].name);
      ChildEntry(c.store, path, name);
      WalkSelects(c, list, path + [name], members[0].value);
      WalkMembersSelects(c, list, path, members[1..]);
      SelectedConcat(list, c.parse, Leaves(members[0].value, path + [name]), MemberLeaves(members[1..], path));
    }
  }

  /** The bottom level during a read. */
  const BOTTOM: Level := ZERO.(entry := Some(ROOT))

  /** cj_read's fresh stack: the tree root at the bottom, everything else zero. */
  function Fresh(max: nat, out: seq<Submission>): (s: Stack)
    requires 0 < max
    ensures s.Fits() && |s.levels| == max && s.Names() == []
  {
    At(max, [BOTTOM], out)
  }

  /** The refinement from the bottom of the stack. */
  lemma ReadIsWalk(c: Config, j: Json, max: nat, out: seq<Submission>)
    requires 0 < max
    ensures var (s, ok) := Run(c, Fresh(max, out), Events(j));
            && ok == (Height(j) < max)
            && (ok ==> s.out == out + Walk(c, Some(ROOT), [], j) && s.depth == 0)
            && out <= s.out <= out + Walk(c, Some(ROOT), [], j)
  {
    StreamIsWalk(c, max, [BOTTOM], out, j);
    assert NamesOf([BOTTOM]) == [];
  }

  /** End to end: configure paths of which none continues another, wildcards included,
      then stream any document that is not nested too deeply. Exactly the scalars whose
      path selects a key and whose text parses are submitted, in document order. */
  lemma EndToEnd(list: seq<Configured>, parse: (Key, string) -> Option<Value>, j: Json, max: nat)
    requires Configures(list) && Height(j) < max
    ensures var (s, ok) := Run(Config(WithRoot(Configure(Keys(list))), parse), Fresh(max, []), Events(j));
            ok && s.out == Selected(list, parse, Leaves(j, []))
  {
    var c := Config(WithRoot(Configure(Keys(list))), parse);
    ConfiguredAgrees(list);
    ReadIsWalk(c, j, max, []);
    WalkSelects(c, list, [], j);
    assert [] + Selected(list, parse, Leaves(j, [])) == Selected(list, parse, Leaves(j, []));
  }

  // ------------------------------------------------------- booleans and strings

  /** The document with numbers in place of booleans and strings. */
  function Numeric(j: Json): Json
    decreases j, 1
  {
    match j
    case Bool(b) => Num(if b then "1" else "0")
    case Str(text) => Num(text)
    case Arr(items) => Arr(NumericItems(items))
    case Obj(members) => Obj(NumericMembers(members))
    case _ => j
  }

  function NumericItems(items: seq<Json>): seq<Json>
    decreases items, 0
  {
    if items == [] then [] else [Numeric(items[0])] + NumericItems(items[1..])
  }

  function NumericMembers(members: seq<Member>): seq<Member>
    decreases members, 0
  {
    if members == [] then []
    else [Member(members[0].name, Numeric(members[0].value))] + NumericMembers(members[1..])
  }

  lemma {:induction false} NumericWalk(c: Config, e: Option<Entry>, names: seq<string>, j: Json)
    ensures Walk(c, e, names, Numeric(j)) == Walk(c, e, names, j) && Height(Numeric(j)) == Height(j)
    decreases j, 1
  {
    match j
    case Arr(items) => NumericWalkItems(c, e, names, items, 0);
    case Obj(members) => NumericWalkMembers(c, e, names, members);
    case _ =>
  }

  lemma {:induction false} NumericWalkItems(c: Config, e: Option<Entry>, names: seq<string>, items: seq<Json>, i: nat)
    ensures WalkItems(c, e, names, NumericItems(items), i) == WalkItems(c, e, names, items, i)
    ensures ItemsHeight(NumericItems(items)) == ItemsHeight(items)
    decreases items, 0
  {
    if items != [] {
      var name := Decimal(i);
      assert NumericItems(items)[1..] == NumericItems(items[1..]);
      NumericWalk(c, Child(c.store, e, name), names + [Cut(name, NAME_LEN)], items[0]);
      NumericWalkItems(c, e, names, items[1..], i + 1);
    }
  }

  lemma {:induction false} NumericWalkMembers(c: Config, e: Option<Entry>, names: seq<string>, members: seq<Member>)
    ensures WalkMembers(c, e, names, NumericMembers(members)) == WalkMembers(c, e, names, members)
    ensures MembersHeight(NumericMembers(members)) == MembersHeight(members)
    decreases members, 0
  {
    if members != [] {
      var name := CString(members[0].name);
      assert NumericMembers(members)[1..] == NumericMembers(members[1..]);
      NumericWalk(c, Child(c.store, e, name), names + [Cut(name, NAME_LEN)], members[0].value);
      NumericWalkMembers(c, e, names, members[1..]);
    }
  }

  /** Booleans and strings are read like numbers: true as 1, false as 0, a string as its text. */
  lemma ReadAsNumbers(c: Config, j: Json, max: nat)
    requires Height(j) < max
    ensures Run(c, Fresh(max, []), Events(j)).0.out == Run(c, Fresh(max, []), Events(Numeric(j))).0.out
    ensures Run(c, Fresh(max, []), Events(j)).1 && Run(c, Fresh(max, []), Events(Numeric(j))).1
  {
    NumericWalk(c, Some(ROOT), [], j);
    ReadIsWalk(c, j, max, []);
    ReadIsWalk(c, Numeric(j), max, []);
  }

  // ------------------------------------------------------------ the type instance

  /** Level names joined by dashes. */
  function Dashed(names: seq<string>): string {
    if names == [] then ""
    else if |names| == 1 then names[0]
    else Dashed(names[..|names| - 1]) + "-" + names[|names| - 1]
  }

  lemma DashedSnoc(names: seq<string>, last: string)
    ensures Dashed(names + [last]) == if names == [] then last else Dashed(names) + ['-'] + last
  {
    assert (names + [last])[..|names|] == names;
  }

  /** One dash between any two names, and nothing else. */
  lemma {:induction false} DashedParts(a: seq<string>, b: seq<string>)
    requires a != [] && b != []
    ensures Dashed(a + b) == Dashed(a) + ['-'] + Dashed(b)
    ensures |a| == 1 ==> Dashed(a) == a[0]
    decreases |b|
  {
    var init, last := b[..|b| - 1], b[|b| - 1];
    assert b == init + [last] && a + b == (a + init) + [last];
    DashedSnoc(a + init, last);
    DashedSnoc(init, last);
    if init == [] {
      assert a + init == a;
    } else {
      DashedParts(a, init);
    }
  }

  /** Does key i of this list find its place, after those before it? */
  predicate Accepted(keys: seq<Key>, i: nat)
    requires i < |keys|
  {
    Append(WithRoot(Configure(keys[..i])), 0, Parts(keys[i]), keys[i]).1 == Done
  }

  ghost predicate AcceptedTo(keys: seq<Key>, n: nat)
    requires n <= |keys|
  {
    forall k :: 0 <= k < n ==> Accepted(keys, k)
  }

  /** Key i is the first that does not, and the last that was tried. */
  ghost predicate StoppedAt(keys: seq<Key>, i: nat, store: Store) {
    i < |keys| && !Accepted(keys, i) && AcceptedTo(keys, i) && store == Configure(keys[..i + 1])
  }

  lemma ConfigureNext(keys: seq<Key>, i: nat)
    requires i < |keys|
    ensures Configure(keys[..i + 1]) == Append(WithRoot(Configure(keys[..i])), 0, Parts(keys[i]), keys[i]).0
  {
    assert keys[..i + 1][..i] == keys[..i];
  }

  /** Insertion i of a prefix-free configuration succeeds. */
  lemma EachAccepted(keys: seq<Key>, i: nat)
    requires i < |keys| && PrefixFree(keys)
    ensures Accepted(keys, i)
  {
    var upTo := keys[..i + 1];
    assert upTo[..i] == keys[..i];
    forall j | 0 <= j < |upTo| ensures upTo[j] == keys[j] {
    }
    ConfigureRealises(upTo);
  }

  /** One callback of a well-nested event stream. */
  lemma ParseStep(c: Config, s: Stack, events: seq<Event>, i: nat)
    requires s.Fits() && i < |events| && Nested(events[i..], s.depth)
    ensures events[i].EndMap? || events[i].EndArray? || events[i].MapKey? ==> 0 < s.depth
    ensures var (s', ok) := Step(c, s, events[i]);
            if ok then Run(c, s, events[i..]) == Run(c, s', events[i + 1..]) && Nested(events[i + 1..], s'.depth)
            else Run(c, s, events[i..]) == (s', false)
  {
    assert events[i..] == [events[i]] + events[i + 1..];
    NestedFirst(events[i], events[i + 1..], s.depth);
    assert events[i..][1..] == events[i + 1..];
  }

  // ------------------------------------------------------------------ the object

  /** cj_t. `state` is the fixed array of YAJL_MAX_DEPTH levels. */
  class Database {
    const parse: (Key, string) -> Option<Value>
    var store: Store
    var depth: int
    var state: array<Level>
    var submitted: seq<Submission>

    ghost predicate Valid()
      reads this
    {
      0 <= depth < state.Length
    }

    ghost function View(): (s: Stack)
      requires Valid()
      reads this, state
      ensures s.Fits()
    {
      Stack(depth, state[..], submitted)
    }

    ghost function Cfg(): Config
      reads this
    {
      Config(store, parse)
    }

    constructor (max: nat, parse: (Key, string) -> Option<Value>)
      requires 0 < max
      ensures Valid() && fresh(state) && state.Length == max
      ensures store == [] && submitted == [] && this.parse == parse
    {
      this.parse := parse;
      store := [];
      depth := 0;
      submitted := [];
      state := new Level[max](i => ZERO);
    }

    // -- configuration

    /** cj_append_key */
    method AppendKey(key: Key) returns (status: Status)
      requires store == [] || IsTree(store)
      modifies this`store
      ensures (store, status) == Append(WithRoot(old(store)), 0, Parts(key), key)
      ensures IsTree(store)
    {
      if store == [] {
        store := [map[]];
      }
      ghost var tree, parts := store, Parts(key);
      assert IsTree(tree) by {
        if old(store) == [] {
          NothingConfigured();
        }
      }
      AppendIsTree(tree, 0, parts, key);
      var node := 0;
      var rest := StripSlash(key.path);
      var end := IndexOf(rest, '/');
      while end < |rest|
        invariant IsTree(store) && node < |store| && end == IndexOf(rest, '/')
        invariant Append(store, node, Segments(rest), key) == Append(tree, 0, parts, key)
        decreases |rest|
      {
        if end == 0 {
          break;
        }
        var name := rest[..Min(end, PATH_MAX - 1)];
        assert Segments(rest)[1..] == Segments(rest[end + 1..]);
        WithNodeIsTree(store, node, name);
        if name !in store[node] {
          store := store[node := store[node][name := TreeEntry(|store|)]] + [map[]];
        }
        match store[node][name] {
          case KeyEntry(_) => return NotATree;
          case TreeEntry(m) =>
            assert Sub(store, node, name) == Some(m);
            node := m;
        }
        rest := rest[end + 1..];
        end := IndexOf(rest, '/');
      }
      assert Segments(rest) == [rest];
      if rest == "" {
        return EmptyName;
      }
      if rest !in store[node] {
        store := store[node := store[node][rest := KeyEntry(key)]];
      }
      return Done;
    }

    /** The Key blocks of one URL block: cj_config_add_url stops at the first failure. */
    method AddKeys(keys: seq<Key>) returns (ok: bool)
      requires store == []
      modifies this`store
      ensures ok ==> store == Configure(keys) && AcceptedTo(keys, |keys|)
      ensures !ok ==> exists i :: StoppedAt(keys, i, store)
      ensures PrefixFree(keys) ==> ok
      ensures store == [] || IsTree(store)
    {
      for i := 0 to |keys|
        invariant store == Configure(keys[..i])
        invariant store == [] || IsTree(store)
        invariant AcceptedTo(keys, i)
      {
        var status := AppendKey(keys[i]);
        ConfigureNext(keys, i);
        if status != Done {
          if PrefixFree(keys) {
            EachAccepted(keys, i);
          }
          assert StoppedAt(keys, i, store);
          return false;
        }
      }
      assert keys[..|keys|] == keys;
      return true;
    }

    // -- callbacks

    method LoadKey(key: string) returns (ok: bool)
      requires Valid()
      modifies state
      ensures View() == CurlJsonStream.LoadKey(Cfg(), old(View()), key)
      ensures ok == (depth > 0)
    {
      if depth <= 0 {
        return false;
      }
      state[depth] := state[depth].(name := Cut(key, NAME_LEN));
      var parent := state[depth - 1].entry;
      if parent.None? || !parent.value.TreeEntry? {
        return true;
      }
      var node := parent.value.node;
      if node < |store| && key in store[node] {
        state[depth] := state[depth].(entry := Some(store[node][key]));
      } else if node < |store| && ANY in store[node] {
        state[depth] := state[depth].(entry := Some(store[node][ANY]));
      } else {
        state[depth] := state[depth].(entry := None);
      }
      assert View().levels == CurlJsonStream.LoadKey(Cfg(), old(View()), key).levels;
      return true;
    }

    method AdvanceArray()
      requires Valid()
      modifies state
      ensures View() == CurlJsonStream.AdvanceArray(Cfg(), old(View()))
    {
      if !state[depth].inArray {
        return;
      }
      state[depth] := state[depth].(index := state[depth].index + 1);
      var _ := LoadKey(DecimalInt(state[depth].index));
    }

    method OnNumber(text: string)
      requires Valid()
      modifies state, this`submitted
      ensures View() == Scalar(Cfg(), old(View()), text)
    {
      var e := state[depth].entry;
      if e.None? || !e.value.KeyEntry? {
        AdvanceArray();
        return;
      }
      var value := parse(e.value.key, CString(text));
      if value.None? {
        AdvanceArray();
        return;
      }
      Submit(e.value.key, value.value);
      AdvanceArray();
    }

    /** cj_submit, with the level names that cj_submit_impl would join. */
    method Submit(key: Key, value: Value)
      requires Valid()
      modifies this`submitted
      ensures submitted == old(submitted) + [Submission(key, value, View().Names())]
    {
      var names := [];
      for i := 0 to depth
        invariant names == View().Names()[..i]
      {
        names := names + [state[i + 1].name];
      }
      assert names == View().Names();
      submitted := submitted + [Submission(key, value, names)];
    }

    method CloseLevel()
      requires Valid() && 0 < depth
      modifies state, this`depth
      ensures Valid() && View() == End(Cfg(), old(View()))
    {
      state[depth] := ZERO;
      depth := depth - 1;
      AdvanceArray();
    }

    method OnStartMap() returns (ok: bool)
      requires Valid()
      modifies this`depth
      ensures Valid() && (View(), ok) == Step(Cfg(), old(View()), StartMap)
    {
      if depth + 1 >= state.Length {
        return false;
      }
      depth := depth + 1;
      return true;
    }

    method OnStartArray() returns (ok: bool)
      requires Valid()
      modifies state, this`depth
      ensures Valid() && (View(), ok) == Step(Cfg(), old(View()), StartArray)
    {
      if depth + 1 >= state.Length {
        return false;
      }
      depth := depth + 1;
      state[depth] := state[depth].(inArray := true);
      state[depth] := state[depth].(index := 0);
      ghost var deeper := old(View()).(depth := depth);
      assert View().levels == deeper.SetTop(deeper.Top().(inArray := true, index := 0)).levels;
      var _ := LoadKey("0");
      return true;
    }

    method OnEndArray()
      requires Valid() && 0 < depth
      modifies state, this`depth
      ensures Valid() && (View(), true) == Step(Cfg(), old(View()), EndArray)
    {
      state[depth] := state[depth].(inArray := false);
      CloseLevel();
    }

    /** yajl's dispatch of one event to its callback. */
    method Callback(event: Event) returns (ok: bool)
      requires Valid()
      requires event.EndMap? || event.EndArray? || event.MapKey? ==> 0 < depth
      modifies state, this`depth, this`submitted
      ensures Valid() && (View(), ok) == Step(Cfg(), old(View()), event)
    {
      ok := true;
      match event
      case OnNull => AdvanceArray();
      case OnBool(b) => OnNumber(if b then "1" else "0");
      case OnNumber(text) => OnNumber(text);
      case OnString(text) => OnNumber(text);
      case StartMap => ok := OnStartMap();
      case StartArray => ok := OnStartArray();
      case MapKey(name) => ok := LoadKey(CString(name));
      case EndMap => CloseLevel();
      case EndArray => OnEndArray();
    }

    /** yajl_parse over all events of a document. */
    method Parse(events: seq<Event>) returns (ok: bool)
      requires Valid() && Nested(events, depth)
      modifies state, this`depth, this`submitted
      ensures Valid() && (View(), ok) == Run(Cfg(), old(View()), events)
    {
      var i := 0;
      while i < |events|
        invariant i <= |events| && Valid() && Nested(events[i..], depth)
        invariant Run(Cfg(), View(), events[i..]) == Run(Cfg(), old(View()), events)
      {
        ParseStep(Cfg(), View(), events, i);
        ok := Callback(events[i]);
        if !ok {
          return false;
        }
        i := i + 1;
      }
      return true;
    }

    /** cj_read: whatever an earlier, possibly aborted read left behind, a document
        within the depth limit is submitted as the recursive walk says; a deeper one
        is aborted after a prefix of these submissions. */
    method Read(j: Json) returns (ok: bool)
      requires Valid()
      modifies state, this`depth, this`submitted
      ensures Valid()
      ensures ok == (Height(j) < state.Length)
      ensures ok ==> submitted == old(submitted) + Walk(Cfg(), Some(ROOT), [], j)
      ensures old(submitted) <= submitted <= old(submitted) + Walk(Cfg(), Some(ROOT), [], j)
    {
      depth := 0;
      forall i | 0 <= i < state.Length {
        state[i] := ZERO;
      }
      state[0] := state[0].(entry := Some(ROOT));
      assert View().levels == Fresh(state.Length, submitted).levels;
      ReadIsWalk(Cfg(), j, state.Length, submitted);
      assert Events(j) + [] == Events(j);
      EventsNested(j, 0, []);
      ok := Parse(Events(j));
      state[0] := state[0].(entry := None);
    }

    /** The type_instance that cj_submit_impl builds: the configured instance, or the
        level names joined by dashes and cut to the buffer. The loop advances by the
        untruncated length of each piece; it has no defined result (None) exactly if
        everything before the last name is longer than the buffer. */
    method TypeInstance(key: Key) returns (text: Option<string>)
      requires Valid()
      ensures key.instance.Some? ==> text == Some(Cut(key.instance.value, NAME_LEN))
      ensures key.instance.None? ==>
                text == if depth > 0 && |Dashed(View().Names()[..depth - 1])| > NAME_LEN then None
                        else Some(Cut(Dashed(View().Names()), NAME_LEN))
    {
      if key.instance.Some? {
        return Some(Cut(key.instance.value, NAME_LEN));
      }
      ghost var names := View().Names();
      var joined := "";
      var len := 0;
      var i := 0;
      while i < depth
        invariant 0 <= i <= depth
        invariant len == |Dashed(names[..i])| && joined == Cut(Dashed(names[..i]), NAME_LEN)
        invariant i > 0 ==> |Dashed(names[..i - 1])| <= NAME_LEN
      {
        if len > NAME_LEN {
          DashedGrows(names, i, depth - 1);
          return None;
        }
        var piece := if i != 0 then "-" + state[i + 1].name else state[i + 1].name;
        OneMoreName(names, i, piece);
        if len < NAME_LEN {
          joined := joined + Cut(piece, NAME_LEN - len);
        }
        len := len + |piece|;
        i := i + 1;
      }
      assert names[..depth] == names;
      return Some(joined);
    }
  }

  /** The case without a defined result: two names of the greatest length, and any third. */
  lemma LongNames(long: string, last: string)
    requires |long| == 127
    ensures var names := [long, long, last];
            |Dashed(names[..|names| - 1])| == 255 > NAME_LEN
  {
    assert [long, long, last][..2] == [long, long] && [long, long][..1] == [long];
  }

  /** A number three objects deep, below two keys of this name. */
  function DeepNumber(long: string, text: string): Json {
    Obj([Member(long, Obj([Member(long, Obj([Member("c", Num(text))]))]))])
  }

  lemma DeepNumberLeaves(long: string, text: string)
    requires '\0' !in long
    ensures Leaves(DeepNumber(long, text), []) == [LeafValue([long, long, "c"], text)]
    ensures Height(DeepNumber(long, text)) == 3
  {
    CStringWhole(long);
    CStringWhole("c");
    OneMember(long, Obj([Member(long, Obj([Member("c", Num(text))]))]), []);
    OneMember(long, Obj([Member("c", Num(text))]), [long]);
    OneMember("c", Num(text), [long, long]);
    assert [] + [long] == [long] && [long] + [long] == [long, long] && [long, long] + ["c"] == [long, long, "c"];
  }

  lemma OneMember(name: string, value: Json, path: seq<string>)
    requires CString(name) == name
    ensures Leaves(Obj([Member(name, value)]), path) == Leaves(value, path + [name])
    ensures Height(Obj([Member(name, value)])) == 1 + Height(value)
  {
    var members := [Member(name, value)];
    var none: seq<Member> := [];
    assert members[1..] == none && members[0].value == value;
    assert MemberLeaves(none, path) == [] && MembersHeight(none) == 0;
    assert MemberLeaves(members, path) == Leaves(value, path + [name]) + [] == Leaves(value, path + [name]);
    assert MembersHeight(members) == Height(value);
  }

  /** Such a document does reach the submission, under a configured path without an
      instance: the names are the two long ones and a third. */
  lemma LongNamesSubmitted(long: string, text: string, key: Key, parse: (Key, string) -> Option<Value>, max: nat)
    requires |long| == 127 && '\0' !in long && '/' !in long && 3 < max
    requires key.path == long + "/" + (long + "/" + "c") && parse(key, CString(text)).Some?
    ensures var (s, ok) := Run(Config(WithRoot(Configure([key])), parse), Fresh(max, []), Events(DeepNumber(long, text)));
            ok && s.out == [Submission(key, parse(key, CString(text)).value, [long, long, "c"])]
  {
    var names := [long, long, "c"];
    var list := [Configured(names, key)];
    DeepNumberLeaves(long, text);
    assert CutAll(names) == names;
    ThreeJoined(long, "c");
    OrdinaryPath(names, key);
    PartsSpelled(key, names);
    assert Keys(list) == [key];
    ExactPathWins(list, 0);
    OneSelected(list, parse, LeafValue(names, text));
    EndToEnd(list, parse, DeepNumber(long, text), max);
  }

  lemma ThreeJoined(long: string, last: string)
    ensures JoinPath([long, long, last]) == long + "/" + (long + "/" + last)
  {
    assert [long, long, last][1..] == [long, last] && [long, last][1..] == [last];
    assert JoinPath([long, last]) == long + "/" + last;
  }

  lemma OneSelected(list: seq<Configured>, parse: (Key, string) -> Option<Value>, leaf: LeafValue)
    ensures Selected(list, parse, [leaf]) ==
            match KeyAt(list, leaf.path)
            case Some(key) =>
              (match parse(key, CString(leaf.text))
               case Some(value) => [Submission(key, value, CutAll(leaf.path))]
               case None => [])
            case None => []
  {
    assert [leaf][1..] == [];
  }

  /** An exact path next to a wildcard: with a/b and a/<any> configured, in this order, the
      member b goes to the first key and the member c to the second one. */
  lemma WildcardBesideName(exact: Key, any: Key, x: string, y: string,
                           parse: (Key, string) -> Option<Value>, max: nat)
    requires exact.path == "a/b" && any.path == "/a/*" && 2 < max
    requires parse(exact, CString(x)).Some? && parse(any, CString(y)).Some?
    ensures var document := Obj([Member("a", Obj([Member("b", Num(x)), Member("c", Num(y))]))]);
            var (s, ok) := Run(Config(WithRoot(Configure([exact, any])), parse), Fresh(max, []), Events(document));
            && ok
            && s.out == [Submission(exact, parse(exact, CString(x)).value, ["a", "b"]),
                         Submission(any, parse(any, CString(y)).value, ["a", "c"])]
  {
    var list := [Configured(["a", "b"], exact), Configured(["a", "*"], any)];
    var document := Obj([Member("a", Obj([Member("b", Num(x)), Member("c", Num(y))]))]);
    var first, second := LeafValue(["a", "b"], x), LeafValue(["a", "c"], y);
    BesideName(list, exact, any);
    assert Keys(list) == [exact, any];
    TwoMembers(x, y);
    TwoSelected(list, parse, first, second);
    ShortNames("a", "b");
    ShortNames("a", "c");
    EndToEnd(list, parse, document, max);
  }

  lemma BesideName(list: seq<Configured>, exact: Key, any: Key)
    requires exact.path == "a/b" && any.path == "/a/*"
    requires list == [Configured(["a", "b"], exact), Configured(["a", "*"], any)]
    ensures Configures(list)
    ensures KeyAt(list, ["a", "b"]) == Some(exact) && KeyAt(list, ["a", "c"]) == Some(any)
  {
    TwoNames("a", "b", exact);
    TwoNames("a", "*", any);
    ExactPathWins(list, 0);
    NotLeading(list);
    assert Governs(list, 1, ["a", "c"]);
    SelectionRule(list, ["a", "c"]);
  }

  lemma NotLeading(list: seq<Configured>)
    requires |list| == 2 && list[0].names == ["a", "b"] && list[1].names == ["a", "*"]
    ensures !Leads(list, ["a"] + ["c"])
  {
    assert (["a"] + ["c"])[1] == "c";
  }

  lemma TwoSelected(list: seq<Configured>, parse: (Key, string) -> Option<Value>, a: LeafValue, b: LeafValue)
    requires KeyAt(list, a.path).Some? && parse(KeyAt(list, a.path).value, CString(a.text)).Some?
    requires KeyAt(list, b.path).Some? && parse(KeyAt(list, b.path).value, CString(b.text)).Some?
    ensures Selected(list, parse, [a, b]) ==
            [Submission(KeyAt(list, a.path).value, parse(KeyAt(list, a.path).value, CString(a.text)).value, CutAll(a.path)),
             Submission(KeyAt(list, b.path).value, parse(KeyAt(list, b.path).value, CString(b.text)).value, CutAll(b.path))]
  {
    OneSelected(list, parse, a);
    OneSelected(list, parse, b);
    assert [a, b] == [a] + [b];
    SelectedConcat(list, parse, [a], [b]);
  }

  lemma ShortNames(a: string, b: string)
    requires |a| < 128 && |b| < 128
    ensures CutAll([a, b]) == [a, b]
  {
  }

  /** The choice at one level is not taken back further down: with a/b/c and a/<any>/x
      configured, a document's a/b/x selects nothing. */
  lemma NoBacktracking(list: seq<Configured>)
    requires |list| == 2 && list[0].names == ["a", "b", "c"] && list[1].names == ["a", "*", "x"]
    ensures KeyAt(list, ["a", "b", "x"]) == None
  {
    var path := ["a", "b", "x"];
    assert list[0].names[2] != path[2];
    assert ["a", "*", "x"][..1] + [path[1]] == ["a", "b"] <= list[0].names;
    assert list[1].names[1] != path[1] && Leads(list, list[1].names[..1] + [path[1]]);
    SelectionRule(list, path);
  }

  lemma TwoNames(a: string, b: string, key: Key)
    requires 0 < |a| < 4096 && '/' !in a && b != "" && '/' !in b
    requires key.path == a + "/" + b || key.path == "/" + (a + "/" + b)
    ensures Spells(key.path, [a, b])
  {
    assert [a, b][1..] == [b];
    OrdinaryPath([a, b], key);
    PartsSpelled(key, [a, b]);
  }

  lemma TwoMembers(x: string, y: string)
    ensures var document := Obj([Member("a", Obj([Member("b", Num(x)), Member("c", Num(y))]))]);
            && Leaves(document, []) == [LeafValue(["a", "b"], x), LeafValue(["a", "c"], y)]
            && Height(document) == 2
  {
    var members := [Member("b", Num(x)), Member("c", Num(y))];
    var none: seq<Member> := [];
    CStringWhole("a");
    CStringWhole("b");
    CStringWhole("c");
    OneMember("a", Obj(members), []);
    assert [] + ["a"] == ["a"] && ["a"] + ["b"] == ["a", "b"] && ["a"] + ["c"] == ["a", "c"];
    assert members[1..] == [Member("c", Num(y))] && members[1..][1..] == none;
    assert MemberLeaves(none, ["a"]) == [] && MembersHeight(none) == 0;
    assert MemberLeaves(members[1..], ["a"]) == Leaves(Num(y), ["a", "c"]);
    assert MemberLeaves(members, ["a"]) == Leaves(Num(x), ["a", "b"]) + Leaves(Num(y), ["a", "c"]);
    assert MembersHeight(members[1..]) == 0 && MembersHeight(members) == 0 && Height(Obj(members)) == 1;
  }

  lemma {:induction false} CStringWhole(s: string)
    requires '\0' !in s
    ensures CString(s) == s
  {
    if s != "" {
      CStringWhole(s[1..]);
    }
  }

  lemma OneMoreName(names: seq<string>, i: nat, piece: string)
    requires i < |names| && piece == if i != 0 then "-" + names[i] else names[i]
    ensures Dashed(names[..i + 1]) == Dashed(names[..i]) + piece
    ensures var joined := Dashed(names[..i]);
            Cut(joined + piece, NAME_LEN) ==
            if |joined| < NAME_LEN then Cut(joined, NAME_LEN) + Cut(piece, NAME_LEN - |joined|)
            else Cut(joined, NAME_LEN)
  {
    assert names[..i + 1][..i] == names[..i];
  }

  lemma {:induction false} DashedGrows(names: seq<string>, i: nat, k: nat)
    requires i <= k <= |names|
    ensures |Dashed(names[..i])| <= |Dashed(names[..k])|
    decreases k - i
  {
    if i < k {
      DashedGrows(names, i, k - 1);
      assert names[..k][..k - 1] == names[..k - 1];
      if k == 1 {
        assert names[..0] == [];
      }
    }
  }
}
