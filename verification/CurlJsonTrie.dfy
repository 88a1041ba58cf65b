/** The configuration tree of src/curl_json.c and cj_append_key, which extends it
    in place. Tree nodes are C pointers; here a node is an index into `Store`, the
    memory that holds the c_avl trees, so that an in-place insertion is an update
    of one cell. */
module CurlJsonTrie {
  import opened Common

  /** cj_key_t. A missing (NULL) instance is None. */
  datatype Key = Key(path: string, typ: string, instance: Option<string>)

  /** cj_tree_entry_t: a metric configuration, or a pointer to a subtree. */
  datatype Entry = KeyEntry(key: Key) | TreeEntry(node: nat)

  type Store = seq<map<string, Entry>>

  const ROOT: Entry := TreeEntry(0)

  /** The subtree that node i holds under a name. */
  function Sub(store: Store, i: nat, a: string): Option<nat> {
    if i < |store| && a in store[i] && store[i][a].TreeEntry? then Some(store[i][a].node) else None
  }

  /** Pointers stay inside the store, lead away from the root, and no subtree is shared. */
  ghost predicate IsTree(store: Store) {
    && 0 < |store|
    && (forall i: nat, a :: Sub(store, i, a).Some? ==> i < Sub(store, i, a).value < |store|)
    && (forall i: nat, a, j: nat, b :: Sub(store, i, a).Some? && Sub(store, i, a) == Sub(store, j, b) ==> i == j && a == b)
  }

  /** The entry found by following `path` down from `e`. */
  function Resolve(store: Store, e: Entry, path: seq<string>): Option<Entry>
    decreases |path|
  {
    if path == [] then Some(e)
    else if e.TreeEntry? && e.node < |store| && path[0] in store[e.node] then
      Resolve(store, store[e.node][path[0]], path[1..])
    else None
  }

  /** What the configuration says about a path, without node numbers. */
  datatype Kind = Unbound | Branch | Leaf(key: Key)

  function Look(store: Store, path: seq<string>): Kind {
    match Resolve(store, ROOT, path)
    case None => Unbound
    case Some(KeyEntry(key)) => Leaf(key)
    case Some(TreeEntry(_)) => Branch
  }

  // ---------------------------------------------------------------- cj_append_key

  const PATH_MAX: nat := 4096

  function IndexOf(s: string, c: char): (i: nat)
    ensures i <= |s|
    ensures c !in s[..i]
    ensures i < |s| ==> s[i] == c
  {
    if s == "" || s[0] == c then 0 else 1 + IndexOf(s[1..], c)
  }

  function StripSlash(path: string): string {
    if path != "" && path[0] == '/' then path[1..] else path
  }

  /** The node names a path stands for. An empty component ends the splitting, and
      whatever is left becomes the last name. */
  function Segments(s: string): (r: seq<string>)
    ensures r != []
    decreases |s|
  {
    var i := IndexOf(s, '/');
    if i == |s| || i == 0 then [s]
    else [s[..Min(i, PATH_MAX - 1)]] + Segments(s[i + 1..])
  }

  function Parts(key: Key): (r: seq<string>)
    ensures r != []
  {
    Segments(StripSlash(key.path))
  }

  // ------------------------------------------------------- what a path text means

  function JoinPath(names: seq<string>): string
    requires names != []
    decreases |names|
  {
    if |names| == 1 then names[0] else names[0] + "/" + JoinPath(names[1..])
  }

  /** Non-empty components without a slash, and a last one in which a slash can only
      follow another one: it begins with the slash that ended the splitting. */
  ghost predicate Components(comps: seq<string>) {
    && comps != []
    && (forall i :: 0 <= i < |comps| - 1 ==> comps[i] != "" && '/' !in comps[i])
    && var last := comps[|comps| - 1];
       '/' in last ==> last[0] == '/'
  }

  /** The components as node names: all but the last pass through a buffer of 4096 bytes. */
  ghost predicate Named(comps: seq<string>, names: seq<string>)
    requires comps != []
  {
    && |names| == |comps|
    && (forall i :: 0 <= i < |comps| - 1 ==> names[i] == Cut(comps[i], 4096))
    && names[|comps| - 1] == comps[|comps| - 1]
  }

  /** The text is the components joined by slashes; one slash in front does not matter. */
  ghost predicate Written(text: string, comps: seq<string>)
    requires comps != []
  {
    || text == "/" + JoinPath(comps)
    || (text == JoinPath(comps) && (text != "" ==> text[0] != '/'))
  }

  ghost predicate Spells(text: string, names: seq<string>) {
    exists comps :: Components(comps) && Written(text, comps) && Named(comps, names)
  }

  lemma NotBefore(s: string, i: nat, c: char)
    requires i <= |s| && c !in s[..i]
    ensures forall k :: 0 <= k < i ==> s[k] != c
  {
    forall k | 0 <= k < i ensures s[k] != c {
      assert s[..i][k] == s[k];
    }
  }

  lemma FirstSlash(s: string, i: nat)
    requires i <= |s| && '/' !in s[..i] && (i < |s| ==> s[i] == '/')
    ensures IndexOf(s, '/') == i
  {
    var k := IndexOf(s, '/');
    NotBefore(s, i, '/');
    NotBefore(s, k, '/');
  }

  /** Splitting undoes joining. */
  lemma {:induction false} SegmentsOfJoin(comps: seq<string>)
    requires Components(comps)
    ensures Named(comps, Segments(JoinPath(comps)))
    decreases |comps|
  {
    var s := JoinPath(comps);
    if |comps| == 1 {
      FirstSlash(s, if '/' in s then 0 else |s|);
    } else {
      var rest := comps[1..];
      SegmentsOfJoin(rest);
      FirstSlash(s, |comps[0]|) by {
        assert s[..|comps[0]|] == comps[0];
      }
      assert s[|comps[0]| + 1..] == JoinPath(rest);
      assert s[..Min(|comps[0]|, PATH_MAX - 1)] == Cut(comps[0], 4096);
      NamedCons(comps, Segments(JoinPath(rest)));
    }
  }

  lemma NamedCons(comps: seq<string>, names: seq<string>)
    requires |comps| > 1 && Named(comps[1..], names)
    ensures Named(comps, [Cut(comps[0], 4096)] + names)
  {
    forall i | 0 < i < |comps| - 1 ensures names[i - 1] == Cut(comps[i], 4096) {
      assert comps[1..][i - 1] == comps[i];
    }
  }

  /** Every text is written in one way or another. */
  lemma {:induction false} ComponentsOf(s: string) returns (comps: seq<string>)
    ensures Components(comps) && JoinPath(comps) == s
    decreases |s|
  {
    var i := IndexOf(s, '/');
    if i == |s| || i == 0 {
      comps := [s];
    } else {
      var rest := ComponentsOf(s[i + 1..]);
      comps := [s[..i]] + rest;
      assert comps[1..] == rest;
      assert s == s[..i] + "/" + s[i + 1..];
    }
  }

  /** The names of a path are the ones that its text spells, and no others. */
  lemma PartsSpelled(key: Key, names: seq<string>)
    ensures Spells(key.path, names) <==> names == Parts(key)
  {
    var comps := ComponentsOf(StripSlash(key.path));
    SegmentsOfJoin(comps);
    assert Written(key.path, comps) by {
      if key.path != "" && key.path[0] == '/' {
        assert key.path == "/" + key.path[1..];
      }
    }
    if Spells(key.path, names) {
      var c :| Components(c) && Written(key.path, c) && Named(c, names);
      assert StripSlash(key.path) == JoinPath(c);
      SegmentsOfJoin(c);
      NamedOnce(c, names, Parts(key));
    }
  }

  lemma NamedOnce(comps: seq<string>, a: seq<string>, b: seq<string>)
    requires comps != [] && Named(comps, a) && Named(comps, b)
    ensures a == b
  {
    forall i | 0 <= i < |comps| ensures a[i] == b[i] {
    }
  }

  /** Ordinary paths: names joined by slashes, with or without a slash in front. */
  lemma OrdinaryPath(names: seq<string>, key: Key)
    requires names != [] && forall i :: 0 <= i < |names| ==> names[i] != "" && '/' !in names[i]
    requires forall i :: 0 <= i < |names| - 1 ==> |names[i]| < 4096
    requires key.path == JoinPath(names) || key.path == "/" + JoinPath(names)
    ensures Parts(key) == names
  {
    assert names[0] <= JoinPath(names);
    assert Written(key.path, names) by {
      assert JoinPath(names)[0] == names[0][0];
    }
    assert Named(names, names);
    PartsSpelled(key, names);
  }

  /** An empty component: the slash that makes it, and all that follows, is one name. */
  lemma EmptyComponent(names: seq<string>, rest: string, key: Key)
    requires names != [] && forall i :: 0 <= i < |names| ==> 0 < |names[i]| < 4096 && '/' !in names[i]
    requires key.path == JoinPath(names) + "/" + "/" + rest
    ensures Parts(key) == names + ["/" + rest]
  {
    var last := "/" + rest;
    JoinSnoc(names, last);
    var comps := names + [last];
    assert key.path == JoinPath(comps);
    assert names[0] <= JoinPath(names);
    assert key.path[0] == names[0][0];
    assert Named(comps, comps);
    PartsSpelled(key, comps);
  }

  lemma {:induction false} JoinSnoc(names: seq<string>, last: string)
    requires names != []
    ensures JoinPath(names + [last]) == JoinPath(names) + "/" + last
    decreases |names|
  {
    assert (names + [last])[1..] == names[1..] + [last];
    if |names| > 1 {
      JoinSnoc(names[1..], last);
    }
  }

  /** Return values of cj_append_key: 0, -1 and EINVAL. */
  datatype Status = Done | EmptyName | NotATree

  /** The node for `name` under node n, created empty when it is missing. */
  function WithNode(store: Store, n: nat, name: string): Store
    requires n < |store|
  {
    if name in store[n] then store
    else store[n := store[n][name := TreeEntry(|store|)]] + [map[]]
  }

  /** c_avl_insert: an existing entry is left alone. */
  function InsertKey(store: Store, n: nat, name: string, key: Key): Store
    requires n < |store|
  {
    if name in store[n] then store else store[n := store[n][name := KeyEntry(key)]]
  }

  function Append(store: Store, n: nat, parts: seq<string>, key: Key): (Store, Status)
    requires n < |store| && parts != []
    decreases |parts|
  {
    if |parts| == 1 then
      if parts[0] == "" then (store, EmptyName)
      else (InsertKey(store, n, parts[0], key), Done)
    else
      var store': Store := WithNode(store, n, parts[0]);
      match store'[n][parts[0]]
      case KeyEntry(_) => (store', NotATree)
      case TreeEntry(m) =>
        if m < |store'| then Append(store', m, parts[1..], key) else (store', NotATree)
  }

  // ------------------------------------------------- what an insertion changes

  lemma {:induction false} ResolveSnoc(store: Store, e: Entry, path: seq<string>, a: string)
    ensures Resolve(store, e, path + [a]) ==
            match Resolve(store, e, path)
            case Some(TreeEntry(i)) =>
              if i < |store| && a in store[i] then Some(store[i][a]) else None
            case _ => None
    decreases |path|
  {
    if path == [] {
      assert (path + [a])[1..] == [];
    } else {
      assert (path + [a])[1..] == path[1..] + [a];
      if e.TreeEntry? && e.node < |store| && path[0] in store[e.node] {
        ResolveSnoc(store, store[e.node][path[0]], path[1..], a);
      }
    }
  }

  /** In a tree, a node is reached by one path only. */
  lemma {:induction false} OnePath(store: Store, r: seq<string>, q: seq<string>, m: nat)
    requires IsTree(store)
    requires Resolve(store, ROOT, r) == Some(TreeEntry(m)) == Resolve(store, ROOT, q)
    ensures r == q
    decreases |r|
  {
    if r != [] {
      var r', a := r[..|r| - 1], r[|r| - 1];
      assert r == r' + [a];
      ResolveSnoc(store, ROOT, r', a);
      assert Sub(store, Resolve(store, ROOT, r').value.node, a) == Some(m);
    }
    if q != [] {
      var q', b := q[..|q| - 1], q[|q| - 1];
      assert q == q' + [b];
      ResolveSnoc(store, ROOT, q', b);
      assert Sub(store, Resolve(store, ROOT, q').value.node, b) == Some(m);
      if r != [] {
        OnePath(store, r[..|r| - 1], q', Resolve(store, ROOT, q').value.node);
      }
    }
  }

  /** Adding one entry under the node at path q binds exactly the path q + [name]. */
  lemma {:induction false} InsertResolve(
    store: Store, store': Store, q: seq<string>, n: nat, name: string, e: Entry,
    r: seq<string>, at: Entry, p: seq<string>)
    requires IsTree(store) && n < |store| <= |store'| && name !in store[n]
    requires store'[..|store|] == store[n := store[n][name := e]]
    requires e.TreeEntry? ==> e.node == |store| < |store'| && store'[e.node] == map[]
    requires Resolve(store, ROOT, q) == Some(TreeEntry(n))
    requires Resolve(store, ROOT, r) == Some(at)
    ensures Resolve(store', at, p) ==
            if r + p == q + [name] then Some(e) else Resolve(store, at, p)
    decreases |p|
  {
    if p == [] {
      assert r + p == r;
      if r == q + [name] {
        ResolveSnoc(store, ROOT, q, name);
      }
    } else if at.TreeEntry? {
      var m := at.node;
      NodeInStore(store, r, m);
      assert store'[m] == store'[..|store|][m];
      assert r + p == (r + [p[0]]) + p[1..];
      if m == n {
        OnePath(store, r, q, n);
      }
      if p[0] in store[m] {
        ResolveSnoc(store, ROOT, r, p[0]);
        InsertResolve(store, store', q, n, name, e, r + [p[0]], store[m][p[0]], p[1..]);
      } else if m == n && p[0] == name {
        assert r + p == q + [name] + p[1..];
        assert p[1..] == [] || r + p != q + [name];
      } else if r + p == q + [name] {
        NotBelowUnbound(store, r, p, q, n, name);
      }
    } else if r + p == q + [name] {
      NotBelowUnbound(store, r, p, q, n, name);
    }
  }

  /** If r + p is q + [name] and q leads to node n, then p leaves r towards n. */
  lemma NotBelowUnbound(store: Store, r: seq<string>, p: seq<string>, q: seq<string>, n: nat, name: string)
    requires Resolve(store, ROOT, q) == Some(TreeEntry(n))
    requires p != [] && r + p == q + [name]
    ensures Resolve(store, ROOT, r).Some? && Resolve(store, ROOT, r).value.TreeEntry?
    ensures |p| == 1 ==> r == q && p[0] == name
    ensures |p| > 1 ==>
              var m := Resolve(store, ROOT, r).value.node;
              m < |store| && p[0] in store[m]
  {
    assert q == (r + p)[..|q|];
    assert q == r + p[..|p| - 1];
    assert name == (r + p)[|q|] == p[|p| - 1];
    ResolveConcat(store, ROOT, r, p[..|p| - 1]);
  }

  lemma {:induction false} ResolveConcat(store: Store, e: Entry, p: seq<string>, r: seq<string>)
    ensures Resolve(store, e, p + r) ==
            match Resolve(store, e, p) case Some(e') => Resolve(store, e', r) case None => None
    decreases |p|
  {
    if p == [] {
      assert p + r == r;
    } else {
      assert (p + r)[1..] == p[1..] + r;
      if e.TreeEntry? && e.node < |store| && p[0] in store[e.node] {
        ResolveConcat(store, store[e.node][p[0]], p[1..], r);
      }
    }
  }

  lemma NodeInStore(store: Store, r: seq<string>, m: nat)
    requires IsTree(store) && Resolve(store, ROOT, r) == Some(TreeEntry(m))
    ensures m < |store|
  {
    if r != [] {
      var r', a := r[..|r| - 1], r[|r| - 1];
      assert r == r' + [a];
      ResolveSnoc(store, ROOT, r', a);
      assert Sub(store, Resolve(store, ROOT, r').value.node, a) == Some(m);
    }
  }

  lemma WithNodeIsTree(store: Store, n: nat, name: string)
    requires IsTree(store) && n < |store|
    ensures IsTree(WithNode(store, n, name))
  {
    if name !in store[n] {
      var store': Store := WithNode(store, n, name);
      forall i: nat, a ensures Sub(store', i, a) == if i == n && a == name then Some(|store|) else Sub(store, i, a)
      {
      }
    }
  }

  lemma WithNodeLook(store: Store, q: seq<string>, n: nat, name: string)
    requires IsTree(store) && n < |store| && Resolve(store, ROOT, q) == Some(TreeEntry(n))
    ensures var store': Store := WithNode(store, n, name);
            && Resolve(store', ROOT, q + [name]) == Some(store'[n][name])
            && forall p :: Look(store', p) ==
                 if Look(store, p) == Unbound && p == q + [name] then Branch else Look(store, p)
  {
    ResolveSnoc(store, ROOT, q, name);
    if name !in store[n] {
      var e := TreeEntry(|store|);
      var store': Store := WithNode(store, n, name);
      forall p ensures Resolve(store', ROOT, p) ==
                       if p == q + [name] then Some(e) else Resolve(store, ROOT, p)
      {
        InsertResolve(store, store', q, n, name, e, [], ROOT, p);
        assert [] + p == p;
      }
    }
  }

  lemma InsertKeyIsTree(store: Store, n: nat, name: string, key: Key)
    requires IsTree(store) && n < |store|
    ensures IsTree(InsertKey(store, n, name, key))
  {
    var store': Store := InsertKey(store, n, name, key);
    forall i: nat, a ensures Sub(store', i, a) == Sub(store, i, a) {
    }
  }

  lemma {:induction false} AppendIsTree(store: Store, n: nat, parts: seq<string>, key: Key)
    requires IsTree(store) && n < |store| && parts != []
    ensures IsTree(Append(store, n, parts, key).0)
    decreases |parts|
  {
    if |parts| == 1 {
      InsertKeyIsTree(store, n, parts[0], key);
    } else {
      WithNodeIsTree(store, n, parts[0]);
      var store': Store := WithNode(store, n, parts[0]);
      if store'[n][parts[0]].TreeEntry? && store'[n][parts[0]].node < |store'| {
        AppendIsTree(store', store'[n][parts[0]].node, parts[1..], key);
      }
    }
  }

  lemma InsertKeyLook(store: Store, q: seq<string>, n: nat, name: string, key: Key)
    requires IsTree(store) && n < |store| && Resolve(store, ROOT, q) == Some(TreeEntry(n))
    ensures var store': Store := InsertKey(store, n, name, key);
            forall p :: Look(store', p) ==
                 if Look(store, p) == Unbound && p == q + [name] then Leaf(key) else Look(store, p)
  {
    ResolveSnoc(store, ROOT, q, name);
    if name !in store[n] {
      var store': Store := InsertKey(store, n, name, key);
      forall p ensures Resolve(store', ROOT, p) ==
                       if p == q + [name] then Some(KeyEntry(key)) else Resolve(store, ROOT, p)
      {
        InsertResolve(store, store', q, n, name, KeyEntry(key), [], ROOT, p);
        assert [] + p == p;
      }
    }
  }

  /** A configured key sits on a proper prefix of the new path (below q). */
  ghost predicate Blocked(store: Store, q: seq<string>, parts: seq<string>) {
    exists i :: 0 < i < |parts| && Look(store, q + parts[..i]).Leaf?
  }

  ghost function ExpectedStatus(store: Store, q: seq<string>, parts: seq<string>): Status
    requires parts != []
  {
    if Blocked(store, q, parts) then NotATree
    else if parts[|parts| - 1] == "" then EmptyName
    else Done
  }

  /** The configuration after an insertion: everything bound stays as it was; a key
      that collides with a bound path is dropped although the status is Done; the
      proper prefixes of the path become branches even when the last name is empty. */
  function ExpectedLook(before: Kind, status: Status, path: seq<string>, key: Key, p: seq<string>): Kind
    requires path != []
  {
    if before != Unbound || status == NotATree then before
    else if status == Done && p == path then Leaf(key)
    else if p <= path[..|path| - 1] then Branch
    else Unbound
  }

  lemma {:induction false} UnboundBelow(store: Store, p: seq<string>, r: seq<string>)
    requires Look(store, p) == Unbound
    ensures Look(store, p + r) == Unbound
  {
    ResolveConcat(store, ROOT, p, r);
  }

  lemma {:induction false} AppendLook(store: Store, q: seq<string>, n: nat, parts: seq<string>, key: Key)
    requires IsTree(store) && n < |store| && Resolve(store, ROOT, q) == Some(TreeEntry(n))
    requires parts != []
    ensures var (store', status) := Append(store, n, parts, key);
            && status == ExpectedStatus(store, q, parts)
            && forall p :: Look(store', p) == ExpectedLook(Look(store, p), status, q + parts, key, p)
    decreases |parts|
  {
    if |parts| == 1 {
      AppendLast(store, q, n, parts[0], key);
      assert parts == [parts[0]];
    } else {
      var store1: Store := WithNode(store, n, parts[0]);
      WithNodeIsTree(store, n, parts[0]);
      WithNodeLook(store, q, n, parts[0]);
      var q' := q + [parts[0]];
      assert q' + parts[1..] == q + parts;
      if store1[n][parts[0]].TreeEntry? {
        var m := store1[n][parts[0]].node;
        NodeInStore(store1, q', m);
        AppendLook(store1, q', m, parts[1..], key);
        BlockedStep(store, store1, q, parts);
        FreshNotBlocked(store, q, parts);
        var (store', status) := Append(store1, m, parts[1..], key);
        forall p ensures Look(store', p) == ExpectedLook(Look(store, p), status, q + parts, key, p) {
          ExpectedLookStep(Look(store, p), status, q, parts, key, p);
        }
      } else {
        assert q + parts[..1] == q';
        assert Look(store, q + parts[..1]).Leaf?;
      }
    }
  }

  /** Nothing below a missing node can block. */
  lemma FreshNotBlocked(store: Store, q: seq<string>, parts: seq<string>)
    requires |parts| > 1
    ensures Look(store, q + [parts[0]]) == Unbound ==> !Blocked(store, q, parts)
  {
    if Look(store, q + [parts[0]]) == Unbound {
      forall i | 0 < i < |parts| ensures !Look(store, q + parts[..i]).Leaf? {
        UnboundBelow(store, q + [parts[0]], parts[1..i]);
        assert q + [parts[0]] + parts[1..i] == q + parts[..i];
      }
    }
  }

  lemma ExpectedLookStep(before: Kind, status: Status, q: seq<string>, parts: seq<string>, key: Key, p: seq<string>)
    requires |parts| > 1
    requires before == Unbound && p == q + [parts[0]] ==> status != NotATree
    ensures ExpectedLook(if before == Unbound && p == q + [parts[0]] then Branch else before,
                         status, q + [parts[0]] + parts[1..], key, p) ==
            ExpectedLook(before, status, q + parts, key, p)
  {
    assert q + [parts[0]] + parts[1..] == q + parts;
    assert q + [parts[0]] <= (q + parts)[..|q + parts| - 1];
  }

  lemma AppendLast(store: Store, q: seq<string>, n: nat, name: string, key: Key)
    requires IsTree(store) && n < |store| && Resolve(store, ROOT, q) == Some(TreeEntry(n))
    ensures var (store', status) := Append(store, n, [name], key);
            && status == ExpectedStatus(store, q, [name])
            && forall p :: Look(store', p) == ExpectedLook(Look(store, p), status, q + [name], key, p)
  {
    var (store', status) := Append(store, n, [name], key);
    assert status == ExpectedStatus(store, q, [name]);
    PrefixesBound(store, q);
    if name != "" {
      InsertKeyLook(store, q, n, name, key);
    }
    forall p ensures Look(store', p) == ExpectedLook(Look(store, p), status, q + [name], key, p) {
      ExpectedLookLast(Look(store, p), status, q, name, key, p);
    }
  }

  lemma ExpectedLookLast(before: Kind, status: Status, q: seq<string>, name: string, key: Key, p: seq<string>)
    requires p <= q ==> before != Unbound
    ensures ExpectedLook(before, status, q + [name], key, p) ==
            if before == Unbound && status == Done && p == q + [name] then Leaf(key) else before
  {
    assert (q + [name])[..|q + [name]| - 1] == q;
  }

  lemma {:induction false} PrefixesBound(store: Store, q: seq<string>)
    requires Look(store, q) != Unbound
    ensures forall p :: p <= q ==> Look(store, p) != Unbound
  {
    forall p | p <= q ensures Look(store, p) != Unbound {
      assert p + q[|p|..] == q;
      if Look(store, p) == Unbound {
        UnboundBelow(store, p, q[|p|..]);
      }
    }
  }

  lemma BlockedStep(store: Store, store1: Store, q: seq<string>, parts: seq<string>)
    requires |parts| > 1
    requires Look(store1, q + [parts[0]]) == Branch
    requires forall p :: Look(store1, p) ==
               if Look(store, p) == Unbound && p == q + [parts[0]] then Branch else Look(store, p)
    ensures Blocked(store, q, parts) == Blocked(store1, q + [parts[0]], parts[1..])
  {
    var q' := q + [parts[0]];
    forall i | 0 < i < |parts| - 1 ensures q' + parts[1..][..i] == q + parts[..i + 1] {
    }
    if Blocked(store, q, parts) {
      var i :| 0 < i < |parts| && Look(store, q + parts[..i]).Leaf?;
      assert parts[..1] == [parts[0]];
      assert i != 1;
      assert q' + parts[1..][..i - 1] == q + parts[..i];
      assert Look(store1, q' + parts[1..][..i - 1]).Leaf?;
    }
    if Blocked(store1, q', parts[1..]) {
      var i :| 0 < i < |parts| - 1 && Look(store1, q' + parts[1..][..i]).Leaf?;
      assert Look(store, q + parts[..i + 1]).Leaf?;
    }
  }

  /** What a caller can rely on: nothing that is bound changes, a failed call changes no
      key at all, and the new key is found afterwards exactly if its path was free, no
      shorter key is in its way and it ends in a name. */
  lemma InsertionEffect(store: Store, parts: seq<string>, key: Key)
    requires IsTree(store) && parts != []
    ensures var (store', status) := Append(store, 0, parts, key);
            && (forall p :: Look(store, p) != Unbound ==> Look(store', p) == Look(store, p))
            && (status != Done ==> forall p :: Look(store, p) == Unbound ==> !Look(store', p).Leaf?)
            && (status == Done <==> !Blocked(store, [], parts) && parts[|parts| - 1] != "")
            && (Look(store', parts) == Leaf(key) <==>
                  || Look(store, parts) == Leaf(key)
                  || (Look(store, parts) == Unbound && !Blocked(store, [], parts) && parts[|parts| - 1] != ""))
  {
    AppendLook(store, [], 0, parts, key);
    assert [] + parts == parts;
  }

  /** The return value 0 is not enough: with a/b configured, the path a is accepted but
      its key is dropped, because c_avl_insert keeps the existing subtree. */
  lemma AcceptedButDropped(first: Key, second: Key)
    ensures var store: Store := Append([map[]], 0, ["a", "b"], first).0;
            var (store', status) := Append(store, 0, ["a"], second);
            status == Done && store' == store && Look(store', ["a"]) == Branch
  {
    var store: Store := Append([map[]], 0, ["a", "b"], first).0;
    assert store[0]["a"] == TreeEntry(1);
    assert Resolve(store, ROOT, ["a"]) == Some(TreeEntry(1));
  }

  // -------------------------------------------------- a whole configuration block

  /** db->tree is NULL, here an empty store, until the first key creates the root. */
  function WithRoot(store: Store): (r: Store)
    ensures 0 < |r|
  {
    if store == [] then [map[]] else store
  }

  /** The tree after cj_config_add_key has appended `keys` one after the other. */
  function Configure(keys: seq<Key>): Store {
    if keys == [] then []
    else
      var n := |keys| - 1;
      Append(WithRoot(Configure(keys[..n])), 0, Parts(keys[n]), keys[n]).0
  }

  /** No path is a prefix of another one (so they are distinct), and all end in a name. */
  ghost predicate PrefixFree(keys: seq<Key>) {
    && (forall i, j :: 0 <= i < |keys| && 0 <= j < |keys| && i != j ==> !(Parts(keys[i]) <= Parts(keys[j])))
    && (forall i :: 0 <= i < |keys| ==> Parts(keys[i])[|Parts(keys[i])| - 1] != "")
  }

  /** The tree holds exactly the given keys, each at its path, and only the branches they need. */
  ghost predicate Realises(store: Store, keys: seq<Key>) {
    && (forall i :: 0 <= i < |keys| ==> Look(store, Parts(keys[i])) == Leaf(keys[i]))
    && (forall p :: Look(store, p).Leaf? ==>
          exists i :: 0 <= i < |keys| && p == Parts(keys[i]) && Look(store, p).key == keys[i])
    && (forall p :: Look(store, p).Branch? ==>
          p == [] || exists i :: 0 <= i < |keys| && p < Parts(keys[i]))
  }

  /** Configuring a prefix-free list of keys yields a tree of exactly these keys, and
      every single insertion succeeds. */
  lemma {:induction false} ConfigureRealises(keys: seq<Key>)
    requires PrefixFree(keys)
    ensures IsTree(WithRoot(Configure(keys)))
    ensures Realises(WithRoot(Configure(keys)), keys)
    ensures keys != [] ==>
              var n := |keys| - 1;
              Append(WithRoot(Configure(keys[..n])), 0, Parts(keys[n]), keys[n]).1 == Done
  {
    if keys != [] {
      var n := |keys| - 1;
      var init := PrefixFreeInit(keys);
      ConfigureRealises(init);
      OneMoreKey(keys, WithRoot(Configure(keys[..n])));
    } else {
      NothingConfigured();
    }
  }

  lemma NothingConfigured()
    ensures IsTree([map[]]) && Realises([map[]], [])
  {
    forall p ensures Look([map[]], p) == if p == [] then Branch else Unbound {
    }
  }

  lemma PrefixFreeInit(keys: seq<Key>) returns (init: seq<Key>)
    requires keys != [] && PrefixFree(keys)
    ensures init == keys[..|keys| - 1] && PrefixFree(init)
  {
    init := keys[..|keys| - 1];
    forall i | 0 <= i < |init| ensures init[i] == keys[i] {
    }
  }

  /** A successful insertion of a key that is prefix-free with the configured ones. */
  lemma OneMoreKey(keys: seq<Key>, before: Store)
    requires keys != [] && PrefixFree(keys)
    requires IsTree(before) && Realises(before, keys[..|keys| - 1])
    ensures var key := keys[|keys| - 1];
            var (store, status) := Append(before, 0, Parts(key), key);
            status == Done && IsTree(store) && Realises(store, keys)
  {
    var key := keys[|keys| - 1];
    var parts := Parts(key);
    var (store, status) := Append(before, 0, parts, key);
    NewKeyAccepted(keys, before);
    AppendIsTree(before, 0, parts, key);
    AppendLook(before, [], 0, parts, key);
    assert [] + parts == parts;
    RealisesStep(keys, before, store);
  }

  lemma RealisesStep(keys: seq<Key>, before: Store, store: Store)
    requires keys != [] && Realises(before, keys[..|keys| - 1])
    requires var key := keys[|keys| - 1];
             && Look(before, Parts(key)) == Unbound
             && forall p :: Look(store, p) == ExpectedLook(Look(before, p), Done, Parts(key), key, p)
    ensures Realises(store, keys)
  {
    var n := |keys| - 1;
    forall i | 0 <= i < |keys| ensures Look(store, Parts(keys[i])) == Leaf(keys[i]) {
      if i < n {
        assert keys[..n][i] == keys[i];
      }
    }
    forall p | Look(store, p).Leaf?
      ensures exists i :: 0 <= i < |keys| && p == Parts(keys[i]) && Look(store, p).key == keys[i]
    {
      LeafStep(keys, before, p);
    }
    forall p | Look(store, p).Branch?
      ensures p == [] || exists i :: 0 <= i < |keys| && p < Parts(keys[i])
    {
      BranchStep(keys, before, p);
    }
  }

  lemma LeafStep(keys: seq<Key>, before: Store, p: seq<string>)
    requires keys != [] && Realises(before, keys[..|keys| - 1])
    requires var key := keys[|keys| - 1];
             ExpectedLook(Look(before, p), Done, Parts(key), key, p).Leaf?
    ensures var key := keys[|keys| - 1];
            exists i :: 0 <= i < |keys| && p == Parts(keys[i])
                        && ExpectedLook(Look(before, p), Done, Parts(key), key, p).key == keys[i]
  {
    var n := |keys| - 1;
    if Look(before, p).Leaf? {
      var i :| 0 <= i < n && p == Parts(keys[..n][i]) && Look(before, p).key == keys[..n][i];
      assert keys[..n][i] == keys[i];
    } else {
      assert p == Parts(keys[n]);
    }
  }

  lemma BranchStep(keys: seq<Key>, before: Store, p: seq<string>)
    requires keys != [] && Realises(before, keys[..|keys| - 1])
    requires var key := keys[|keys| - 1];
             ExpectedLook(Look(before, p), Done, Parts(key), key, p).Branch?
    ensures p == [] || exists i :: 0 <= i < |keys| && p < Parts(keys[i])
  {
    var n := |keys| - 1;
    if Look(before, p).Branch? && p != [] {
      var i :| 0 <= i < n && p < Parts(keys[..n][i]);
      assert keys[..n][i] == keys[i];
    } else if p != [] {
      assert p < Parts(keys[n]);
    }
  }

  /** A key that is prefix-free with the configured ones is neither blocked nor dropped. */
  lemma NewKeyAccepted(keys: seq<Key>, before: Store)
    requires keys != [] && PrefixFree(keys) && Realises(before, keys[..|keys| - 1])
    ensures var parts := Parts(keys[|keys| - 1]);
            && ExpectedStatus(before, [], parts) == Done
            && Look(before, parts) == Unbound
  {
    var n := |keys| - 1;
    var parts := Parts(keys[n]);
    forall j | 0 <= j < n
      ensures !(Parts(keys[..n][j]) <= parts) && !(parts <= Parts(keys[..n][j]))
    {
      assert keys[..n][j] == keys[j];
    }
    forall i | 0 < i < |parts| ensures !Look(before, [] + parts[..i]).Leaf? {
      assert [] + parts[..i] == parts[..i];
      assert parts[..i] <= parts;
    }
  }

  /** The order of the Key blocks in the configuration file does not matter. */
  lemma {:induction false} ConfigurationOrderIrrelevant(keys: seq<Key>, keys': seq<Key>)
    requires PrefixFree(keys) && PrefixFree(keys')
    requires forall k :: k in keys <==> k in keys'
    ensures forall p :: Look(WithRoot(Configure(keys)), p) == Look(WithRoot(Configure(keys')), p)
  {
    forall p ensures Look(WithRoot(Configure(keys)), p) == Look(WithRoot(Configure(keys')), p) {
      SameLook(keys, keys', p);
      SameLook(keys', keys, p);
    }
  }

  /** One direction of the order lemma: whatever is bound in one tree is in the other. */
  lemma SameLook(keys: seq<Key>, keys': seq<Key>, p: seq<string>)
    requires PrefixFree(keys) && PrefixFree(keys')
    requires forall k :: k in keys <==> k in keys'
    ensures var found := Look(WithRoot(Configure(keys)), p);
            found != Unbound ==> Look(WithRoot(Configure(keys')), p) == found
  {
    ConfigureRealises(keys);
    ConfigureRealises(keys');
    var store, store' := WithRoot(Configure(keys)), WithRoot(Configure(keys'));
    if Look(store, p).Leaf? {
      var i :| 0 <= i < |keys| && p == Parts(keys[i]) && Look(store, p).key == keys[i];
      assert keys[i] in keys';
      var j :| 0 <= j < |keys'| && keys'[j] == keys[i];
    } else if Look(store, p).Branch? && p != [] {
      var i :| 0 <= i < |keys| && p < Parts(keys[i]);
      assert keys[i] in keys';
      var j :| 0 <= j < |keys'| && keys'[j] == keys[i];
      ProperPrefixIsBranch(store', keys', j, p);
    } else if p == [] {
      assert Look(store, p) == Branch == Look(store', p);
    }
  }

  lemma ProperPrefixIsBranch(store: Store, keys: seq<Key>, j: nat, p: seq<string>)
    requires PrefixFree(keys) && Realises(store, keys)
    requires j < |keys| && p < Parts(keys[j])
    ensures Look(store, p) == Branch
  {
    assert Look(store, Parts(keys[j])) == Leaf(keys[j]);
    PrefixesBound(store, Parts(keys[j]));
    assert forall l :: 0 <= l < |keys| ==> !(Parts(keys[l]) < Parts(keys[j]));
  }

  // -------------------------------------------------------------- wildcards

  /** CJ_ANY */
  const ANY: string := "*"

  ghost predicate WildcardFree(store: Store) {
    forall i :: 0 <= i < |store| ==> ANY !in store[i]
  }

  lemma {:induction false} AppendWildcardFree(store: Store, n: nat, parts: seq<string>, key: Key)
    requires n < |store| && parts != [] && WildcardFree(store) && ANY !in parts
    ensures WildcardFree(Append(store, n, parts, key).0)
    decreases |parts|
  {
    assert parts[0] in parts;
    if |parts| > 1 {
      var store': Store := WithNode(store, n, parts[0]);
      if store'[n][parts[0]].TreeEntry? && store'[n][parts[0]].node < |store'| {
        AppendWildcardFree(store', store'[n][parts[0]].node, parts[1..], key);
      }
    }
  }

  lemma {:induction false} ConfigureWildcardFree(keys: seq<Key>)
    requires forall k :: k in keys ==> ANY !in Parts(k)
    ensures WildcardFree(WithRoot(Configure(keys)))
  {
    if keys != [] {
      var n := |keys| - 1;
      ConfigureWildcardFree(keys[..n]);
      assert keys[n] in keys;
      AppendWildcardFree(WithRoot(Configure(keys[..n])), 0, Parts(keys[n]), keys[n]);
      assert Configure(keys) == Append(WithRoot(Configure(keys[..n])), 0, Parts(keys[n]), keys[n]).0;
    }
  }
}
