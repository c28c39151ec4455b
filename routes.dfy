/** The route table as a tree, and what flattening it into anchored
    (pattern, view) pairs produces. */
module Routes {
  import opened Results
  import opened Segment

  /** A value of the route table. Only a nested table (a Python `dict`) is
      descended into; any other value is a view and is passed through as is. */
  datatype Node<V> = Leaf(view: V) | Sub(entries: seq<Entry<V>>)

  /** One key/value pair of a table; a sequence of them stands for a dict in
      its iteration order. */
  datatype Entry<V> = Entry(key: string, value: Node<V>)

  /** A flattened route: regular-expression text and the view it leads to. */
  type Route<V> = (string, V)

  /** Each route placed under the parent pattern `re`, joined by `/`. */
  function Nest<V>(re: string, routes: seq<Route<V>>): (nested: seq<Route<V>>)
  {
    seq(|routes|, i requires 0 <= i < |routes| => (re + "/" + routes[i].0, routes[i].1))
  }

  function Nested<V>(re: string, r: Result<seq<Route<V>>>): (nested: Result<seq<Route<V>>>)
  {
    match r
    case Err(e) => Err(e)
    case Ok(routes) => Ok(Nest(re, routes))
  }

  /** What `patterns_recursive` returns: entries in order, each key translated
      first; a view gives one route, a nested table gives its own routes, each
      under the key's pattern and a `/` (even when either side is empty). */
  function Flatten<V>(matchers: map<string, string>, entries: seq<Entry<V>>): (r: Result<seq<Route<V>>>)
    decreases entries
  {
    if entries == [] then Ok([])
    else
      match Translate(matchers, entries[0].key)
      case Err(e) => Err(e)
      case Ok(re) =>
        var head := match entries[0].value
          case Leaf(v) => Ok([(re, v)])
          case Sub(children) => Nested(re, Flatten(matchers, children));
        Append(head, Flatten(matchers, entries[1..]))
  }

  /** One step of `Flatten`, taken at entry `i`. */
  lemma FlattenAt<V>(matchers: map<string, string>, entries: seq<Entry<V>>, i: nat)
    requires i < |entries|
    ensures Translate(matchers, entries[i].key).Err? ==>
              Flatten(matchers, entries[i..]) == Err(Translate(matchers, entries[i].key).error)
    ensures Translate(matchers, entries[i].key).Ok? && entries[i].value.Leaf? ==>
              Flatten(matchers, entries[i..])
              == Append(Ok([(Translate(matchers, entries[i].key).value, entries[i].value.view)]),
                        Flatten(matchers, entries[i + 1..]))
    ensures Translate(matchers, entries[i].key).Ok? && entries[i].value.Sub? ==>
              Flatten(matchers, entries[i..])
              == Append(Nested(Translate(matchers, entries[i].key).value, Flatten(matchers, entries[i].value.entries)),
                        Flatten(matchers, entries[i + 1..]))
  {
    assert entries[i..][0] == entries[i] && entries[i..][1..] == entries[i + 1..];
  }

  /** A table with a single view: one route, the key's pattern. */
  lemma FlattenSingleLeaf<V>(matchers: map<string, string>, key: string, re: string, view: V)
    requires Translate(matchers, key) == Ok(re)
    ensures Flatten(matchers, [Entry(key, Leaf(view))]) == Ok([(re, view)])
  {
    FlattenAt(matchers, [Entry(key, Leaf(view))], 0);
    assert [(re, view)] + [] == [(re, view)];
  }

  /** A table with a single nested table: its routes under the key's pattern. */
  lemma FlattenSingleSub<V>(matchers: map<string, string>, key: string, re: string,
                            children: seq<Entry<V>>, routes: seq<Route<V>>)
    requires Translate(matchers, key) == Ok(re)
    requires Flatten(matchers, children) == Ok(routes)
    ensures Flatten(matchers, [Entry(key, Sub(children))]) == Ok(Nest(re, routes))
  {
    FlattenAt(matchers, [Entry(key, Sub(children))], 0);
    assert Nest(re, routes) + [] == Nest(re, routes);
  }

  /** Entries are flattened one after the other: the routes of a table split
      in two are those of the first part followed by those of the second. */
  lemma {:induction false} FlattenConcat<V>(matchers: map<string, string>, a: seq<Entry<V>>, b: seq<Entry<V>>)
    ensures Flatten(matchers, a + b) == Append(Flatten(matchers, a), Flatten(matchers, b))
  {
    if a == [] {
      assert a + b == b;
      AppendNothing(Flatten(matchers, b));
    } else {
      assert (a + b)[0] == a[0] && (a + b)[1..] == a[1..] + b;
      FlattenConcat(matchers, a[1..], b);
      match Translate(matchers, a[0].key)
      case Err(e) =>
      case Ok(re) =>
        var head := match a[0].value
          case Leaf(v) => Ok([(re, v)])
          case Sub(children) => Nested(re, Flatten(matchers, children));
        AppendAssoc(head, Flatten(matchers, a[1..]), Flatten(matchers, b));
    }
  }

  /** `'^{url}/$'`. */
  function Anchor(url: string): (pattern: string)
  {
    "^" + url + "/$"
  }

  /** What `add_prefix_suffix` returns. */
  function Anchored<V>(routes: seq<Route<V>>): (anchored: seq<Route<V>>)
  {
    seq(|routes|, i requires 0 <= i < |routes| => (Anchor(routes[i].0), routes[i].1))
  }

  function AnchoredAll<V>(r: Result<seq<Route<V>>>): (anchored: Result<seq<Route<V>>>)
  {
    match r
    case Err(e) => Err(e)
    case Ok(routes) => Ok(Anchored(routes))
  }

  /** The anchoring can be undone: different urls give different patterns. */
  lemma AnchorInjective(a: string, b: string)
    requires Anchor(a) == Anchor(b)
    ensures a == b
  {
    assert a == Anchor(a)[1..|Anchor(a)| - 2];
    assert b == Anchor(b)[1..|Anchor(b)| - 2];
  }

  // ---------------------------------------------------------------------
  // An independent description of the flattened table: one route per leaf,
  // reached by a path of keys from the root.

  /** Every leaf of the table with the keys on the way to it, in order. */
  function Paths<V>(entries: seq<Entry<V>>): (paths: seq<(seq<string>, V)>)
    ensures forall i :: 0 <= i < |paths| ==> |paths[i].0| >= 1
    decreases entries
  {
    if entries == [] then []
    else
      (match entries[0].value
       case Leaf(v) => [([entries[0].key], v)]
       case Sub(children) => Under(entries[0].key, Paths(children)))
      + Paths(entries[1..])
  }

  function Under<V>(key: string, paths: seq<(seq<string>, V)>): (r: seq<(seq<string>, V)>)
    requires forall i :: 0 <= i < |paths| ==> |paths[i].0| >= 1
    ensures forall i :: 0 <= i < |r| ==> |r[i].0| >= 2
  {
    seq(|paths|, i requires 0 <= i < |paths| => ([key] + paths[i].0, paths[i].1))
  }

  /** The pattern of one path: its keys translated and joined by `/`. */
  function RenderPath(matchers: map<string, string>, keys: seq<string>): (r: Result<string>)
    requires |keys| >= 1
  {
    if |keys| == 1 then Translate(matchers, keys[0])
    else Append(Translate(matchers, keys[0]), Append(Ok("/"), RenderPath(matchers, keys[1..])))
  }

  /** The routes of a list of paths, stopping at the first path that fails. */
  function RenderAll<V>(matchers: map<string, string>, paths: seq<(seq<string>, V)>): (r: Result<seq<Route<V>>>)
    requires forall i :: 0 <= i < |paths| ==> |paths[i].0| >= 1
  {
    if paths == [] then Ok([])
    else Append(RenderOne(matchers, paths[0]), RenderAll(matchers, paths[1..]))
  }

  /** The route of one path, as a list of one. */
  function RenderOne<V>(matchers: map<string, string>, path: (seq<string>, V)): (r: Result<seq<Route<V>>>)
    requires |path.0| >= 1
  {
    match RenderPath(matchers, path.0)
    case Err(e) => Err(e)
    case Ok(re) => Ok([(re, path.1)])
  }

  /** Rendering succeeds with one route per path, each the path's pattern and view. */
  lemma {:induction false} RenderAllRoutes<V>(matchers: map<string, string>, paths: seq<(seq<string>, V)>)
    requires forall i :: 0 <= i < |paths| ==> |paths[i].0| >= 1
    ensures RenderAll(matchers, paths).Ok? ==>
      var routes := RenderAll(matchers, paths).value;
      |routes| == |paths| &&
      forall i :: 0 <= i < |paths| ==>
        RenderPath(matchers, paths[i].0) == Ok(routes[i].0) && routes[i].1 == paths[i].1
  {
    if paths != [] && RenderAll(matchers, paths).Ok? {
      RenderAllRoutes(matchers, paths[1..]);
      var routes := RenderAll(matchers, paths).value;
      var rest := RenderAll(matchers, paths[1..]).value;
      var re := RenderPath(matchers, paths[0].0).value;
      assert routes == [(re, paths[0].1)] + rest;
      forall i | 0 <= i < |paths|
        ensures RenderPath(matchers, paths[i].0) == Ok(routes[i].0) && routes[i].1 == paths[i].1
      {
        if i > 0 {
          assert paths[i] == paths[1..][i - 1] && routes[i] == rest[i - 1];
        }
      }
    }
  }

  /** The pattern of a path one key deeper: the key's pattern, `/`, the rest. */
  lemma RenderPathUnder(matchers: map<string, string>, key: string, re: string, keys: seq<string>)
    requires Translate(matchers, key) == Ok(re)
    requires |keys| >= 1
    ensures RenderPath(matchers, [key] + keys) == Append(Ok(re + "/"), RenderPath(matchers, keys))
  {
    assert ([key] + keys)[0] == key && ([key] + keys)[1..] == keys;
    AppendOkOk(re, "/", RenderPath(matchers, keys));
  }

  lemma {:induction false} RenderAllAppend<V>(matchers: map<string, string>, a: seq<(seq<string>, V)>, b: seq<(seq<string>, V)>)
    requires forall i :: 0 <= i < |a| ==> |a[i].0| >= 1
    requires forall i :: 0 <= i < |b| ==> |b[i].0| >= 1
    ensures RenderAll(matchers, a + b) == Append(RenderAll(matchers, a), RenderAll(matchers, b))
  {
    if a == [] {
      assert a + b == b;
      AppendNothing(RenderAll(matchers, b));
    } else {
      assert (a + b)[0] == a[0] && (a + b)[1..] == a[1..] + b;
      RenderAllAppend(matchers, a[1..], b);
      AppendAssoc(RenderOne(matchers, a[0]), RenderAll(matchers, a[1..]), RenderAll(matchers, b));
    }
  }

  lemma NestedAppend<V>(re: string, a: Result<seq<Route<V>>>, b: Result<seq<Route<V>>>)
    ensures Nested(re, Append(a, b)) == Append(Nested(re, a), Nested(re, b))
  {
    if a.Ok? && b.Ok? {
      assert Nest(re, a.value + b.value) == Nest(re, a.value) + Nest(re, b.value);
    }
  }

  lemma RenderOneUnder<V>(matchers: map<string, string>, key: string, re: string, path: (seq<string>, V))
    requires Translate(matchers, key) == Ok(re)
    requires |path.0| >= 1
    ensures RenderOne(matchers, ([key] + path.0, path.1)) == Nested(re, RenderOne(matchers, path))
  {
    RenderPathUnder(matchers, key, re, path.0);
    if RenderPath(matchers, path.0).Ok? {
      var s := RenderPath(matchers, path.0).value;
      assert Nest(re, [(s, path.1)]) == [(re + "/" + s, path.1)];
    }
  }

  /** Rendering paths under a key whose pattern is `re` puts every route under `re`. */
  lemma {:induction false} RenderUnder<V>(matchers: map<string, string>, key: string, re: string, paths: seq<(seq<string>, V)>)
    requires Translate(matchers, key) == Ok(re)
    requires forall i :: 0 <= i < |paths| ==> |paths[i].0| >= 1
    ensures RenderAll(matchers, Under(key, paths)) == Nested(re, RenderAll(matchers, paths))
  {
    var under := Under(key, paths);
    if paths == [] {
      assert under == [];
      assert Nest<V>(re, []) == [];
    } else {
      assert under[0] == ([key] + paths[0].0, paths[0].1);
      assert under[1..] == Under(key, paths[1..]);
      RenderUnder(matchers, key, re, paths[1..]);
      RenderOneUnder(matchers, key, re, paths[0]);
      NestedAppend(re, RenderOne(matchers, paths[0]), RenderAll(matchers, paths[1..]));
    }
  }

  /** `patterns_recursive` gives one route per leaf, in order: the leaf's view,
      and the translated keys on the path to it joined by `/`. */
  lemma {:induction false} FlattenByPaths<V>(matchers: map<string, string>, entries: seq<Entry<V>>)
    ensures Flatten(matchers, entries).Ok? ==> Flatten(matchers, entries) == RenderAll(matchers, Paths(entries))
    decreases entries
  {
    if entries != [] && Flatten(matchers, entries).Ok? {
      var key, rest := entries[0].key, entries[1..];
      var re := Translate(matchers, key).value;
      FlattenByPaths(matchers, rest);
      match entries[0].value
      case Leaf(v) =>
        RenderAllAppend(matchers, [([key], v)], Paths(rest));
        var leaf := [([key], v)];
        assert leaf[1..] == [];
        assert RenderPath(matchers, leaf[0].0) == Ok(re);
        assert RenderAll(matchers, leaf[1..]) == Ok([]);
        assert [(re, v)] + [] == [(re, v)];
        assert RenderAll(matchers, leaf) == Ok([(re, v)]);
      case Sub(children) =>
        FlattenByPaths(matchers, children);
        RenderAllAppend(matchers, Under(key, Paths(children)), Paths(rest));
        RenderUnder(matchers, key, re, Paths(children));
    }
  }

  /** The same, stated route by route. */
  lemma FlattenRoutes<V>(matchers: map<string, string>, entries: seq<Entry<V>>)
    ensures Flatten(matchers, entries).Ok? ==>
      var routes, paths := Flatten(matchers, entries).value, Paths(entries);
      |routes| == |paths| &&
      forall i :: 0 <= i < |routes| ==>
        routes[i].1 == paths[i].1 && Ok(routes[i].0) == RenderPath(matchers, paths[i].0)
  {
    FlattenByPaths(matchers, entries);
    RenderAllRoutes(matchers, Paths(entries));
  }

  // ---------------------------------------------------------------------
  // When flattening fails.

  /** Every key of the table and of the tables nested in it, in the order
      `patterns_recursive` translates them. */
  function Keys<V>(entries: seq<Entry<V>>): (keys: seq<string>)
    decreases entries
  {
    if entries == [] then []
    else
      [entries[0].key]
      + (match entries[0].value case Leaf(_) => [] case Sub(children) => Keys(children))
      + Keys(entries[1..])
  }

  /** Translating a list of keys one after the other, stopping at the first failure. */
  function TranslateAll(matchers: map<string, string>, keys: seq<string>): (r: Result<seq<string>>)
  {
    if keys == [] then Ok([])
    else Append(Single(Translate(matchers, keys[0])), TranslateAll(matchers, keys[1..]))
  }

  lemma {:induction false} TranslateAllAppend(matchers: map<string, string>, a: seq<string>, b: seq<string>)
    ensures TranslateAll(matchers, a + b) == Append(TranslateAll(matchers, a), TranslateAll(matchers, b))
  {
    if a == [] {
      assert a + b == b;
      AppendNothing(TranslateAll(matchers, b));
    } else {
      assert (a + b)[0] == a[0] && (a + b)[1..] == a[1..] + b;
      TranslateAllAppend(matchers, a[1..], b);
      AppendAssoc(Single(Translate(matchers, a[0])), TranslateAll(matchers, a[1..]), TranslateAll(matchers, b));
    }
  }

  /** Flattening fails exactly when some key anywhere in the table fails to
      translate (even the key of an empty nested table), and with the error
      of the first such key. */
  lemma {:induction false} FlattenFails<V>(matchers: map<string, string>, entries: seq<Entry<V>>)
    ensures Flatten(matchers, entries).Err? <==> TranslateAll(matchers, Keys(entries)).Err?
    ensures Flatten(matchers, entries).Err? ==>
              Flatten(matchers, entries).error == TranslateAll(matchers, Keys(entries)).error
    decreases entries
  {
    if entries != [] {
      var key, rest := entries[0].key, entries[1..];
      var inner := match entries[0].value case Leaf(_) => [] case Sub(children) => Keys(children);
      assert Keys(entries) == [key] + inner + Keys(rest);
      TranslateAllAppend(matchers, [key] + inner, Keys(rest));
      TranslateAllAppend(matchers, [key], inner);
      var single: seq<string> := [key];
      assert single[1..] == [];
      FlattenFails(matchers, rest);
      match entries[0].value
      case Leaf(_) =>
      case Sub(children) =>
        FlattenFails(matchers, children);
    }
  }
}
