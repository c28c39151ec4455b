/** The repository's test cases, each stated for every key of the same shape,
    with the result the code gives (where a test expects something else the
    lemma says what the code does instead). */
module Examples {
  import opened Results
  import opened Segment
  import opened Routes
  import Hurl

  /** The anchored route of a table with one view under a key that translates to `re`. */
  lemma SingleRoute<V>(matchers: map<string, string>, key: string, re: string, view: V)
    requires Translate(matchers, key) == Ok(re)
    ensures AnchoredAll(Flatten(matchers, [Entry(key, Leaf(view))])) == Ok([(Anchor(re), view)])
  {
    FlattenSingleLeaf(matchers, key, re, view);
    assert Anchored([(re, view)]) == [(Anchor(re), view)];
  }

  /** The anchored routes of a table with one nested table holding one view. */
  lemma SingleNestedRoute<V>(matchers: map<string, string>, outer: string, key: string, re: string, view: V)
    requires Plain(outer)
    requires Translate(matchers, key) == Ok(re)
    ensures AnchoredAll(Flatten(matchers, [Entry(outer, Sub([Entry(key, Leaf(view))]))]))
         == Ok([(Anchor(outer + "/" + re), view)])
  {
    TranslateUnclosed(matchers, outer);
    FlattenSingleLeaf(matchers, key, re, view);
    FlattenSingleSub(matchers, outer, outer, [Entry(key, Leaf(view))], [(re, view)]);
    assert Nest(outer, [(re, view)]) == [(outer + "/" + re, view)];
    assert Anchored([(outer + "/" + re, view)]) == [(Anchor(outer + "/" + re), view)];
  }

  /** A key without brackets is its own pattern: `'2003'` gives `^2003/$`,
      and the empty key gives `^/$`. */
  lemma PlainKeyRoute<V>(matchers: map<string, string>, key: string, view: V)
    requires Plain(key)
    ensures AnchoredAll(Flatten(matchers, [Entry(key, Leaf(view))])) == Ok([("^" + key + "/$", view)])
  {
    TranslateUnclosed(matchers, key);
    SingleRoute(matchers, key, key, view);
  }

  /** `'<name:tag>'` alone translates to one named group holding the tag's matcher. */
  lemma NamedParameterKey(matchers: map<string, string>, name: string, tag: string)
    requires Plain(name) && Plain(tag) && ':' !in name && ':' !in tag
    ensures Translate(matchers, "<" + name + ":" + tag + ">")
         == if tag in matchers then Ok(Group(name, matchers[tag])) else Err(UnknownMatcher(tag))
  {
    var body := name + ":" + tag;
    assert "<" + name + ":" + tag + ">" == "" + "<" + body + ">" + "";
    TranslateParameter(matchers, "", body, "");
    TransformNamed(matchers, name, tag);
    TranslateUnclosed(matchers, "");
    if tag in matchers {
      var group := Group(name, matchers[tag]);
      AppendOkOk("", group, Ok(""));
      assert "" + group + "" == group;
    }
  }

  /** A table with one `'<name:tag>'` key: `^(?P<name>matcher)/$`
      (`'<id:int>'` gives `^(?P<id>\d+)/$`, `'<:int>'` gives `^(?P<>\d+)/$`),
      or the unknown tag as the error. */
  lemma NamedParameterRoute<V>(matchers: map<string, string>, name: string, tag: string, view: V)
    requires Plain(name) && Plain(tag) && ':' !in name && ':' !in tag
    ensures tag in matchers ==>
      AnchoredAll(Flatten(matchers, [Entry("<" + name + ":" + tag + ">", Leaf(view))]))
      == Ok([(Anchor(Group(name, matchers[tag])), view)])
    ensures tag !in matchers ==>
      Flatten(matchers, [Entry("<" + name + ":" + tag + ">", Leaf(view))]) == Err(UnknownMatcher(tag))
  {
    var key := "<" + name + ":" + tag + ">";
    NamedParameterKey(matchers, name, tag);
    if tag in matchers {
      SingleRoute(matchers, key, Group(name, matchers[tag]), view);
    } else {
      FlattenAt(matchers, [Entry(key, Leaf(view))], 0);
    }
  }

  /** `'<name>'` without a tag is a syntax error in the code; the tests
      expect the default matcher instead. */
  lemma GuessedTypeFails<V>(matchers: map<string, string>, name: string, view: V)
    requires Plain(name) && ':' !in name
    ensures Flatten(matchers, [Entry("<" + name + ">", Leaf(view))]) == Err(SyntaxError)
  {
    var key := "<" + name + ">";
    TranslateMissingColon(matchers, name, "");
    assert key == "<" + name + ">" + "";
    FlattenAt(matchers, [Entry(key, Leaf(view))], 0);
  }

  /** `'<a:ta>/<b:tb>'` gives two named groups around the `/`. */
  lemma TwoParametersKey(matchers: map<string, string>, a: string, ta: string, b: string, tb: string)
    requires Plain(a) && Plain(ta) && Plain(b) && Plain(tb)
    requires ':' !in a && ':' !in ta && ':' !in b && ':' !in tb
    requires ta in matchers && tb in matchers
    ensures Translate(matchers, "<" + a + ":" + ta + ">" + ("/" + "<" + b + ":" + tb + ">"))
         == Ok(Group(a, matchers[ta]) + ("/" + Group(b, matchers[tb])))
  {
    var second := "<" + b + ":" + tb + ">";
    var rest := "/" + "<" + b + ":" + tb + ">";
    assert "" + "<" == "<";
    assert rest + "" == rest;
    TranslateNamed(matchers, "", a, ta, rest);
    TranslateNamed(matchers, "/", b, tb, "");
    TranslateUnclosed(matchers, "");
    var ga, gb := Group(a, matchers[ta]), Group(b, matchers[tb]);
    assert "/" + gb + "" == "/" + gb;
    assert "" + ga == ga;
  }

  /** A nested table: the parent's pattern, `/`, then the child's. For
      `{'articles': {'<id:int>/<id2:int>': v}}` this is
      `^articles/(?P<id>\d+)/(?P<id2>\d+)/$`. */
  lemma TwoNamedParametersRoute<V>(matchers: map<string, string>, outer: string,
                                   a: string, ta: string, b: string, tb: string, view: V)
    requires Plain(outer) && Plain(a) && Plain(ta) && Plain(b) && Plain(tb)
    requires ':' !in a && ':' !in ta && ':' !in b && ':' !in tb
    requires ta in matchers && tb in matchers
    ensures AnchoredAll(Flatten(matchers, [Entry(outer, Sub([Entry("<" + a + ":" + ta + ">" + ("/" + "<" + b + ":" + tb + ">"), Leaf(view))]))]))
         == Ok([(Anchor(outer + "/" + (Group(a, matchers[ta]) + ("/" + Group(b, matchers[tb])))), view)])
  {
    TwoParametersKey(matchers, a, ta, b, tb);
    SingleNestedRoute(matchers, outer, "<" + a + ":" + ta + ">" + ("/" + "<" + b + ":" + tb + ">"),
                      Group(a, matchers[ta]) + ("/" + Group(b, matchers[tb])), view);
  }

  /** An empty key under a nested table still adds the `/`: `{'bla': {'': v}}`
      gives `^bla//$` (the tests expect `^bla/$`). */
  lemma EmptyNestedRoute<V>(matchers: map<string, string>, outer: string, view: V)
    requires Plain(outer)
    ensures AnchoredAll(Flatten(matchers, [Entry(outer, Sub([Entry("", Leaf(view))]))]))
         == Ok([(Anchor(outer + "/"), view)])
  {
    TranslateUnclosed(matchers, "");
    SingleNestedRoute(matchers, outer, "", "", view);
    assert outer + "/" + "" == outer + "/";
  }

  /** Two views side by side in one table. */
  lemma TwoLeaves<V>(matchers: map<string, string>, k1: string, re1: string, v1: V,
                     k2: string, re2: string, v2: V)
    requires Translate(matchers, k1) == Ok(re1) && Translate(matchers, k2) == Ok(re2)
    ensures Flatten(matchers, [Entry(k1, Leaf(v1)), Entry(k2, Leaf(v2))]) == Ok([(re1, v1), (re2, v2)])
  {
    var e1, e2 := Entry(k1, Leaf(v1)), Entry(k2, Leaf(v2));
    assert [e1, e2] == [e1] + [e2];
    FlattenConcat(matchers, [e1], [e2]);
    FlattenSingleLeaf(matchers, k1, re1, v1);
    FlattenSingleLeaf(matchers, k2, re2, v2);
    assert [(re1, v1)] + [(re2, v2)] == [(re1, v1), (re2, v2)];
  }

  /** A table nested two deep: every route carries the patterns of all the
      keys above it, in table order. For the tree
      `{'articles': {'<id:int>/<id2:int>': v1, 'text/author': {'<author_id:int>': v2,
      'archive/<author_id:int>': v3}}}` the patterns are
      `articles/(?P<id>\d+)/(?P<id2>\d+)`, `articles/text/author/(?P<author_id>\d+)`
      and `articles/text/author/archive/(?P<author_id>\d+)`. */
  lemma TreeRoutes<V>(matchers: map<string, string>, outer: string, k1: string, re1: string, v1: V,
                      mid: string, k2: string, re2: string, v2: V, k3: string, re3: string, v3: V)
    requires Plain(outer) && Plain(mid)
    requires Translate(matchers, k1) == Ok(re1)
    requires Translate(matchers, k2) == Ok(re2) && Translate(matchers, k3) == Ok(re3)
    ensures Flatten(matchers, [Entry(outer, Sub([Entry(k1, Leaf(v1)),
                                                 Entry(mid, Sub([Entry(k2, Leaf(v2)), Entry(k3, Leaf(v3))]))]))])
         == Ok([(outer + "/" + re1, v1),
                (outer + "/" + (mid + "/" + re2), v2),
                (outer + "/" + (mid + "/" + re3), v3)])
  {
    var deep := [Entry(k2, Leaf(v2)), Entry(k3, Leaf(v3))];
    var e1, e2 := Entry(k1, Leaf(v1)), Entry(mid, Sub(deep));
    TranslateUnclosed(matchers, outer);
    TranslateUnclosed(matchers, mid);
    TwoLeaves(matchers, k2, re2, v2, k3, re3, v3);
    FlattenSingleSub(matchers, mid, mid, deep, [(re2, v2), (re3, v3)]);
    var nested := Nest(mid, [(re2, v2), (re3, v3)]);
    assert nested == [(mid + "/" + re2, v2), (mid + "/" + re3, v3)];
    FlattenSingleLeaf(matchers, k1, re1, v1);
    assert [e1, e2] == [e1] + [e2];
    FlattenConcat(matchers, [e1], [e2]);
    FlattenSingleSub(matchers, outer, outer, [e1, e2], [(re1, v1)] + nested);
    assert Nest(outer, [(re1, v1)] + nested)
        == [(outer + "/" + re1, v1), (outer + "/" + (mid + "/" + re2), v2), (outer + "/" + (mid + "/" + re3), v3)];
  }

  /** A fresh instance maps `slug` to `[\w-]+`: `'<id:slug>'` gives `^(?P<id>[\w-]+)/$`. */
  method SlugNamedType<V>(view: V) returns (r: Result<seq<Route<V>>>)
    ensures r == Ok([(Anchor(Group("id", @"[\w-]+")), view)])
  {
    var h := new Hurl.Hurl();
    var name, tag := "id", "slug";
    NamedParameterRoute(h.matchers, name, tag, view);
    r := h.Patterns("", [Entry("<" + name + ":" + tag + ">", Leaf(view))]);
  }

  /** A matcher registered on the instance is used for its tag:
      `'<year:year>'` with `year` set to `\d{4}` gives `^(?P<year>\d{4})/$`. */
  method CustomNamedType<V>(view: V) returns (r: Result<seq<Route<V>>>)
    ensures r == Ok([(Anchor(Group("year", @"\d{4}")), view)])
  {
    var h := new Hurl.Hurl();
    var name := "year";
    h.Register(name, @"\d{4}");
    NamedParameterRoute(h.matchers, name, name, view);
    r := h.Patterns("", [Entry("<" + name + ":" + name + ">", Leaf(view))]);
  }

  /** Even with a `year` matcher registered, `'<year>'` is a syntax error. */
  method CustomGuessedType<V>(view: V) returns (r: Result<seq<Route<V>>>)
    ensures r == Err(SyntaxError)
  {
    var h := new Hurl.Hurl();
    var name := "year";
    h.Register(name, @"\d{4}");
    GuessedTypeFails(h.matchers, name, view);
    r := h.Patterns("", [Entry("<" + name + ">", Leaf(view))]);
  }

  /** A tag with no matcher is an error naming the tag. */
  method UnknownType<V>(view: V) returns (r: Result<seq<Route<V>>>)
    ensures r == Err(UnknownMatcher("year"))
  {
    var h := new Hurl.Hurl();
    var name := "year";
    NamedParameterRoute(h.matchers, name, name, view);
    r := h.Patterns("", [Entry("<" + name + ":" + name + ">", Leaf(view))]);
  }

  /** `{'articles': {'<id:int>/<id2:int>': v}}` on a fresh instance. */
  method TwoNamedParameters<V>(view: V) returns (r: Result<seq<Route<V>>>)
    ensures r == Ok([(Anchor("articles/" + (Group("id", @"\d+") + ("/" + Group("id2", @"\d+")))), view)])
  {
    var h := new Hurl.Hurl();
    var outer, a, b, tag := "articles", "id", "id2", "int";
    TwoNamedParametersRoute(h.matchers, outer, a, tag, b, tag, view);
    assert outer + "/" == "articles/";
    r := h.Patterns("", [Entry(outer, Sub([Entry("<" + a + ":" + tag + ">" + ("/" + "<" + b + ":" + tag + ">"), Leaf(view))]))]);
  }

  /** The anchored routes of the tree of the tests, for any names and tag. */
  lemma TreeAnchored<V>(matchers: map<string, string>, outer: string, mid: string, lit: string,
                        a: string, b: string, c: string, tag: string, v1: V, v2: V, v3: V)
    requires Plain(outer) && Plain(mid) && Plain(lit) && Plain(a) && Plain(b) && Plain(c) && Plain(tag)
    requires ':' !in a && ':' !in b && ':' !in c && ':' !in tag && tag in matchers
    ensures
      var d := matchers[tag];
      AnchoredAll(Flatten(matchers, [Entry(outer, Sub([Entry("<" + a + ":" + tag + ">" + ("/" + "<" + b + ":" + tag + ">"), Leaf(v1)),
                                                       Entry(mid, Sub([Entry("<" + c + ":" + tag + ">", Leaf(v2)),
                                                                       Entry(lit + "<" + c + ":" + tag + ">" + "", Leaf(v3))]))]))]))
      == Ok([(Anchor(outer + "/" + (Group(a, d) + ("/" + Group(b, d)))), v1),
             (Anchor(outer + "/" + (mid + "/" + Group(c, d))), v2),
             (Anchor(outer + "/" + (mid + "/" + (lit + Group(c, d)))), v3)])
  {
    var d := matchers[tag];
    var re1, re2, re3 := Group(a, d) + ("/" + Group(b, d)), Group(c, d), lit + Group(c, d);
    TwoParametersKey(matchers, a, tag, b, tag);
    NamedParameterKey(matchers, c, tag);
    TranslateNamed(matchers, lit, c, tag, "");
    TranslateUnclosed(matchers, "");
    AppendOkOk(re3, "", Ok([]));
    assert re3 + "" == re3;
    TreeRoutes(matchers, outer, "<" + a + ":" + tag + ">" + ("/" + "<" + b + ":" + tag + ">"), re1, v1,
               mid, "<" + c + ":" + tag + ">", re2, v2, lit + "<" + c + ":" + tag + ">" + "", re3, v3);
    var flat := [(outer + "/" + re1, v1), (outer + "/" + (mid + "/" + re2), v2), (outer + "/" + (mid + "/" + re3), v3)];
    assert Anchored(flat) == [(Anchor(flat[0].0), v1), (Anchor(flat[1].0), v2), (Anchor(flat[2].0), v3)];
  }

  /** The tree of the tests on a fresh instance, routes in table order. */
  method TreeUrls<V>(v1: V, v2: V, v3: V) returns (r: Result<seq<Route<V>>>)
    ensures r == Ok([(Anchor("articles/" + (Group("id", @"\d+") + ("/" + Group("id2", @"\d+")))), v1),
                     (Anchor("articles/" + ("text/author/" + Group("author_id", @"\d+"))), v2),
                     (Anchor("articles/" + ("text/author/" + ("archive/" + Group("author_id", @"\d+")))), v3)])
  {
    var h := new Hurl.Hurl();
    var outer, mid, lit, a, b, c, tag := "articles", "text/author", "archive/", "id", "id2", "author_id", "int";
    TreeAnchored(h.matchers, outer, mid, lit, a, b, c, tag, v1, v2, v3);
    assert outer + "/" == "articles/" && mid + "/" == "text/author/";
    r := h.Patterns("", [Entry(outer, Sub([Entry("<" + a + ":" + tag + ">" + ("/" + "<" + b + ":" + tag + ">"), Leaf(v1)),
                                          Entry(mid, Sub([Entry("<" + c + ":" + tag + ">", Leaf(v2)),
                                                          Entry(lit + "<" + c + ":" + tag + ">" + "", Leaf(v3))]))]))]);
  }
}
