/** Translation of one key of the route table (a path segment written with
    `<name:type>` parameters) into regular-expression text. The regular
    expressions themselves are opaque strings here. */
module Segment {
  import opened Results
  import opened Text

  /** The table every new `Hurl` instance starts from: `int` and `slug`. */
  const DefaultMatchers: map<string, string> := map["int" := @"\d+", "slug" := @"[\w-]+"]

  /** The named capture group `(?P<name>matcher)`. */
  function Group(name: string, matcher: string): (g: string)
  {
    "(?P<" + name + ">" + matcher + ")"
  }

  /** Looks a type tag up in the matcher table; a missing tag is a lookup error. */
  function GenerateMatcher(matchers: map<string, string>, tag: string): (r: Result<string>)
  {
    if tag in matchers then Ok(matchers[tag]) else Err(UnknownMatcher(tag))
  }

  /** Turns a parameter body `name:type` into a named group. A body without a
      colon is a syntax error; with two or more colons the name is the text
      before the first one and the type tag is `str`. */
  function Transform(matchers: map<string, string>, pattern: string): (r: Result<string>)
  {
    var parts := Split(pattern, ':');
    if 0 < |parts| < 2 then Err(SyntaxError)
    else
      var name := parts[0];
      var tag := if |parts| == 2 then parts[1] else "str";
      match GenerateMatcher(matchers, tag)
      case Err(e) => Err(e)
      case Ok(matcher) => Ok(Group(name, matcher))
  }

  /** `transform` raises its syntax error exactly when the body has no colon. */
  lemma TransformSyntaxError(matchers: map<string, string>, pattern: string)
    ensures Transform(matchers, pattern) == Err(SyntaxError) <==> ':' !in pattern
  {
    SplitMany(pattern, ':');
  }

  /** `name:type` with a registered type gives `(?P<name>matcher)`; with an
      unregistered one it fails on that type. */
  lemma TransformNamed(matchers: map<string, string>, name: string, tag: string)
    requires ':' !in name && ':' !in tag
    ensures Transform(matchers, name + ":" + tag)
         == if tag in matchers then Ok(Group(name, matchers[tag])) else Err(UnknownMatcher(tag))
  {
    SplitFirst(name, ':', tag);
    SplitNone(tag, ':');
  }

  /** A body with two or more colons is looked up under the type tag `str`,
      named by the text before its first colon. */
  lemma TransformManyColons(matchers: map<string, string>, name: string, a: string, b: string)
    requires ':' !in name
    ensures Transform(matchers, name + ":" + a + ":" + b)
         == if "str" in matchers then Ok(Group(name, matchers["str"])) else Err(UnknownMatcher("str"))
  {
    assert name + ":" + a + ":" + b == name + [':'] + (a + ":" + b);
    SplitFirst(name, ':', a + ":" + b);
    SplitMany(a + ":" + b, ':');
  }

  predicate Plain(s: string)
  {
    '<' !in s && '>' !in s
  }

  /** What `make_re_str` produces, described by the shape of the key rather
      than by the scan: the key is a run of pieces each closed by `>`, and a
      last piece with no `>`. In a closed piece the text after its last `<` is
      a parameter body handed to `Transform`, and the text before it is kept
      with every `<` dropped. The last piece is kept with every `<` dropped, so
      an unclosed `<` disappears. The first failing body decides the error. */
  function Translate(matchers: map<string, string>, url: string): (r: Result<string>)
    decreases |url|
  {
    var i := Find(url, '>');
    if i == |url| then Ok(Remove(url, '<'))
    else
      var piece := url[..i];
      var k := AfterLast(piece, '<');
      Append(Ok(Remove(piece[..k], '<')),
             Append(Transform(matchers, piece[k..]), Translate(matchers, url[i + 1..])))
  }

  /** A key without `>` translates to itself with every `<` dropped. */
  lemma TranslateUnclosed(matchers: map<string, string>, url: string)
    requires '>' !in url
    ensures Translate(matchers, url) == Ok(Remove(url, '<'))
    ensures '<' !in url ==> Translate(matchers, url) == Ok(url)
  {
    FindNone(url, '>');
    if '<' !in url {
      RemoveNone(url, '<');
    }
  }

  /** A `<` ends the literal text before it, which is kept verbatim. */
  lemma TranslateOpen(matchers: map<string, string>, lit: string, rest: string)
    requires Plain(lit)
    ensures Translate(matchers, lit + "<" + rest) == Append(Ok(lit), Translate(matchers, rest))
  {
    var u := lit + "<" + rest;
    FindAfter(lit + "<", rest, '>');
    RemoveAppend(lit, "<", '<');
    RemoveNone(lit, '<');
    assert Remove("<", '<') == [];
    assert Remove(lit + "<", '<') == lit;
    var j := Find(rest, '>');
    if j == |rest| {
      RemoveAppend(lit + "<", rest, '<');
    } else {
      TranslateOpenClosed(matchers, lit, rest, j);
    }
  }

  lemma TranslateOpenClosed(matchers: map<string, string>, lit: string, rest: string, j: nat)
    requires Plain(lit) && j == Find(rest, '>') < |rest|
    requires Remove(lit + "<", '<') == lit
    ensures Translate(matchers, lit + "<" + rest) == Append(Ok(lit), Translate(matchers, rest))
  {
    var u := lit + "<" + rest;
    FindAfter(lit + "<", rest, '>');
    var i := |lit| + 1 + j;
    var piece := rest[..j];
    assert u[..i] == lit + "<" + piece;
    AfterLastPast(lit, piece, '<');
    var k' := AfterLast(piece, '<');
    var k := |lit| + 1 + k';
    assert u[..i][..k] == lit + "<" + piece[..k'];
    assert u[..i][k..] == piece[k'..];
    assert u[i + 1..] == rest[j + 1..];
    RemoveAppend(lit + "<", piece[..k'], '<');
    var x := Remove(piece[..k'], '<');
    var t := Append(Transform(matchers, piece[k'..]), Translate(matchers, rest[j + 1..]));
    TranslateStep(matchers, rest, j, k');
    assert Translate(matchers, rest) == Append(Ok(x), t);
    TranslateStep(matchers, u, i, k);
    assert Translate(matchers, u) == Append(Ok(lit + x), t);
    AppendOkOk(lit, x, t);
  }

  /** One step of `Translate` on a key holding a `>`. */
  lemma TranslateStep(matchers: map<string, string>, url: string, i: nat, k: nat)
    requires i == Find(url, '>') < |url|
    requires k == AfterLast(url[..i], '<')
    ensures Translate(matchers, url)
         == Append(Ok(Remove(url[..i][..k], '<')),
                   Append(Transform(matchers, url[..i][k..]), Translate(matchers, url[i + 1..])))
  {
  }

  /** A `>` hands the text since the last `<` or `>` to `Transform`. */
  lemma TranslateClose(matchers: map<string, string>, body: string, rest: string)
    requires Plain(body)
    ensures Translate(matchers, body + ">" + rest)
         == Append(Transform(matchers, body), Translate(matchers, rest))
  {
    var u := body + ">" + rest;
    assert u == body + (">" + rest);
    FindAfter(body, ">" + rest, '>');
    var i := |body|;
    assert u[..i] == body && u[i + 1..] == rest;
    AfterLastNone(body, '<');
    assert body[..0] == [] && body[0..] == body;
    TranslateStep(matchers, u, i, 0);
    assert Remove([], '<') == [];
    AppendNothing(Append(Transform(matchers, body), Translate(matchers, rest)));
  }

  /** A key `lit<body>rest` translates to `lit`, then the group for `body`,
      then the translation of `rest`: after `>` the scan starts afresh. */
  lemma TranslateParameter(matchers: map<string, string>, lit: string, body: string, rest: string)
    requires Plain(lit) && Plain(body)
    ensures Translate(matchers, lit + "<" + body + ">" + rest)
         == Append(Ok(lit), Append(Transform(matchers, body), Translate(matchers, rest)))
  {
    var tail := body + ">" + rest;
    assert lit + "<" + body + ">" + rest == lit + "<" + tail;
    calc {
      Translate(matchers, lit + "<" + tail);
      { TranslateOpen(matchers, lit, tail); }
      Append(Ok(lit), Translate(matchers, tail));
      { TranslateClose(matchers, body, rest); }
      Append(Ok(lit), Append(Transform(matchers, body), Translate(matchers, rest)));
    }
  }

  /** A parameter body without a colon makes the whole key fail, whatever
      follows it; so does a stray `>` after colon-free text. */
  lemma TranslateMissingColon(matchers: map<string, string>, body: string, rest: string)
    requires Plain(body) && ':' !in body
    ensures Translate(matchers, body + ">" + rest) == Err(SyntaxError)
    ensures Translate(matchers, "<" + body + ">" + rest) == Err(SyntaxError)
  {
    TransformSyntaxError(matchers, body);
    TranslateClose(matchers, body, rest);
    assert "<" + body + ">" + rest == "" + "<" + (body + ">" + rest);
    TranslateOpen(matchers, "", body + ">" + rest);
  }

  /** A key `lit<name:type>rest` with a registered type translates to `lit`,
      then `(?P<name>matcher)`, then the translation of `rest`. */
  lemma TranslateNamed(matchers: map<string, string>, lit: string, name: string, tag: string, rest: string)
    requires Plain(lit) && Plain(name) && Plain(tag)
    requires ':' !in name && ':' !in tag && tag in matchers
    ensures Translate(matchers, lit + "<" + name + ":" + tag + ">" + rest)
         == Append(Ok(lit + Group(name, matchers[tag])), Translate(matchers, rest))
  {
    var body := name + ":" + tag;
    assert Plain(body);
    assert lit + "<" + name + ":" + tag + ">" + rest == lit + "<" + body + ">" + rest;
    TranslateParameter(matchers, lit, body, rest);
    TransformNamed(matchers, name, tag);
    AppendOkOk(lit, Group(name, matchers[tag]), Translate(matchers, rest));
  }
}
