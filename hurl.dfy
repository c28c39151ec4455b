/** The `Hurl` object: a matcher table owned by each instance, and the
    methods that turn a nested route table into anchored (pattern, view)
    pairs, each proved to compute the function that describes it. */
module Hurl {
  import opened Results
  import opened Text
  import opened Segment
  import opened Routes

  class Hurl {
    /** This instance's type tag to matcher table; callers add entries to it. */
    var matchers: map<string, string>

    /** A new instance starts from its own copy of the default table. */
    constructor()
      ensures matchers == DefaultMatchers
    {
      matchers := DefaultMatchers;
    }

    /** `h.matchers[tag] = matcher`: registers (or replaces) one type tag. */
    method Register(tag: string, matcher: string)
      modifies this
      ensures matchers == old(matchers)[tag := matcher]
    {
      matchers := matchers[tag := matcher];
    }

    /** The anchored routes of a table. `prefix` is accepted and not used. */
    method Patterns<V>(prefix: string, patternDict: seq<Entry<V>>) returns (r: Result<seq<Route<V>>>)
      ensures r == AnchoredAll(Flatten(matchers, patternDict))
    {
      var urls := PatternsRecursive(patternDict);
      if urls.Err? {
        return Err(urls.error);
      }
      var formatted := AddPrefixSuffix(urls.value);
      return Ok(formatted);
    }

    /** The unanchored routes of a table, entry by entry, descending into
        nested tables. */
    method PatternsRecursive<V>(patternDict: seq<Entry<V>>) returns (r: Result<seq<Route<V>>>)
      ensures r == Flatten(matchers, patternDict)
      decreases patternDict
    {
      var urls: seq<Route<V>> := [];
      assert patternDict[0..] == patternDict;
      AppendNothing(Flatten(matchers, patternDict));
      for i := 0 to |patternDict|
        invariant Flatten(matchers, patternDict) == Append(Ok(urls), Flatten(matchers, patternDict[i..]))
      {
        var url, view := patternDict[i].key, patternDict[i].value;
        FlattenAt(matchers, patternDict, i);
        var reStr := MakeReStr(url);
        if reStr.Err? {
          return Err(reStr.error);
        }
        var re := reStr.value;
        var later := Flatten(matchers, patternDict[i + 1..]);
        match view {
          case Sub(children) =>
            var reList := PatternsRecursive(children);
            if reList.Err? {
              return Err(reList.error);
            }
            var before := urls;
            for j := 0 to |reList.value|
              invariant urls == before + Nest(re, reList.value[..j])
            {
              var p, v := reList.value[j].0, reList.value[j].1;
              assert Nest(re, reList.value[..j + 1]) == Nest(re, reList.value[..j]) + [(re + "/" + p, v)];
              urls := urls + [(re + "/" + p, v)];
            }
            assert reList.value[..|reList.value|] == reList.value;
            AppendOkOk(before, Nest(re, reList.value), later);
          case Leaf(v) =>
            AppendOkOk(urls, [(re, v)], later);
            urls := urls + [(re, v)];
        }
      }
      assert patternDict[|patternDict|..] == [];
      AppendNothing(Ok(urls));
      assert urls + [] == urls;
      return Ok(urls);
    }

    /** Anchors every route as `^url/$`, keeping views and order. */
    method AddPrefixSuffix<V>(urls: seq<Route<V>>) returns (formatted: seq<Route<V>>)
      ensures |formatted| == |urls|
      ensures forall i :: 0 <= i < |urls| ==> formatted[i] == ("^" + urls[i].0 + "/$", urls[i].1)
      ensures formatted == Anchored(urls)
    {
      formatted := [];
      for i := 0 to |urls|
        invariant |formatted| == i
        invariant forall k :: 0 <= k < i ==> formatted[k] == ("^" + urls[k].0 + "/$", urls[k].1)
      {
        var url, view := urls[i].0, urls[i].1;
        formatted := formatted + [("^" + url + "/$", view)];
      }
    }

    /** Translates one key: literal text is copied, `<` ends it, and `>` hands
        the text since the last `<` or `>` to `Transform`. */
    method MakeReStr(url: string) returns (r: Result<string>)
      ensures r == Translate(matchers, url)
    {
      var parts: seq<string> := [];
      var s := "";
      assert s + url[0..] == url;
      AppendNothing(Translate(matchers, url));
      for n := 0 to |url|
        invariant Plain(s)
        invariant Translate(matchers, url) == Append(Ok(Flat(parts)), Translate(matchers, s + url[n..]))
      {
        var c := url[n];
        var rest := url[n + 1..];
        assert s + url[n..] == s + [c] + rest;
        if c == '<' {
          ScanOpen(matchers, parts, s, rest);
          parts := parts + [s];
          s := "";
          assert s + rest == rest;
        } else if c == '>' {
          var group := Transform(matchers, s);
          ScanClose(matchers, parts, s, rest);
          if group.Err? {
            return Err(group.error);
          }
          parts := parts + [group.value];
          s := "";
          assert s + rest == rest;
        } else {
          assert s + [c] + rest == (s + [c]) + rest;
          s := s + [c];
        }
      }
      assert s + url[|url|..] == s;
      TranslateUnclosed(matchers, s);
      FlatSnoc(parts, s);
      parts := parts + [s];
      return Ok(Flat(parts));
    }
  }

  /** One `<` of the scan: the text so far becomes a part. */
  lemma ScanOpen(matchers: map<string, string>, parts: seq<string>, s: string, rest: string)
    requires Plain(s)
    ensures Append(Ok(Flat(parts)), Translate(matchers, s + ['<'] + rest))
         == Append(Ok(Flat(parts + [s])), Translate(matchers, rest))
  {
    assert s + ['<'] + rest == s + "<" + rest;
    TranslateOpen(matchers, s, rest);
    AppendOkOk(Flat(parts), s, Translate(matchers, rest));
    FlatSnoc(parts, s);
  }

  /** One `>` of the scan: the text so far is transformed, and either becomes a
      part or ends the scan with its error. */
  lemma ScanClose(matchers: map<string, string>, parts: seq<string>, s: string, rest: string)
    requires Plain(s)
    ensures Transform(matchers, s).Err? ==>
      Append(Ok(Flat(parts)), Translate(matchers, s + ['>'] + rest)) == Err(Transform(matchers, s).error)
    ensures Transform(matchers, s).Ok? ==>
      Append(Ok(Flat(parts)), Translate(matchers, s + ['>'] + rest))
      == Append(Ok(Flat(parts + [Transform(matchers, s).value])), Translate(matchers, rest))
  {
    assert s + ['>'] + rest == s + ">" + rest;
    TranslateClose(matchers, s, rest);
    if Transform(matchers, s).Ok? {
      var group := Transform(matchers, s).value;
      AppendOkOk(Flat(parts), group, Translate(matchers, rest));
      FlatSnoc(parts, group);
    }
  }
}
