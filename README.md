# hurl: URL patterns from a nested route table

`hurl` turns a nested Python dictionary of route keys into Django-style URL
patterns. A key such as `'articles'` or `'<id:int>/<id2:int>'` is a path
segment, and each `<name:type>` parameter in it becomes a named regular-expression group
`(?P<name>matcher)`. The `type` is looked up in a per-instance matcher table
that starts as `{'int': r'\d+', 'slug': r'[\w-]+'}`. A value that is itself a
dictionary is a nested table: its routes go under the key's pattern and a `/`.
Any other value is a view and ends a route. Every route is finally anchored as
`^pattern/$`.

This project models the class `Hurl` of `hurl.py`:

- `results.dfy` (module `Results`) has the two failures the code can raise and
  a `Result` type. `Append` keeps the first error, as a raised exception would.
- `text.dfy` (module `Text`) has `str.split` and `''.join`, with the round trip
  between them, and small scanning helpers.
- `segment.dfy` (module `Segment`) has `transform` and `generate_matcher` as the
  function `Transform` of the matcher table. It also has `Translate`, a
  description of what `make_re_str` produces that is written by the shape of the key, not by the
  scan.
- `routes.dfy` (module `Routes`) has the route tree, and `Flatten`, the function
  `patterns_recursive` computes. It also gives two independent descriptions of
  `Flatten`: by the key paths to the leaves, and by when it fails. Anchoring is
  here too.
- `hurl.dfy` (module `Hurl`) has the class `Hurl`:
  - the `matchers` field
  - the constructor
  - registration of a matcher
  - the three loop-based methods `PatternsRecursive`, `AddPrefixSuffix` and
    `MakeReStr`, each proved to compute the function above
  - `Patterns`, which calls two of them in turn
- `examples.dfy` (module `Examples`) has the cases of `tests.py`. Each is stated
  for every key of the same shape, and some are also stated on concrete inputs
  through the class's methods. Each gives the answer `hurl.py` gives.

`tests.py` targets a later version of the library than `hurl.py`. The model
follows `hurl.py` where they differ:

- An unclosed `<` is dropped silently: `'<:int/blog/'` translates to
  `':int/blog/'`. It is not a syntax error.
- A stray `>` hands `transform` the text since the previous `<` or `>`, or since
  the start of the key: `'a:int>b>'` hands over `'a:int'` and then `'b'`. That
  text is a syntax error unless it contains a `:`.
- `'<year>'` has no colon and is a syntax error. There is no default
  matcher, and no fallback to a matcher named like the parameter.
- `'<:int>'` gives the named group `(?P<>\d+)`, not `(\d+)`.
- The empty key gives `^/$`. Under a nested table it gives `^bla//$`, because
  the `/` is always inserted.
- A body with two or more colons is looked up under the tag `str`, named by its
  first part. The default table has no `str` entry, so this fails with a lookup
  error.
- Whitespace is never stripped, names are not checked, and there is no name
  prefix or `urls`/`include` API.

## Model

| member | source | states |
|---|---|---|
| `Text.SplitMany` | hurl.py:49-51 | `split(':')` returns a single piece exactly when the text has no `:`, so `0 < len(parts) < 2` means "no colon" |
| `Text.SplitJoin` | hurl.py:49 | joining the pieces of `split` with the separator gives back the original text |
| `Text.JoinSplit` | hurl.py:49 | splitting a join of separator-free pieces gives back exactly those pieces (the other round trip) |
| `Text.SplitFirst` | hurl.py:49 | splitting `a + ':' + b` with `a` colon-free gives `a` followed by the pieces of `b` |
| `Segment.TransformSyntaxError` | hurl.py:48-51 | `transform` raises the syntax error exactly when the parameter body has no `:` |
| `Segment.TransformNamed` | hurl.py:48-61 | `name:type` gives `(?P<name>matcher)` for a registered type and otherwise the lookup error naming that type |
| `Segment.TransformManyColons` | hurl.py:48-61 | a body with two or more colons is named by its first part and looked up under `str` |
| `Segment.TranslateUnclosed` | hurl.py:33-46 | a key with no `>` translates to itself with every `<` removed, and to itself when it has no `<` either |
| `Segment.TranslateOpen` | hurl.py:37-39 | literal text up to a `<` is kept as is, and translation continues after the `<` |
| `Segment.TranslateClose` | hurl.py:40-42 | bracket-free text closed by `>` is transformed, and translation continues after the `>` |
| `Segment.TranslateParameter` | hurl.py:33-46 | `lit<body>rest` gives `lit`, then `transform(body)`, then the translation of `rest`, with the first error winning |
| `Segment.TranslateMissingColon` | hurl.py:40-51 | a closed body without `:` (with or without its `<`) makes the whole key a syntax error |
| `Segment.TranslateNamed` | hurl.py:33-61 | `lit<name:type>rest` gives `lit(?P<name>matcher)` followed by the translation of `rest` |
| `Routes.FlattenSingleLeaf` | hurl.py:23-24 | a table with one view gives the single route `(pattern, view)` |
| `Routes.FlattenSingleSub` | hurl.py:19-22 | a table with one nested table gives the nested routes, each prefixed by the key's pattern and `/` |
| `Routes.FlattenConcat` | hurl.py:15-25 | the routes of a table are those of its first entries followed by those of the rest, in iteration order |
| `Routes.FlattenByPaths` | hurl.py:15-25 | when flattening succeeds it yields one route per leaf, in order, whose pattern is the translated keys on the path to it joined by `/` |
| `Routes.FlattenRoutes` | hurl.py:15-25 | the same, route by route: as many routes as leaves, the `i`-th with the `i`-th leaf's view and path pattern |
| `Routes.FlattenFails` | hurl.py:15-25 | flattening fails exactly when some key anywhere in the tree fails to translate, and with the first such key's error in preorder |
| `Routes.AnchorInjective` | hurl.py:27-31 | `'^{url}/$'` loses nothing: different urls give different anchored patterns |
| `Hurl.Hurl.constructor` | hurl.py:2-8 | a new instance's table is the default `{'int': '\d+', 'slug': '[\w-]+'}` |
| `Hurl.Hurl.Register` | tests.py:83 | setting `h.matchers[tag]` adds or replaces that tag and leaves the other entries |
| `Hurl.Hurl.Patterns` | hurl.py:10-13 | the result is the anchored flattening of the table, or the first error; `prefix` is ignored |
| `Hurl.Hurl.PatternsRecursive` | hurl.py:15-25 | the loop computes `Flatten` of the table with the instance's matchers |
| `Hurl.Hurl.AddPrefixSuffix` | hurl.py:27-31 | the result has one entry per route, in order, each `('^' + url + '/$', view)` |
| `Hurl.Hurl.MakeReStr` | hurl.py:33-46 | the character scan computes `Translate` of the key with the instance's matchers |
| `Examples.PlainKeyRoute` | tests.py:8-16 | a key without brackets gives `^key/$` (`'2003'` gives `^2003/$`; `''` gives `^/$`) |
| `Examples.NamedParameterKey` | hurl.py:33-61 | `'<name:type>'` translates to `(?P<name>matcher)`, or to the lookup error for an unregistered type |
| `Examples.NamedParameterRoute` | tests.py:30-38 | a table with one `'<name:type>'` key gives `^(?P<name>matcher)/$`, or fails naming the type |
| `Examples.GuessedTypeFails` | tests.py:92-111 | `'<name>'` without a type is a syntax error (the tests expect a default matcher) |
| `Examples.TwoParametersKey` | tests.py:40-50 | `'<a:ta>/<b:tb>'` gives two named groups around the `/` |
| `Examples.TwoNamedParametersRoute` | tests.py:40-50 | `{outer: {'<a:ta>/<b:tb>': v}}` gives `^outer/(?P<a>…)/(?P<b>…)/$` |
| `Examples.EmptyNestedRoute` | tests.py:136-146 | `{outer: {'': v}}` gives `^outer//$` (the tests expect `^outer/$`) |
| `Examples.TwoLeaves` | hurl.py:17-24 | two views side by side give their two routes in table order |
| `Examples.TreeRoutes` | tests.py:52-69 | a table two levels deep gives three routes, each carrying the patterns of every key above it |
| `Examples.TreeAnchored` | tests.py:52-69 | the anchored routes of the test's tree shape, for any names and type |
| `Examples.SlugNamedType` | tests.py:71-79 | on a new instance `'<id:slug>'` gives `^(?P<id>[\w-]+)/$` |
| `Examples.CustomNamedType` | tests.py:81-90 | after registering `year` as `\d{4}`, `'<year:year>'` gives `^(?P<year>\d{4})/$` |
| `Examples.CustomGuessedType` | tests.py:92-101 | with `year` registered, `'<year>'` is still a syntax error |
| `Examples.UnknownType` | hurl.py:60-61 | on a new instance `'<year:year>'` fails with the lookup error for `year` |
| `Examples.TwoNamedParameters` | tests.py:40-50 | on a new instance the test's table gives `^articles/(?P<id>\d+)/(?P<id2>\d+)/$` |
| `Examples.TreeUrls` | tests.py:52-69 | on a new instance the test's tree gives its three anchored routes, in table order |

## Left out

- Regular expressions are text here. Whether a pattern is a valid expression, and what it matches, is not modelled.
- Python's exceptions are reduced to two kinds. `StandardError('Fix')` is `SyntaxError`, and the `KeyError` of `generate_matcher` is `UnknownMatcher(tag)`. The first one raised ends the call, and nothing else is thrown.
- A dictionary is a sequence of entries in iteration order. Keys are not required to be distinct, which a Python dictionary would guarantee; nothing in the model depends on it.
- `type(view) == dict` is the choice between `Sub` and `Leaf`. A value of any other type, a list included, is a view passed through untouched.
- `DEFAULT_MATCHERS` is a constant. Changes made to the class attribute itself, rather than to an instance's copy, are not modelled.
- The `prefix` argument of `patterns` is accepted and unused, as in the code.
- `generate_matcher` is the function `Segment.GenerateMatcher`. It has no row of its own; its lookup and its error are stated by `Segment.TransformNamed` and `Examples.UnknownType`.
- `'{}'.format(...)` around the joined parts is the identity on text and is not modelled separately.
- Strings are sequences of characters. Python 2's `str`/`unicode` distinction and byte encodings are not modelled.
- The `urls`, `include`, `name_prefix` and `default_matcher` API used by `tests.py` is not in `hurl.py`. The Django `patterns` call is not part of this model.
- `tests.py:8-28` and later tests also check a derived view name and a `None` argument produced by `urls`. Only the patterns and views are modelled.
