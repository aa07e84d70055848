# scrapy-lxmlselector: the selector layer, modelled in Dafny

This project models `lxmlselector.py`, the lxml-backed selector layer for
scrapy. It has two classes:

- `LxmlSelector` wraps one position in a parsed document: an element, or a
  scalar such as an attribute value, a text node, a number or a boolean.
  It carries the document it came from, the expression that produced it,
  and its namespace bindings.
- `LxmlSelectorList` is the list of results that every query returns. It
  forwards each selector operation to its elements and flattens the
  answers.

The model has three modules:

- `Lxml` (Lxml.dfy) is the boundary to the foreign code. lxml's four
  parsers, its serialiser and XPath engine, the CSS-to-XPath translator,
  the runtime's UTF-8 codecs and scrapy's regex helper are the fields of
  one `Engine` record of functions. Every operation takes that record as
  a parameter, so each proved property holds for any behaviour of those
  libraries. The module also defines the positions a selector can wrap
  (`Position`), the two shapes of an XPath result (`XPathValue`) and the
  Python exceptions the layer raises (`Error`, inside `Result`).
- `LxmlSelector` (LxmlSelector.dfy) models the selector class. A selector
  never changes after construction, so it is the datatype `Selector`. A
  `__slots__` field that `__init__` never assigns is `Unset`, and reading
  it raises `AttributeError`. The module covers construction, the parser
  choice (a method with the source's try-each-parser loop, proved against
  a specification function), the wrapping of query results, `xpath`,
  `css`, `text`, `attrib`, `re`, `extract` and truthiness.
- `LxmlSelectorList` (LxmlSelectorList.dfy) models the list class. Every
  method of the list is a list comprehension (`MapItems`), sometimes
  followed by scrapy's `flatten` (`Concat`). The module proves the
  flatten-and-forward laws once for these two helpers, then states them
  for each list method.

The model follows Python 2, which the source is written for. `str` and
`unicode` have no `__iter__` there, so a string result of a query counts
as a scalar and is wrapped as a singleton.

Some behaviours of the code are easy to miss:

- The list's `xpath`, `css` and `re` have no type guard. A string element
  makes them raise `AttributeError`; they do not skip it.
- `text=""` is false, so the constructor takes none of its branches. The
  resulting selector has neither `doc` nor `xmlNode`, and querying it
  raises. It does not give an empty result (`EmptyTextHasNoNode`).
- When every parser raises, `_lxml_parse_document` returns `None`. The
  constructor then raises `AttributeError` on `None.getroottree()`. It
  does not build a selector without a tree.
- The selector-level `extract_unquoted` calls `self.select`, which neither
  `LxmlSelector` nor its base class defines. It therefore always raises
  `AttributeError`, and so does the list-level version on any list that
  holds a selector.
- `xpath` and `css` record the query itself as the new expression. Only
  `attrib` and `text` extend the parent's expression. A root selector's
  expression is `None`, which Python's `%s` prints as "None".

## Model

| member | source | states |
|---|---|---|
| `LxmlSelector.FirstReturned` | lxmlselector.py:53-57 | the fallback loop yields the value of the first parser that does not raise; it yields `None` when every parser raises |
| `LxmlSelector.ParseOutcome` | lxmlselector.py:44-57 | the html5lib flag wins whatever the BeautifulSoup flag says; next comes the BeautifulSoup flag; otherwise strict XML is used if it parses, then HTML; if both raise, the result is `None` |
| `LxmlSelector.ParseDocument` | lxmlselector.py:44-57 | the method with the source's loop over `[etree.XML, etree.HTML]` returns exactly what `ParseOutcome` specifies |
| `LxmlSelector.Extract` | lxmlselector.py:80-88 | extraction fails only when `xmlNode` was never assigned, and then with `AttributeError`; a unicode scalar extracts to itself |
| `LxmlSelector.Truthy` | lxmlselector.py:107-108 | a selector is true iff its extraction succeeds and is non-empty, false iff it extracts to "", and raises iff `xmlNode` is unset |
| `LxmlSelector.FromBody` | lxmlselector.py:31-40 | a root construction takes the parsed root as its node and the root's tree as its document; a `None` result fails on `getroottree`; a parser exception passes through |
| `LxmlSelector.Construct` | lxmlselector.py:26-42 | a true parent yields `doc == parent.doc` and `xmlNode == node`; a parent whose extraction is "" falls through to the response branch, then the non-empty text branch, else leaves both slots unset; `expr` and `namespaces` are always those given; every result has `doc` and `xmlNode` both set or both unset |
| `LxmlSelector.WrapEach` | lxmlselector.py:69-70 | one derived selector per node, in order; each carries the parent's document and namespaces, its own node and the given expr; it fails only when the parent cannot be asked its truth value, or when a true parent has no document |
| `LxmlSelector.MakeSelectResults` | lxmlselector.py:67-73 | a list result of n items gives n selectors; a scalar result gives exactly one; item i wraps the i-th match with the given expr and `self.namespaces` and shares `self.doc` |
| `LxmlSelector.Xpath` | lxmlselector.py:59-62 | each result records the query itself as its expr and keeps the parent's namespaces and document; under a true parent with a document the results are exactly one selector per match of the query, in match order; an engine error passes through; an unset node or a non-element node raises `AttributeError` |
| `LxmlSelector.Css` | lxmlselector.py:64-65 | a CSS syntax error is raised before the node is read; a non-element node raises `TypeError`; each result records the CSS query as its expr; under a true parent with a document the results are exactly one selector per match of the compiled XPath (evaluated without namespace bindings), in match order; an engine error passes through |
| `LxmlSelector.Text` | lxmlselector.py:104-105 | each result's expr is the parent's expr followed by "/text()"; the parent's namespaces and document are kept; under a true parent with a document the results are exactly one selector per match of `text()`, in match order; an engine error passes through |
| `LxmlSelector.Attrib` | lxmlselector.py:101-102 | a missing attribute raises `KeyError(name)` and a non-element raises `AttributeError`; otherwise the result is a single selector on `attrib[name]` whose expr is `expr + "/@" + name + "()"` |
| `LxmlSelector.Re` | lxmlselector.py:75-78 | an unset node raises `AttributeError`; otherwise the result is the regex helper applied to the extraction, including what the helper raises (an invalid pattern); so it fails iff extraction fails or the helper raises |
| `LxmlSelector.WrapUnderAnyExpr` | lxmlselector.py:67-73 | wrapping one query result under two expressions gives the same selectors, differing only in expr |
| `LxmlSelector.CssIsTranslatedXPath` | lxmlselector.py:59-65 | for a selector without namespace bindings, `css(c)` finds the same selectors, in the same order, as `xpath` on the XPath that `c` compiles to; only the expr differs |
| `LxmlSelector.TextIsTextQuery` | lxmlselector.py:104-105 | `text()` finds what `xpath("text()")` finds and fails the same way; only the expr differs |
| `LxmlSelector.AttribExtractsValue` | lxmlselector.py:101-102 | the selector that `attrib(name)` returns extracts to the attribute's value |
| `LxmlSelector.EmptyTextHasNoNode` | lxmlselector.py:26-42 | `text=""` leaves `doc` and `xmlNode` unset, so asking its truth value or querying it raises `AttributeError` |
| `LxmlSelector.QueriesStayInDocument` | lxmlselector.py:28-34 | selectors derived from a parsed root by a query share that root's document and are never re-parsed |
| `LxmlSelectorList.MapItems` | lxmlselector.py:141 | the comprehension succeeds iff every element's step succeeds; it then has one entry per element, in order |
| `LxmlSelectorList.Slice` | lxmlselector.py:120-121 | slicing returns an `LxmlSelectorList` holding exactly the elements between the Python-2-normalised bounds; for `0 <= i <= j <= len` these are `items[i:j]` |
| `LxmlSelectorList.Xpath` | lxmlselector.py:123-126 | succeeds iff every element is a selector whose own `xpath` succeeds; an empty list gives an empty list |
| `LxmlSelectorList.Css` | lxmlselector.py:128-131 | succeeds iff every element is a selector whose own `css` succeeds; an empty list gives an empty list |
| `LxmlSelectorList.Re` | lxmlselector.py:133-136 | succeeds iff every element is a selector whose own `re` succeeds (a string element, an unset node or an invalid pattern makes it fail); an empty list gives an empty list |
| `LxmlSelectorList.Attrib` | lxmlselector.py:138-141 | same length as the input; position i holds element i's attribute selector if element i is a selector, otherwise element i unchanged |
| `LxmlSelectorList.Text` | lxmlselector.py:143-146 | succeeds iff every selector element's own `text()` succeeds; string elements never fail |
| `LxmlSelectorList.Extract` | lxmlselector.py:148-151 | a plain list of strings, one per element: a selector's extraction, or the string element itself |
| `LxmlSelectorList.ExtractUnquoted` | lxmlselector.py:153-154 | succeeds iff the list holds no selector, and then returns the strings unchanged; otherwise raises `AttributeError` for `select` |
| `LxmlSelectorList.ConcatAppend` | lxmlselector.py:124-125 | flattening the lists of `a + b` is flattening `a`, then `b` |
| `LxmlSelectorList.ConcatAll` | lxmlselector.py:124-125 | every element of the flattened list comes from one of the parts |
| `LxmlSelectorList.MapItemsAppend` | lxmlselector.py:126 | a comprehension over `a + b` runs over `a`, then over `b`; the first exception wins |
| `LxmlSelectorList.FlatMapItemsAppend` | lxmlselector.py:124-126 | flatten-after-comprehension over `a + b` is `a`'s result followed by `b`'s |
| `LxmlSelectorList.FlatMapItemsSingle` | lxmlselector.py:124-126 | flatten-after-comprehension over one element is that element's own list |
| `LxmlSelectorList.XpathAppend` | lxmlselector.py:123-126 | the list's `xpath` over `a + b` is the result over `a` followed by the result over `b`, so its length is the sum of theirs |
| `LxmlSelectorList.XpathSingle` | lxmlselector.py:123-126 | on a one-selector list, the list's `xpath` is that selector's `xpath` |
| `LxmlSelectorList.XpathTrail` | lxmlselector.py:123-126 | every selector that the list's `xpath` yields records the query as its expr |
| `LxmlSelectorList.CssAppend` | lxmlselector.py:128-131 | the list's `css` over `a + b` is the result over `a` followed by the result over `b` |
| `LxmlSelectorList.CssSingle` | lxmlselector.py:128-131 | on a one-selector list, the list's `css` is that selector's `css` |
| `LxmlSelectorList.CssTrail` | lxmlselector.py:128-131 | every selector that the list's `css` yields records the CSS query as its expr |
| `LxmlSelectorList.ReAppend` | lxmlselector.py:133-136 | the list's `re` over `a + b` is the matches over `a` followed by the matches over `b` |
| `LxmlSelectorList.ReSingle` | lxmlselector.py:133-136 | on a one-selector list, the list's `re` is that selector's `re` |
| `LxmlSelectorList.TextAppend` | lxmlselector.py:143-146 | the list's `text()` over `a + b` is the result over `a` followed by the result over `b` |
| `LxmlSelectorList.TextSingle` | lxmlselector.py:143-146 | a selector contributes its own `text()`; a string element is kept as it is |

## Left out

- lxml, html5lib, BeautifulSoup, the CSS translator, the UTF-8 codecs (including the lenient `errors='ignore'` decode) and scrapy's `extract_regex`: foreign code. Each is an uninterpreted field of `Engine`, and nothing is assumed about what it computes. The fields that can raise (the parsers, XPath evaluation, the CSS translator and the regex helper, which raises on an invalid pattern) return a `Result`, and their errors pass through the layer unchanged.
- Regex matching itself is left out for the same reason. The selector's `re` is the helper applied to `extract()`.
- scrapy's `flatten` is not shown. It is modelled by its documented effect: the per-element lists are concatenated. Selectors are not iterable and string elements are kept whole, so exactly one level of nesting is removed.
- `TextResponse` construction in the text branch is scrapy plumbing. It is modelled as "the body is the UTF-8 encoding of the text".
- A response object is taken to be always true (the `elif response:` test): only its body is read.
- `register_namespace`: it reads `self.doc.xpathContext`, which lxml's document trees do not have. Namespace bindings enter a selector only through the constructor.
- The selector-level `extract_unquoted` has no row: it raises `AttributeError` unconditionally, and `LxmlSelectorList.ExtractUnquoted` states what that means.
- `__str__`/`__repr__`, the `object_ref` live-reference tracking, `__weakref__` and `__slots__` are Python object machinery with no contract. setup.py is packaging metadata.
- `_make_select_results` ignores its `namespaces` argument and uses `self.namespaces`; every caller passes that same value, so the model drops the argument.
- A `namespaces=None` argument is modelled as the empty map, which `namespaces or {}` turns it into. The node's default `None` is the position `NoneValue`.
- Extract: its contract states when extraction fails and the unicode case; the element, byte-string, number, boolean and `None` cases are its definition, since they only call the foreign serialiser, decoder and float formatter.
- `extract()` is idempotent only in the sense that it is a pure function of the selector and the engine; the model states nothing more.
- The length rule for the list's `xpath`, `css` and `re` (the sum of the per-element lengths) follows from the `...Append` and `...Single` lemmas; it is not stated as a separate sum.
