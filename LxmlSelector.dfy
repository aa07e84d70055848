/**
 * The `LxmlSelector` node wrapper: construction (the parent, response and
 * text branches and the parser-backend choice), XPath and CSS queries, the
 * wrapping of query results into derived selectors, extraction, attribute
 * and text access, and truthiness.
 *
 * A selector is never changed after construction, so the object is a
 * datatype value; a slot that `__init__` leaves unassigned is `Unset`.
 */
module LxmlSelector {
  import opened Lxml

  datatype Selector = Selector(
    doc: Slot<DocId>,
    node: Slot<Position>,
    expr: Option<string>,
    namespaces: Namespaces
  )

  /** An element of an `LxmlSelectorList`: a selector, or a string put there by a caller. */
  datatype Item = Sel(sel: Selector) | Raw(raw: string)

  /** `LxmlSelectorList`, kept apart from the plain lists that extraction returns. */
  datatype SelectorList = SelectorList(items: seq<Item>)

  /** A response-like object: only its body is read. */
  datatype Response = Response(body: seq<byte>)

  /** Every construction assigns `doc` and `xmlNode` together or leaves both unset. */
  predicate WellFormed(s: Selector) {
    s.doc.Set? <==> s.node.Set?
  }

  /** Python's `"%s" % expr`: `None` is formatted as "None". */
  function ExprText(expr: Option<string>): string {
    match expr
    case None => "None"
    case Some(e) => e
  }

  // ---------------------------------------------------------------------
  // Parser-backend choice (_lxml_parse_document)
  // ---------------------------------------------------------------------

  /**
   * The value of the first parser in `parsers` that returns instead of
   * raising; `None` when every one raises.
   */
  function FirstReturned(parsers: seq<Parser>, body: seq<byte>): (r: Option<ElementId>)
    ensures (forall i :: 0 <= i < |parsers| ==> parsers[i](body).Err?) ==> r == None
    ensures forall i ::
              0 <= i < |parsers| && parsers[i](body).Ok? &&
              (forall k :: 0 <= k < i ==> parsers[k](body).Err?)
              ==> r == parsers[i](body).value
    decreases |parsers|
  {
    if parsers == [] then None
    else
      match parsers[0](body)
      case Ok(root) => root
      case Err(_) =>
        assert forall i :: 1 <= i < |parsers| ==> parsers[1..][i - 1] == parsers[i];
        FirstReturned(parsers[1..], body)
  }

  /** The fallback chain tried when neither html5lib nor BeautifulSoup is asked for. */
  function FallbackParsers(lx: Engine): seq<Parser> {
    [lx.parseXml, lx.parseHtml]
  }

  /**
   * What `_lxml_parse_document` returns or raises: the html5lib flag wins,
   * then the BeautifulSoup flag (both let exceptions through); otherwise
   * strict XML, then HTML, with every exception swallowed.
   */
  function ParseOutcome(lx: Engine, body: seq<byte>, useHtml5: bool, useSoup: bool): (r: Result<Option<ElementId>>)
    ensures useHtml5 ==> r == lx.parseHtml5(body)
    ensures !useHtml5 && useSoup ==> r == lx.parseSoup(body)
    ensures !useHtml5 && !useSoup && lx.parseXml(body).Ok? ==> r == lx.parseXml(body)
    ensures !useHtml5 && !useSoup && lx.parseXml(body).Err? && lx.parseHtml(body).Ok? ==> r == lx.parseHtml(body)
    ensures !useHtml5 && !useSoup && lx.parseXml(body).Err? && lx.parseHtml(body).Err? ==> r == Ok(None)
  {
    if useHtml5 then lx.parseHtml5(body)
    else if useSoup then lx.parseSoup(body)
    else
      var parsers := FallbackParsers(lx);
      assert parsers[0] == lx.parseXml && parsers[1] == lx.parseHtml;
      Ok(FirstReturned(parsers, body))
  }

  /** `_lxml_parse_document`: the backend choice and the try-each-parser loop. */
  method ParseDocument(lx: Engine, body: seq<byte>, useHtml5: bool, useSoup: bool) returns (r: Result<Option<ElementId>>)
    ensures r == ParseOutcome(lx, body, useHtml5, useSoup)
  {
    if useHtml5 {
      return lx.parseHtml5(body);
    } else if useSoup {
      return lx.parseSoup(body);
    }
    var parsers := FallbackParsers(lx);
    for i := 0 to |parsers|
      invariant forall k :: 0 <= k < i ==> parsers[k](body).Err?
    {
      var attempt := parsers[i](body);
      if attempt.Ok? {
        return Ok(attempt.value);
      }
    }
    return Ok(None);
  }

  // ---------------------------------------------------------------------
  // Extraction and truthiness
  // ---------------------------------------------------------------------

  /**
   * `extract`: an element is serialised and decoded leniently; a byte string
   * is decoded leniently; anything else makes that decode raise TypeError
   * and is coerced by `unicode(...)` instead.
   */
  function Extract(lx: Engine, s: Selector): (r: Result<string>)
    ensures r.Err? <==> s.node.Unset?
    ensures r.Err? ==> r.error == AttributeError("xmlNode")
    ensures s.node.Set? && s.node.value.Unicode? ==> r == Ok(s.node.value.text)
  {
    match s.node
    case Unset => Err(AttributeError("xmlNode"))
    case Set(p) =>
      match p
      case Element(e) => Ok(lx.decodeUtf8(lx.serialize(e)))
      case Bytes(b) => Ok(lx.decodeUtf8(b))
      case Unicode(t) => Ok(t)
      case Number(x) => Ok(lx.formatFloat(x))
      case Boolean(b) => Ok(if b then "True" else "False")
      case NoneValue => Ok("None")
  }

  /** `__nonzero__`: a selector is true iff what it extracts is non-empty. */
  function Truthy(lx: Engine, s: Selector): (r: Result<bool>)
    ensures r == Ok(true) <==> Extract(lx, s).Ok? && |Extract(lx, s).value| > 0
    ensures r == Ok(false) <==> Extract(lx, s) == Ok("")
    ensures r.Err? <==> s.node.Unset?
  {
    match Extract(lx, s)
    case Err(e) => Err(e)
    case Ok(text) => Ok(text != "")
  }

  // ---------------------------------------------------------------------
  // Construction (__init__)
  // ---------------------------------------------------------------------

  /**
   * How a root construction ends, given what the parser step produced:
   * a returned root becomes the node and its tree the document; a returned
   * `None` fails on `getroottree`; a raised exception passes through.
   */
  predicate RootedIn(lx: Engine, r: Result<Selector>, parsed: Result<Option<ElementId>>) {
    match parsed
    case Ok(Some(root)) => r.Ok? && r.value.doc == Set(lx.rootTree(root)) && r.value.node == Set(Element(root))
    case Ok(None) => r == Err(AttributeError("getroottree"))
    case Err(e) => r == Err(e)
  }

  function FromBody(lx: Engine, body: seq<byte>, useHtml5: bool, useSoup: bool, expr: Option<string>, namespaces: Namespaces): (r: Result<Selector>)
    ensures RootedIn(lx, r, ParseOutcome(lx, body, useHtml5, useSoup))
    ensures r.Ok? ==> r.value.expr == expr && r.value.namespaces == namespaces
  {
    match ParseOutcome(lx, body, useHtml5, useSoup)
    case Err(e) => Err(e)
    case Ok(None) => Err(AttributeError("getroottree"))
    case Ok(Some(root)) => Ok(Selector(Set(lx.rootTree(root)), Set(Element(root)), expr, namespaces))
  }

  /** `if parent:` — `None` is false; a selector is asked `__nonzero__`. */
  function ParentTest(lx: Engine, parent: Option<Selector>): Result<bool> {
    if parent.None? then Ok(false) else Truthy(lx, parent.value)
  }

  /**
   * `LxmlSelector.__init__`. The node's default `None` is passed as `NoneValue`,
   * and a `namespaces` of `None` as the empty map.
   */
  function Construct(
    lx: Engine, response: Option<Response>, text: Option<string>, node: Position,
    parent: Option<Selector>, expr: Option<string>, useHtml5: bool, useSoup: bool,
    namespaces: Namespaces): (r: Result<Selector>)
    ensures r.Ok? ==> r.value.expr == expr && r.value.namespaces == namespaces && WellFormed(r.value)
    // a true parent: share its document, wrap the given node
    ensures parent.Some? && Truthy(lx, parent.value) == Ok(true) && parent.value.doc.Set?
            ==> r == Ok(Selector(parent.value.doc, Set(node), expr, namespaces))
    // the parent's own extract fails: the exception passes through
    ensures parent.Some? && Truthy(lx, parent.value).Err? ==> r == Err(AttributeError("xmlNode"))
    // the parent branch is skipped when the parent extracts to ""
    ensures ParentTest(lx, parent) == Ok(false) && response.Some?
            ==> RootedIn(lx, r, ParseOutcome(lx, response.value.body, useHtml5, useSoup))
    ensures ParentTest(lx, parent) == Ok(false) && response.None? && text.Some? && text.value != ""
            ==> RootedIn(lx, r, ParseOutcome(lx, lx.encodeUtf8(text.value), useHtml5, useSoup))
    ensures ParentTest(lx, parent) == Ok(false) && response.None? && (text.None? || text.value == "")
            ==> r == Ok(Selector(Unset, Unset, expr, namespaces))
  {
    match ParentTest(lx, parent)
    case Err(e) => Err(e)
    case Ok(isTrue) =>
      if isTrue then
        match parent.value.doc
        case Unset => Err(AttributeError("doc"))
        case Set(d) => Ok(Selector(Set(d), Set(node), expr, namespaces))
      else if response.Some? then
        FromBody(lx, response.value.body, useHtml5, useSoup, expr, namespaces)
      else if text.Some? && text.value != "" then
        FromBody(lx, lx.encodeUtf8(text.value), useHtml5, useSoup, expr, namespaces)
      else
        Ok(Selector(Unset, Unset, expr, namespaces))
  }

  // ---------------------------------------------------------------------
  // Wrapping query results (_make_select_results)
  // ---------------------------------------------------------------------

  /** What a selector derived from `parent` holds once `parent`'s truth value is known. */
  function Derived(parent: Selector, parentIsTrue: bool, node: Position, expr: Option<string>): Selector {
    if parentIsTrue then Selector(parent.doc, Set(node), expr, parent.namespaces)
    else Selector(Unset, Unset, expr, parent.namespaces)
  }

  /** One `type(self)(node=n, parent=self, ...)` per node, in order. */
  function WrapEach(lx: Engine, parent: Selector, nodes: seq<Position>, expr: Option<string>): (r: Result<seq<Item>>)
    ensures nodes == [] ==> r == Ok([])
    ensures nodes != [] ==>
              (r.Err? <==> parent.node.Unset? || (Truthy(lx, parent) == Ok(true) && parent.doc.Unset?))
    ensures r.Ok? ==> |r.value| == |nodes|
    ensures r.Ok? ==>
              forall i :: 0 <= i < |nodes| ==>
                r.value[i] == Sel(Derived(parent, Truthy(lx, parent) == Ok(true), nodes[i], expr))
    decreases |nodes|
  {
    if nodes == [] then Ok([])
    else
      match Construct(lx, None, None, nodes[0], Some(parent), expr, false, false, parent.namespaces)
      case Err(e) => Err(e)
      case Ok(s) =>
        match WrapEach(lx, parent, nodes[1..], expr)
        case Err(e) => Err(e)
        case Ok(rest) =>
          assert forall i :: 1 <= i < |nodes| ==> nodes[1..][i - 1] == nodes[i];
          Ok([Sel(s)] + rest)
  }

  /** The positions a query result is spread over: a list as is, a scalar as a singleton. */
  function Matches(result: XPathValue): seq<Position> {
    match result
    case NodeSet(ms) => ms
    case Scalar(p) => [p]
  }

  /**
   * `_make_select_results`. Its `namespaces` argument is not read: each
   * derived selector takes `self.namespaces`, the value every caller passes.
   */
  function MakeSelectResults(lx: Engine, s: Selector, result: XPathValue, expr: Option<string>): (r: Result<SelectorList>)
    ensures result.Scalar? && r.Ok? ==> |r.value.items| == 1
    ensures result.NodeSet? && r.Ok? ==> |r.value.items| == |result.matches|
    ensures r.Ok? ==> forall i :: 0 <= i < |r.value.items| ==>
              r.value.items[i].Sel? && r.value.items[i].sel.expr == expr &&
              r.value.items[i].sel.namespaces == s.namespaces && WellFormed(r.value.items[i].sel)
    ensures Truthy(lx, s) == Ok(true) && s.doc.Set? ==>
              r.Ok? && |r.value.items| == |Matches(result)| &&
              forall i :: 0 <= i < |r.value.items| ==>
                r.value.items[i] == Sel(Selector(s.doc, Set(Matches(result)[i]), expr, s.namespaces))
    ensures Truthy(lx, s) == Ok(false) ==>
              r.Ok? && forall i :: 0 <= i < |r.value.items| ==>
                r.value.items[i] == Sel(Selector(Unset, Unset, expr, s.namespaces))
  {
    match WrapEach(lx, s, Matches(result), expr)
    case Err(e) => Err(e)
    case Ok(items) => Ok(SelectorList(items))
  }

  // ---------------------------------------------------------------------
  // Queries
  // ---------------------------------------------------------------------

  /** `xpath(q)`: evaluate against the node with this selector's namespaces. */
  function Xpath(lx: Engine, s: Selector, q: string): (r: Result<SelectorList>)
    ensures s.node.Unset? ==> r == Err(AttributeError("xmlNode"))
    ensures s.node.Set? && !s.node.value.Element? ==> r == Err(AttributeError("xpath"))
    ensures r.Ok? ==>
              s.node.Set? && s.node.value.Element? && lx.evalXPath(s.node.value.id, q, s.namespaces).Ok?
    ensures r.Ok? ==> forall i :: 0 <= i < |r.value.items| ==>
              r.value.items[i].Sel? && r.value.items[i].sel.expr == Some(q) &&
              r.value.items[i].sel.namespaces == s.namespaces && WellFormed(r.value.items[i].sel)
    ensures Truthy(lx, s) == Ok(true) && r.Ok? ==> forall i :: 0 <= i < |r.value.items| ==>
              r.value.items[i].sel.doc == s.doc
    // the results wrap the engine's matches, one selector per match, in order
    ensures s.node.Set? && s.node.value.Element? ==>
              var res := lx.evalXPath(s.node.value.id, q, s.namespaces);
              (res.Err? ==> r == Err(res.error)) &&
              (res.Ok? && Truthy(lx, s) == Ok(true) && s.doc.Set? ==>
                r.Ok? && |r.value.items| == |Matches(res.value)| &&
                forall i :: 0 <= i < |r.value.items| ==>
                  r.value.items[i] == Sel(Selector(s.doc, Set(Matches(res.value)[i]), Some(q), s.namespaces)))
  {
    match s.node
    case Unset => Err(AttributeError("xmlNode"))
    case Set(p) =>
      if !p.Element? then Err(AttributeError("xpath"))
      else
        match lx.evalXPath(p.id, q, s.namespaces)
        case Err(e) => Err(e)
        case Ok(v) => MakeSelectResults(lx, s, v, Some(q))
  }

  /**
   * `css(c)`: the selector is compiled to XPath first, then applied to the
   * node; lxml's compiled selector carries no namespace bindings.
   */
  function Css(lx: Engine, s: Selector, c: string): (r: Result<SelectorList>)
    ensures lx.cssToXPath(c).Err? ==> r == Err(lx.cssToXPath(c).error)
    ensures lx.cssToXPath(c).Ok? && s.node.Unset? ==> r == Err(AttributeError("xmlNode"))
    ensures lx.cssToXPath(c).Ok? && s.node.Set? && !s.node.value.Element? ==> r == Err(TypeError)
    ensures r.Ok? ==> forall i :: 0 <= i < |r.value.items| ==>
              r.value.items[i].Sel? && r.value.items[i].sel.expr == Some(c) &&
              r.value.items[i].sel.namespaces == s.namespaces && WellFormed(r.value.items[i].sel)
    ensures Truthy(lx, s) == Ok(true) && r.Ok? ==> forall i :: 0 <= i < |r.value.items| ==>
              r.value.items[i].sel.doc == s.doc
    // the results wrap what the compiled query matches, one selector per match, in order
    ensures lx.cssToXPath(c).Ok? && s.node.Set? && s.node.value.Element? ==>
              var res := lx.evalXPath(s.node.value.id, lx.cssToXPath(c).value, map[]);
              (res.Err? ==> r == Err(res.error)) &&
              (res.Ok? && Truthy(lx, s) == Ok(true) && s.doc.Set? ==>
                r.Ok? && |r.value.items| == |Matches(res.value)| &&
                forall i :: 0 <= i < |r.value.items| ==>
                  r.value.items[i] == Sel(Selector(s.doc, Set(Matches(res.value)[i]), Some(c), s.namespaces)))
  {
    match lx.cssToXPath(c)
    case Err(e) => Err(e)
    case Ok(x) =>
      match s.node
      case Unset => Err(AttributeError("xmlNode"))
      case Set(p) =>
        if !p.Element? then Err(TypeError)
        else
          match lx.evalXPath(p.id, x, map[])
          case Err(e) => Err(e)
          case Ok(v) => MakeSelectResults(lx, s, v, Some(c))
  }

  /** `text()`: the node's child text nodes, queried without namespace bindings. */
  function Text(lx: Engine, s: Selector): (r: Result<SelectorList>)
    ensures s.node.Unset? ==> r == Err(AttributeError("xmlNode"))
    ensures s.node.Set? && !s.node.value.Element? ==> r == Err(AttributeError("xpath"))
    ensures r.Ok? ==> forall i :: 0 <= i < |r.value.items| ==>
              r.value.items[i].Sel? && r.value.items[i].sel.expr == Some(ExprText(s.expr) + "/text()") &&
              r.value.items[i].sel.namespaces == s.namespaces && WellFormed(r.value.items[i].sel)
    ensures Truthy(lx, s) == Ok(true) && r.Ok? ==> forall i :: 0 <= i < |r.value.items| ==>
              r.value.items[i].sel.doc == s.doc
    // the results wrap the node's child text nodes, one selector per match, in order
    ensures s.node.Set? && s.node.value.Element? ==>
              var res := lx.evalXPath(s.node.value.id, "text()", map[]);
              (res.Err? ==> r == Err(res.error)) &&
              (res.Ok? && Truthy(lx, s) == Ok(true) && s.doc.Set? ==>
                r.Ok? && |r.value.items| == |Matches(res.value)| &&
                forall i :: 0 <= i < |r.value.items| ==>
                  r.value.items[i] == Sel(Selector(s.doc, Set(Matches(res.value)[i]), Some(ExprText(s.expr) + "/text()"), s.namespaces)))
  {
    match s.node
    case Unset => Err(AttributeError("xmlNode"))
    case Set(p) =>
      if !p.Element? then Err(AttributeError("xpath"))
      else
        match lx.evalXPath(p.id, "text()", map[])
        case Err(e) => Err(e)
        case Ok(v) => MakeSelectResults(lx, s, v, Some(ExprText(s.expr) + "/text()"))
  }

  /** The expression trail `attrib(name)` records. */
  function AttribExpr(s: Selector, name: string): string {
    ExprText(s.expr) + "/@" + name + "()"
  }

  /** `attrib(name)`: the attribute's value wrapped as the only derived selector. */
  function Attrib(lx: Engine, s: Selector, name: string): (r: Result<Selector>)
    ensures s.node.Unset? ==> r == Err(AttributeError("xmlNode"))
    ensures s.node.Set? && !s.node.value.Element? ==> r == Err(AttributeError("attrib"))
    ensures s.node.Set? && s.node.value.Element? && name !in lx.attributes(s.node.value.id)
            ==> r == Err(KeyError(name))
    ensures s.node.Set? && s.node.value.Element? && name in lx.attributes(s.node.value.id)
            && WellFormed(s)
            ==> r.Ok?
    ensures r.Ok? ==> r.value.expr == Some(AttribExpr(s, name)) && r.value.namespaces == s.namespaces
    ensures s.node.Set? && s.node.value.Element? && name in lx.attributes(s.node.value.id) &&
            Truthy(lx, s) == Ok(true) && s.doc.Set?
            ==> r.Ok? && r.value == Selector(s.doc, Set(lx.attributes(s.node.value.id)[name]), Some(AttribExpr(s, name)), s.namespaces)
    ensures r.Ok? ==> WellFormed(r.value)
  {
    match s.node
    case Unset => Err(AttributeError("xmlNode"))
    case Set(p) =>
      if !p.Element? then Err(AttributeError("attrib"))
      else if name !in lx.attributes(p.id) then Err(KeyError(name))
      else
        match MakeSelectResults(lx, s, NodeSet([lx.attributes(p.id)[name]]), Some(AttribExpr(s, name)))
        case Err(e) => Err(e)
        case Ok(l) => Ok(l.items[0].sel)
  }

  /** `re(regex)`: scrapy's regex helper over what the selector extracts. */
  function Re(lx: Engine, s: Selector, regex: string): (r: Result<seq<string>>)
    ensures s.node.Unset? ==> r == Err(AttributeError("xmlNode"))
    ensures s.node.Set? ==> r == lx.extractRegex(regex, Extract(lx, s).value)
    ensures r.Err? <==> s.node.Unset? || lx.extractRegex(regex, Extract(lx, s).value).Err?
  {
    match Extract(lx, s)
    case Err(e) => Err(e)
    case Ok(text) => lx.extractRegex(regex, text)
  }

  /**
   * `extract_unquoted` on a selector: its first step, `self.select`, names
   * a method that neither `LxmlSelector` nor its base class defines.
   */
  function ExtractUnquoted(s: Selector): Result<string> {
    Err(AttributeError("select"))
  }

  // ---------------------------------------------------------------------
  // Properties relating the operations
  // ---------------------------------------------------------------------

  /** Two query results that hold the same selectors, save that `a`'s record the expression `e`. */
  predicate SameMatches(a: Result<SelectorList>, b: Result<SelectorList>, e: Option<string>) {
    (a.Ok? <==> b.Ok?) &&
    (a.Ok? ==>
      |a.value.items| == |b.value.items| &&
      forall i :: 0 <= i < |a.value.items| ==>
        a.value.items[i].Sel? && b.value.items[i].Sel? &&
        a.value.items[i].sel == b.value.items[i].sel.(expr := e))
  }

  /** Wrapping the same query result under two expressions differs only in the expression. */
  lemma WrapUnderAnyExpr(lx: Engine, s: Selector, v: XPathValue, e1: Option<string>, e2: Option<string>)
    ensures SameMatches(MakeSelectResults(lx, s, v, e1), MakeSelectResults(lx, s, v, e2), e1)
  {
  }

  /**
   * `css(c)` finds what `xpath` finds for the XPath that `c` translates to,
   * for a selector without namespace bindings (the compiled CSS selector
   * carries none); only the recorded expression differs.
   */
  lemma CssIsTranslatedXPath(lx: Engine, s: Selector, c: string, x: string)
    requires lx.cssToXPath(c) == Ok(x)
    requires s.namespaces == map[]
    ensures SameMatches(Css(lx, s, c), Xpath(lx, s, x), Some(c))
  {
  }

  /**
   * `text()` is the XPath query "text()" evaluated without namespace
   * bindings, recorded under the parent's expression followed by "/text()".
   */
  lemma TextIsTextQuery(lx: Engine, s: Selector)
    requires s.namespaces == map[]
    ensures SameMatches(Text(lx, s), Xpath(lx, s, "text()"), Some(ExprText(s.expr) + "/text()"))
    ensures Text(lx, s).Err? ==> Text(lx, s) == Xpath(lx, s, "text()")
  {
  }

  /**
   * The selector `attrib(name)` returns extracts the attribute's value: a
   * unicode value as it is, a byte value decoded leniently.
   */
  lemma AttribExtractsValue(lx: Engine, s: Selector, e: ElementId, name: string)
    requires s.node == Set(Element(e)) && s.doc.Set?
    requires name in lx.attributes(e)
    requires Truthy(lx, s) == Ok(true)
    ensures Attrib(lx, s, name).Ok?
    ensures lx.attributes(e)[name].Unicode? ==> Extract(lx, Attrib(lx, s, name).value) == Ok(lx.attributes(e)[name].text)
    ensures lx.attributes(e)[name].Bytes? ==> Extract(lx, Attrib(lx, s, name).value) == Ok(lx.decodeUtf8(lx.attributes(e)[name].bytes))
  {
  }

  /**
   * Constructing from the empty text takes none of the three branches: the
   * selector has neither document nor node, so it is neither true nor false
   * (asking raises) and querying it raises instead of finding nothing.
   */
  lemma EmptyTextHasNoNode(lx: Engine, expr: Option<string>, useHtml5: bool, useSoup: bool)
    ensures var r := Construct(lx, None, Some(""), NoneValue, None, expr, useHtml5, useSoup, map[]);
            r == Ok(Selector(Unset, Unset, expr, map[])) &&
            Truthy(lx, r.value) == Err(AttributeError("xmlNode")) &&
            forall q :: Xpath(lx, r.value, q) == Err(AttributeError("xmlNode"))
  {
  }

  /**
   * A selector built from a document, and every selector a query on it
   * derives, shares the document the parser produced.
   */
  lemma QueriesStayInDocument(lx: Engine, body: seq<byte>, root: ElementId, q: string)
    requires ParseOutcome(lx, body, false, false) == Ok(Some(root))
    requires Truthy(lx, Selector(Set(lx.rootTree(root)), Set(Element(root)), None, map[])) == Ok(true)
    ensures var r := Construct(lx, Some(Response(body)), None, NoneValue, None, None, false, false, map[]);
            r.Ok? && r.value.doc == Set(lx.rootTree(root)) &&
            var sub := Xpath(lx, r.value, q);
            sub.Ok? ==> forall i :: 0 <= i < |sub.value.items| ==> sub.value.items[i].sel.doc == Set(lx.rootTree(root))
  {
  }
}
