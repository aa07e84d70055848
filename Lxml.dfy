/**
 * The boundary between the selector layer and the libraries it calls:
 * lxml's parsers, serialiser and XPath engine, the CSS-to-XPath translator,
 * the runtime's UTF-8 codecs and scrapy's regex helper. None of these is
 * modelled; the selector layer receives them bundled in an `Engine` value,
 * so every property proved about the layer holds whatever they compute.
 */
module Lxml {

  newtype byte = x: int | 0 <= x < 256

  /** Identity of an lxml element (`etree._Element`). */
  type ElementId = nat

  /** Identity of an lxml document tree (`etree._ElementTree`). */
  type DocId = nat

  /** Prefix-to-URI bindings handed to XPath evaluation. */
  type Namespaces = map<string, string>

  datatype Option<T> = None | Some(value: T)

  /** A `__slots__` attribute: never assigned (reading it raises) or holding a value. */
  datatype Slot<T> = Unset | Set(value: T)

  /** The Python exceptions the layer raises or lets through. */
  datatype Error =
    | AttributeError(attribute: string)  // the object has no such attribute, or the slot is unset
    | TypeError                          // an argument of the wrong kind
    | KeyError(key: string)              // a missing dictionary key
    | LibraryError(detail: string)       // raised inside lxml, a parser or the CSS translator

  datatype Result<T> = Ok(value: T) | Err(error: Error)

  /**
   * What a selector can wrap: an element, or one of the scalars that an XPath
   * evaluation or an attribute lookup yields. Byte strings are lxml's
   * `_ElementStringResult`/`str`, unicode strings its `_ElementUnicodeResult`/`unicode`.
   */
  datatype Position =
    | Element(id: ElementId)
    | Bytes(bytes: seq<byte>)
    | Unicode(text: string)
    | Number(x: real)
    | Boolean(b: bool)
    | NoneValue

  /**
   * The value of an XPath evaluation: a list of matches (node-set results),
   * or a single non-iterable scalar (number, boolean, string results).
   */
  datatype XPathValue = NodeSet(matches: seq<Position>) | Scalar(scalar: Position)

  /** A parser backend: the root element it returns (possibly `None`), or what it raises. */
  type Parser = seq<byte> -> Result<Option<ElementId>>

  /** The foreign functions the selector layer calls, left uninterpreted. */
  datatype Engine = Engine(
    parseXml: Parser,                                           // etree.XML
    parseHtml: Parser,                                          // etree.HTML
    parseHtml5: Parser,                                         // html5parser.fromstring
    parseSoup: Parser,                                          // soupparser.fromstring
    rootTree: ElementId -> DocId,                               // element.getroottree()
    evalXPath: (ElementId, string, Namespaces) -> Result<XPathValue>,  // element.xpath(q, namespaces=ns)
    cssToXPath: string -> Result<string>,                       // compiling lxml's CSSSelector(css)
    attributes: ElementId -> map<string, Position>,             // element.attrib
    serialize: ElementId -> seq<byte>,                          // etree.tostring(element, encoding='utf-8')
    decodeUtf8: seq<byte> -> string,                            // unicode(b, 'utf-8', errors='ignore')
    encodeUtf8: string -> seq<byte>,                            // unicode_to_str(text)
    formatFloat: real -> string,                                // unicode(float)
    extractRegex: (string, string) -> Result<seq<string>>       // extract_regex(regex, text, 'utf-8'); raises on a bad pattern
  )
}
