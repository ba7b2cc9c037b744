/**
 * The parsed Synfig document as an element tree, with the lookups the
 * exporter performs on it. The parser itself is not part of this model.
 */
module Xml {
  import opened Errors

  /** An element: its tag, attributes, child elements in document order,
      the text before its first child and the text after its end tag.
      As in lxml, an empty text or tail is None: a parsed tree never
      holds `Some("")`. */
  datatype Element = Element(
    tag: string,
    attrib: map<string, string>,
    children: seq<Element>,
    text: Option<string>,
    tail: Option<string>)

  function OrEmpty(s: Option<string>): string
  {
    match s
    case None => ""
    case Some(t) => t
  }

  /** `''.join(e.itertext())`: the element's own text, then for every child
      its text recursively followed by that child's tail. */
  function IterText(e: Element): (r: string)
    ensures e.children == [] ==> r == OrEmpty(e.text)
    decreases e, 1
  {
    OrEmpty(e.text) + IterTextOf(e, 0)
  }

  /** The itertext contribution of the children of `e` from index `i` on. */
  function IterTextOf(e: Element, i: nat): (r: string)
    requires i <= |e.children|
    ensures i == |e.children| ==> r == ""
    decreases e, 0, |e.children| - i
  {
    if i == |e.children| then ""
    else IterText(e.children[i]) + OrEmpty(e.children[i].tail) + IterTextOf(e, i + 1)
  }

  /** `e[i]`: the i-th child, or IndexError. */
  function Child(e: Element, i: nat): (r: Result<Element>)
    ensures r.Ok? <==> i < |e.children|
    ensures r.Ok? ==> r.value == e.children[i]
    ensures r.Err? ==> r.error == IndexError
  {
    if i < |e.children| then Ok(e.children[i]) else Err(IndexError)
  }

  /** `e.attrib[key]`: the attribute's value, or KeyError. */
  function Attr(e: Element, key: string): (r: Result<string>)
    ensures r.Ok? <==> key in e.attrib
    ensures r.Ok? ==> r.value == e.attrib[key]
    ensures r.Err? ==> r.error == KeyError(key)
  {
    if key in e.attrib then Ok(e.attrib[key]) else Err(KeyError(key))
  }
}
