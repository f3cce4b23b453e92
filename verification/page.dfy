/**
 * An already-parsed HTML document, as far as the handlers look at it.
 * Selector matching itself is not modelled: every element carries, for
 * each selector the code applies to it, the matching descendants in
 * document order.
 */
module Page {
  import opened Wrappers
  import opened Strings

  /**
   * One element: its text nodes in document order, its text as the
   * broker's text-rendering helper produces it, its attributes, its inner
   * and outer HTML, and the matches of each selector applied to it.
   */
  datatype Element = Element(
    texts: seq<string>,
    rendered: string,
    attrs: map<string, string>,
    inner: string,
    outer: string,
    matches: map<string, seq<Element>>)

  /** `element.select(selector)`, in document order. */
  function Select(e: Element, selector: string): seq<Element>
  {
    if selector in e.matches then e.matches[selector] else []
  }

  /** `element.select(selector).next()`. */
  function First(e: Element, selector: string): Option<Element>
  {
    var found := Select(e, selector);
    if found == [] then None else Some(found[0])
  }

  /** `element.text().collect::<Vec<_>>().join("")`. */
  function Text(e: Element): string
  {
    Join(e.texts, "")
  }

  /** The texts of some cells as the broker's text-rendering helper produces them, in order. */
  function Rendered(cells: seq<Element>): (texts: seq<string>)
    ensures |texts| == |cells|
    ensures forall i | 0 <= i < |cells| :: texts[i] == cells[i].rendered
  {
    seq(|cells|, i requires 0 <= i < |cells| => cells[i].rendered)
  }

  /** Text with spaces, CRLF pairs and newlines removed, as the handlers clean values. */
  function CompactText(s: string): (t: string)
    ensures ' ' !in t && '\n' !in t
    ensures forall x | x in t :: x in s
  {
    var a := Remove(s, " ");
    var b := Remove(a, "\r\n");
    RemoveChar(s, ' ');
    RemoveAddsNothing(a, "\r\n");
    RemoveChar(b, '\n');
    Remove(b, "\n")
  }

  /** `element.value().attr(name)`. */
  function Attr(e: Element, name: string): Option<string>
  {
    if name in e.attrs then Some(e.attrs[name]) else None
  }

  /** `element.value().has_class(name, AsciiCaseInsensitive)`: some word of the class attribute matches. */
  predicate HasClass(e: Element, name: string)
  {
    "class" in e.attrs && exists w | w in SplitWhitespace(e.attrs["class"]) :: EqIgnoreAsciiCase(w, name)
  }
}
