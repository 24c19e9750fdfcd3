/**
 * The few pieces of HTML markup that the theme fills with data: elements with
 * attributes (iframes, scripts, audio players, self-closed head tags) and links.
 * Rendering them as text is the markup library's business and is not modelled.
 */
module Markup {
  import opened Wrappers

  /**
   * An attribute as the theme writes it. Unless `ignoreIfEmpty` is switched
   * off, the markup library leaves an attribute whose value is empty out of
   * the rendered element.
   */
  datatype Attr = Attr(name: string, value: string, ignoreIfEmpty: bool := true)

  predicate Kept(a: Attr) {
    a.value != "" || !a.ignoreIfEmpty
  }

  /** An element given by its tag name and its attributes, in source order. */
  datatype Element = Element(name: string, attrs: seq<Attr>)

  /** An anchor `<a href=...>text</a>`. */
  datatype Link = Link(href: string, text: string)

  /** The value of the first attribute called `name`, if any. */
  function AttrValue(attrs: seq<Attr>, name: string): (r: Option<string>)
    ensures r.Some? <==> exists i :: 0 <= i < |attrs| && attrs[i].name == name
    ensures r.Some? ==> exists i :: 0 <= i < |attrs| && attrs[i].name == name && attrs[i].value == r.value
  {
    if |attrs| == 0 then None
    else if attrs[0].name == name then Some(attrs[0].value)
    else
      var r := AttrValue(attrs[1..], name);
      assert forall i :: 1 <= i < |attrs| ==> attrs[i] == attrs[1..][i - 1];
      r
  }

  /** The attributes that survive rendering, in order. */
  function Rendered(attrs: seq<Attr>): (r: seq<Attr>)
    ensures forall a :: a in r <==> a in attrs && Kept(a)
    ensures |r| <= |attrs|
  {
    if |attrs| == 0 then []
    else if Kept(attrs[0]) then [attrs[0]] + Rendered(attrs[1..])
    else Rendered(attrs[1..])
  }

  lemma AttrValueCons(a: Attr, rest: seq<Attr>, name: string)
    ensures AttrValue([a] + rest, name) == if a.name == name then Some(a.value) else AttrValue(rest, name)
  {
    assert ([a] + rest)[1..] == rest;
  }
}
