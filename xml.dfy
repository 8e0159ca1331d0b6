/** The already-parsed XML document that the dialogue loader walks (System.Xml.Linq seen as data). */
module Xml {
  import opened Wrappers

  /** An XElement: its name, its attributes in document order, its child elements in document order,
      and its `Value` (the concatenated text of its descendants, as the parser computed it). */
  datatype Element = Element(name: string, attributes: seq<(string, string)>, children: seq<Element>, value: string)

  /** The outcome of XDocument.Load: the root element, or the exception it threw (missing file, bad XML). */
  datatype Document = LoadFailed | Loaded(root: Element)

  /** XElement.Attribute(name): the first attribute with that name, if any. */
  function Attribute(e: Element, name: string): (r: Option<string>)
    ensures r.None? <==> forall i :: 0 <= i < |e.attributes| ==> e.attributes[i].0 != name
    ensures r.Some? ==> exists i :: 0 <= i < |e.attributes| && e.attributes[i] == (name, r.value)
  {
    FirstValue(e.attributes, name)
  }

  function FirstValue(pairs: seq<(string, string)>, name: string): (r: Option<string>)
    ensures r.None? <==> forall i :: 0 <= i < |pairs| ==> pairs[i].0 != name
    ensures r.Some? ==> exists i :: 0 <= i < |pairs| && pairs[i] == (name, r.value)
  {
    if pairs == [] then None
    else if pairs[0].0 == name then Some(pairs[0].1)
    else FirstValue(pairs[1..], name)
  }

  /** XElement.Element(name): the first child element with that name, if any. */
  function Child(e: Element, name: string): (r: Option<Element>)
    ensures r.None? <==> forall i :: 0 <= i < |e.children| ==> e.children[i].name != name
    ensures r.Some? ==> r.value.name == name && exists i :: 0 <= i < |e.children| && e.children[i] == r.value &&
                                                      forall j :: 0 <= j < i ==> e.children[j].name != name
  {
    FirstNamed(e.children, name)
  }

  function FirstNamed(es: seq<Element>, name: string): (r: Option<Element>)
    ensures r.None? <==> forall i :: 0 <= i < |es| ==> es[i].name != name
    ensures r.Some? ==> r.value.name == name && exists i :: 0 <= i < |es| && es[i] == r.value &&
                                                      forall j :: 0 <= j < i ==> es[j].name != name
  {
    if es == [] then None
    else if es[0].name == name then Some(es[0])
    else
      var r := FirstNamed(es[1..], name);
      if r.Some? then
        var i :| 0 <= i < |es[1..]| && es[1..][i] == r.value && forall j :: 0 <= j < i ==> es[1..][j].name != name;
        assert es[i + 1] == r.value && forall j :: 0 <= j < i + 1 ==> es[j].name != name;
        r
      else r
  }

  /** XElement.Elements(name): every child element with that name, in document order. */
  function Children(e: Element, name: string): (r: seq<Element>)
    ensures forall c :: c in r <==> c in e.children && c.name == name
  {
    Named(e.children, name)
  }

  function Named(es: seq<Element>, name: string): (r: seq<Element>)
    ensures forall c :: c in r <==> c in es && c.name == name
    ensures |r| <= |es|
  {
    if es == [] then []
    else if es[0].name == name then [es[0]] + Named(es[1..], name)
    else Named(es[1..], name)
  }

  /** Selecting by name keeps document order: the matches of two runs of siblings are the matches of
      each, concatenated. */
  lemma {:induction false} NamedAppend(xs: seq<Element>, ys: seq<Element>, name: string)
    ensures Named(xs + ys, name) == Named(xs, name) + Named(ys, name)
  {
    if xs == [] {
      assert xs + ys == ys;
    } else {
      assert (xs + ys)[0] == xs[0];
      assert (xs + ys)[1..] == xs[1..] + ys;
      NamedAppend(xs[1..], ys, name);
    }
  }

  /** One sibling contributes itself when its name matches and nothing otherwise, so every match
      appears once per occurrence. */
  lemma NamedSingle(e: Element, name: string)
    ensures Named([e], name) == if e.name == name then [e] else []
  {
  }

  /** Selecting by name keeps document order and multiplicity: after appending one sibling, the
      matches are the earlier matches followed by that sibling exactly when it matches. */
  lemma NamedSnoc(es: seq<Element>, e: Element, name: string)
    ensures Named(es + [e], name) == Named(es, name) + (if e.name == name then [e] else [])
  {
    NamedAppend(es, [e], name);
    NamedSingle(e, name);
  }
}
