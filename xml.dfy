/**
 * The part of an lxml element tree the responder uses: an element has a
 * qualified tag, an attribute map, an ordered list of children and an
 * optional text. Creating a sub-element appends a new child at the end.
 */
module Xml {
  import opened Wrappers

  datatype Element = Element(tag: string, attrs: map<string, string>, children: seq<Element>, text: Option<string>)

  /** A fresh element with no attributes, children or text (`Element(tag)` / `SubElement(parent, tag)`). */
  function Empty(tag: string): (e: Element)
    ensures e.tag == tag && e.attrs == map[] && e.children == [] && e.text == None
  {
    Element(tag, map[], [], None)
  }

  /** A fresh sub-element whose text was then set: `e = SubElement(p, tag); e.text = t`. */
  function Leaf(tag: string, t: string): (e: Element)
    ensures e.tag == tag && e.attrs == map[] && e.children == [] && e.text == Some(t)
  {
    Element(tag, map[], [], Some(t))
  }

  /** `parent` after `child` was appended as its last sub-element; nothing else of it changes. */
  function Append(parent: Element, child: Element): (p: Element)
    ensures p.tag == parent.tag && p.attrs == parent.attrs && p.text == parent.text
    ensures p.children == parent.children + [child]
  {
    parent.(children := parent.children + [child])
  }

  /** One leaf per value, in the order of the values. */
  function Leaves(tag: string, values: seq<string>): (r: seq<Element>)
    ensures |r| == |values|
    ensures forall i :: 0 <= i < |values| ==> r[i] == Leaf(tag, values[i])
  {
    seq(|values|, i requires 0 <= i < |values| => Leaf(tag, values[i]))
  }

  /**
   * `for v in values: e = SubElement(parent, tag); e.text = v`: one leaf per
   * value is appended to `parent`, in the order of the values.
   */
  method AppendLeaves(parent: Element, tag: string, values: seq<string>) returns (p: Element)
    ensures p == parent.(children := parent.children + Leaves(tag, values))
  {
    p := parent;
    for i := 0 to |values|
      invariant p == parent.(children := parent.children + Leaves(tag, values[..i]))
    {
      assert Leaves(tag, values[..i + 1]) == Leaves(tag, values[..i]) + [Leaf(tag, values[i])];
      p := Append(p, Leaf(tag, values[i]));
    }
    assert values[..|values|] == values;
  }

  /** The elements of `s` whose tag is `tag`, in order. */
  function Named(s: seq<Element>, tag: string): (r: seq<Element>)
    ensures |r| <= |s|
    ensures forall e :: e in r ==> e in s && e.tag == tag
  {
    if s == [] then []
    else (if s[0].tag == tag then [s[0]] else []) + Named(s[1..], tag)
  }

  lemma {:induction false} NamedAppend(a: seq<Element>, b: seq<Element>, tag: string)
    ensures Named(a + b, tag) == Named(a, tag) + Named(b, tag)
  {
    if a == [] {
      assert a + b == b;
    } else {
      assert (a + b)[0] == a[0];
      assert (a + b)[1..] == a[1..] + b;
      NamedAppend(a[1..], b, tag);
    }
  }

  /** Picking the leaves of a tag out of a run of such leaves gives them all back. */
  lemma {:induction false} NamedLeavesSame(tag: string, values: seq<string>)
    ensures Named(Leaves(tag, values), tag) == Leaves(tag, values)
  {
    if values != [] {
      assert Leaves(tag, values)[1..] == Leaves(tag, values[1..]);
      NamedLeavesSame(tag, values[1..]);
    }
  }

  /** Leaves of one tag contribute nothing when another tag is picked out. */
  lemma {:induction false} NamedLeavesOther(tag: string, other: string, values: seq<string>)
    requires tag != other
    ensures Named(Leaves(other, values), tag) == []
  {
    if values != [] {
      assert Leaves(other, values)[1..] == Leaves(other, values[1..]);
      NamedLeavesOther(tag, other, values[1..]);
    }
  }

  /** A sequence none of whose elements carries `tag` has nothing to pick out. */
  lemma {:induction false} NamedNone(s: seq<Element>, tag: string)
    requires forall i :: 0 <= i < |s| ==> s[i].tag != tag
    ensures Named(s, tag) == []
  {
    if s != [] {
      NamedNone(s[1..], tag);
    }
  }
}
