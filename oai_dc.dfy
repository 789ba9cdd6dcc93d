/**
 * The default metadata writer: a record's field-to-values map rendered as
 * one `oai_dc:dc` element holding Dublin Core `dc:<field>` elements
 * (server.py lines 234-245).
 */
module OaiDc {
  import opened Wrappers
  import opened Namespaces
  import opened Xml

  /** What `metadata.getMap()` returns: each field name with its ordered list of values. */
  type Metadata = map<string, seq<string>>

  /** The fifteen Dublin Core fields, in the order the writer emits them. */
  const DC_NAMES: seq<string> := [
    "title", "creator", "subject", "description", "publisher",
    "contributor", "date", "type", "format", "identifier",
    "source", "language", "relation", "coverage", "rights"]

  /** The `xsi:schemaLocation` value set on `oai_dc:dc`, exactly as the writer builds it. */
  const DC_SCHEMA_LOCATION: string := NS_DC + " http://www.openarchives.org/OAI/2.0/oai_dc.xsd"

  /** `map.get(name, [])`: the values of a field, none when the field is absent. */
  function Values(md: Metadata, name: string): (vs: seq<string>)
    ensures name in md ==> vs == md[name]
    ensures name !in md ==> vs == []
  {
    if name in md then md[name] else []
  }

  predicate Distinct(names: seq<string>)
  {
    forall i, j :: 0 <= i < j < |names| ==> names[i] != names[j]
  }

  /** The `dc:` children for the fields `names`, field by field, each field's values in order. */
  function DcChildren(md: Metadata, names: seq<string>): seq<Element>
  {
    if names == [] then []
    else
      var last := names[|names| - 1];
      DcChildren(md, names[..|names| - 1]) + Leaves(Nsdc(last), Values(md, last))
  }

  /** The element the writer appends. */
  function DcElement(md: Metadata): Element
  {
    Element(Nsoaidc("dc"), map[SCHEMA_LOCATION_ATTR := DC_SCHEMA_LOCATION], DcChildren(md, DC_NAMES), None)
  }

  /** Writing one more field appends that field's values to the children written so far. */
  lemma DcChildrenStep(md: Metadata, names: seq<string>, i: nat)
    requires i < |names|
    ensures DcChildren(md, names[..i + 1]) == DcChildren(md, names[..i]) + Leaves(Nsdc(names[i]), Values(md, names[i]))
  {
    assert names[..i + 1][..i] == names[..i];
  }

  /** How many values the fields `names` hold in all. */
  function TotalValues(md: Metadata, names: seq<string>): nat
  {
    if names == [] then 0
    else TotalValues(md, names[..|names| - 1]) + |Values(md, names[|names| - 1])|
  }

  /** `oai_dc_writer(element, metadata)`: appends one `oai_dc:dc` element to `element`. */
  method OaiDcWriter(element: Element, md: Metadata) returns (r: Element)
    ensures r == Append(element, DcElement(md))
  {
    var dc := Empty(Nsoaidc("dc"));
    dc := dc.(attrs := dc.attrs[SCHEMA_LOCATION_ATTR := DC_SCHEMA_LOCATION]);
    for i := 0 to |DC_NAMES|
      invariant dc == Element(Nsoaidc("dc"), map[SCHEMA_LOCATION_ATTR := DC_SCHEMA_LOCATION],
                              DcChildren(md, DC_NAMES[..i]), None)
    {
      dc := AppendLeaves(dc, Nsdc(DC_NAMES[i]), Values(md, DC_NAMES[i]));
      DcChildrenStep(md, DC_NAMES, i);
    }
    assert DC_NAMES[..|DC_NAMES|] == DC_NAMES;
    r := Append(element, dc);
  }

  /** The number of `dc:` children is the number of values of the fields written. */
  lemma {:induction false} DcChildCount(md: Metadata, names: seq<string>)
    ensures |DcChildren(md, names)| == TotalValues(md, names)
  {
    if names != [] {
      DcChildCount(md, names[..|names| - 1]);
    }
  }

  /**
   * Picking out the `dc:<n>` children gives one element per value of field `n`,
   * in the map's order, when `n` is one of the written fields, and none otherwise.
   */
  lemma {:induction false} DcNamedChildren(md: Metadata, names: seq<string>, n: string)
    requires Distinct(names)
    ensures Named(DcChildren(md, names), Nsdc(n)) == if n in names then Leaves(Nsdc(n), Values(md, n)) else []
  {
    if names != [] {
      var init, last := names[..|names| - 1], names[|names| - 1];
      assert names == init + [last];
      DcNamedChildren(md, init, n);
      NamedAppend(DcChildren(md, init), Leaves(Nsdc(last), Values(md, last)), Nsdc(n));
      if n == last {
        assert n !in init;
        NamedLeavesSame(Nsdc(n), Values(md, n));
      } else {
        QualifiedInjective(NS_DC, n, last);
        NamedLeavesOther(Nsdc(n), Nsdc(last), Values(md, last));
      }
    }
  }

  /** Keys outside the written fields play no part: two maps that agree on them render alike. */
  lemma {:induction false} DcChildrenIgnoreOtherKeys(md: Metadata, md': Metadata, names: seq<string>)
    requires forall n :: n in names ==> Values(md, n) == Values(md', n)
    ensures DcChildren(md, names) == DcChildren(md', names)
  {
    if names != [] {
      DcChildrenIgnoreOtherKeys(md, md', names[..|names| - 1]);
    }
  }

  /** Fields without values at the end of the list contribute nothing. */
  lemma {:induction false} DcChildrenAbsentTail(md: Metadata, names: seq<string>, k: nat)
    requires k <= |names|
    requires forall j :: k <= j < |names| ==> Values(md, names[j]) == []
    ensures DcChildren(md, names) == DcChildren(md, names[..k])
  {
    if k < |names| {
      var init := names[..|names| - 1];
      assert init[..k] == names[..k];
      DcChildrenAbsentTail(md, init, k);
    } else {
      assert names[..k] == names;
    }
  }

  /** Rendering a list of fields is rendering its two halves one after the other. */
  lemma {:induction false} DcChildrenConcat(md: Metadata, a: seq<string>, b: seq<string>)
    ensures DcChildren(md, a + b) == DcChildren(md, a) + DcChildren(md, b)
  {
    if b == [] {
      assert a + b == a;
    } else {
      var init := b[..|b| - 1];
      assert (a + b)[..|a + b| - 1] == a + init;
      DcChildrenConcat(md, a, init);
    }
  }

  /** A field without values contributes nothing, wherever it stands in the list. */
  lemma DcChildrenAbsentField(md: Metadata, names: seq<string>, i: nat)
    requires i < |names| && Values(md, names[i]) == []
    ensures DcChildren(md, names) == DcChildren(md, names[..i] + names[i + 1..])
  {
    var before, n, after := names[..i], names[i], names[i + 1..];
    assert names == before + [n] + after;
    assert DcChildren(md, [n]) == [] by {
      assert [n][..0] == [];
      assert Leaves(Nsdc(n), Values(md, n)) == [];
    }
    DcChildrenConcat(md, before, [n]);
    DcChildrenConcat(md, before + [n], after);
    DcChildrenConcat(md, before, after);
  }

  /** The `oai_dc:dc` element has the fixed schema location and one child per value of the fifteen fields. */
  lemma DcElementShape(md: Metadata)
    ensures DcElement(md).tag == Nsoaidc("dc") && DcElement(md).text == None
    ensures DcElement(md).attrs == map[SCHEMA_LOCATION_ATTR := DC_SCHEMA_LOCATION]
    ensures |DcElement(md).children| == TotalValues(md, DC_NAMES)
    ensures forall n :: n in DC_NAMES ==> Named(DcElement(md).children, Nsdc(n)) == Leaves(Nsdc(n), Values(md, n))
    ensures forall n :: n !in DC_NAMES ==> Named(DcElement(md).children, Nsdc(n)) == []
  {
    DcChildCount(md, DC_NAMES);
    forall n {
      DcNamedChildren(md, DC_NAMES, n);
    }
  }

  /** A record with a title and two creators, plus a key outside the fifteen fields. */
  const EXAMPLE: Metadata := map["creator" := ["B", "C"], "title" := ["A"], "x-local" := ["ignored"]]

  /** The example has values only for the first two of the fifteen fields. */
  lemma ExampleFields()
    ensures DC_NAMES[..2] == ["title", "creator"]
    ensures forall j :: 2 <= j < |DC_NAMES| ==> Values(EXAMPLE, DC_NAMES[j]) == []
  {
  }

  /** The example renders as the title, then both creators in order; `x-local` is dropped. */
  lemma DcExample()
    ensures DcElement(EXAMPLE).children == [Leaf(Nsdc("title"), "A"), Leaf(Nsdc("creator"), "B"), Leaf(Nsdc("creator"), "C")]
  {
    ExampleFields();
    DcChildrenAbsentTail(EXAMPLE, DC_NAMES, 2);
    assert ["title", "creator"][..1] == ["title"];
    assert ["title"][..0] == [];
    assert Leaves(Nsdc("creator"), ["B", "C"]) == [Leaf(Nsdc("creator"), "B"), Leaf(Nsdc("creator"), "C")];
  }
}
