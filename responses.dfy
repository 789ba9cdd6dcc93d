/**
 * What an OAI-PMH response document is: the data the backend supplies and,
 * for each verb, the element tree the responder builds from it
 * (server.py lines 82-219). The builders in TreeServer are proved to
 * produce exactly these trees; the lemmas here state what the trees hold.
 */
module Responses {
  import opened Wrappers
  import opened Namespaces
  import opened Xml
  import opened OaiDc

  // ---------------------------------------------------------------------------
  // Backend data
  // ---------------------------------------------------------------------------

  datatype DateTime = DateTime(year: int, month: nat, day: nat, hour: nat, minute: nat, second: nat, microsecond: nat)

  /** `d.replace(microsecond=0)`: the same instant, truncated to whole seconds. */
  function WholeSeconds(d: DateTime): (r: DateTime)
    ensures r.microsecond == 0
    ensures r.(microsecond := d.microsecond) == d
  {
    d.(microsecond := 0)
  }

  /** The datestamp formatter `common.datetime_to_datestamp`, whose code is not part of this model. */
  type Formatter = DateTime -> string

  /** What the backend's `identify()` returns. */
  datatype Identity = Identity(
    repositoryName: string,
    baseURL: string,
    protocolVersion: string,
    adminEmails: seq<string>,
    earliestDatestamp: DateTime,
    deletedRecord: string,
    granularity: string,
    compression: seq<string>)

  datatype Header = Header(identifier: string, datestamp: DateTime, setSpec: seq<string>)

  /** One `(metadataPrefix, schema, metadataNamespace)` triple from `listMetadataFormats`. */
  datatype FormatDescriptor = FormatDescriptor(metadataPrefix: string, schema: string, metadataNamespace: string)

  /** One `(header, metadata, about)` triple from `listRecords`; the responder never looks at `about`. */
  datatype RecordTriple = RecordTriple(header: Header, metadata: Metadata, about: Option<Element>)

  /** The keyword arguments passed to a backend listing call. */
  type Query = map<string, string>

  /** The object conforming to the server API that the responder queries. */
  datatype Backend = Backend(
    identify: Identity,
    listIdentifiers: Query -> seq<Header>,
    listMetadataFormats: Query -> seq<FormatDescriptor>,
    listRecords: Query -> seq<RecordTriple>)

  /** A metadata writer: the elements it appends under the `metadata` element for a record. */
  type Writer = Metadata -> seq<Element>

  /** The metadata registry: a writer per metadata prefix. */
  type Registry = map<string, Writer>

  /** `registry.writeMetadata(prefix, ...)`: the fragment of the prefix's writer, or failure for an unregistered prefix. */
  function WriteMetadata(registry: Registry, prefix: string, md: Metadata): (r: Option<seq<Element>>)
    ensures r.Some? <==> prefix in registry
    ensures r.Some? ==> r.value == registry[prefix](md)
  {
    if prefix in registry then Some(registry[prefix](md)) else None
  }

  // ---------------------------------------------------------------------------
  // The envelope and the `request` element
  // ---------------------------------------------------------------------------

  /** The keyword arguments of `_outputEnvelope`, in the order they are iterated. */
  type KwArgs = seq<(string, Option<string>)>

  /** The attribute name an argument is echoed under: `from_` becomes `from`. */
  function RequestKey(key: string): (k: string)
    ensures key == "from_" ==> k == "from"
    ensures key != "from_" ==> k == key
  {
    if key == "from_" then "from" else key
  }

  /** One step of the attribute loop: a present argument sets its attribute, an absent one does nothing. */
  function SetAttr(attrs: map<string, string>, arg: (string, Option<string>)): map<string, string>
  {
    if arg.1.Some? then attrs[RequestKey(arg.0) := arg.1.value] else attrs
  }

  /** The attribute loop run over `kw`, starting from `attrs`. */
  function SetAttrs(attrs: map<string, string>, kw: KwArgs): map<string, string>
    decreases kw
  {
    if kw == [] then attrs else SetAttrs(SetAttr(attrs, kw[0]), kw[1..])
  }

  /** The attributes of `request`. */
  function RequestAttrs(kw: KwArgs): map<string, string>
  {
    SetAttrs(map[], kw)
  }

  /** The attribute names of the arguments that are present. */
  function PresentKeys(kw: KwArgs): set<string>
  {
    if kw == [] then {}
    else (if kw[0].1.Some? then {RequestKey(kw[0].0)} else {}) + PresentKeys(kw[1..])
  }

  lemma {:induction false} PresentKeysMember(kw: KwArgs, i: nat)
    requires i < |kw| && kw[i].1.Some?
    ensures RequestKey(kw[i].0) in PresentKeys(kw)
  {
    if i > 0 {
      assert kw[1..][i - 1] == kw[i];
      PresentKeysMember(kw[1..], i - 1);
    }
  }

  lemma {:induction false} PresentKeysWitness(kw: KwArgs, k: string) returns (i: nat)
    requires k in PresentKeys(kw)
    ensures i < |kw| && kw[i].1.Some? && RequestKey(kw[i].0) == k
  {
    if kw[0].1.Some? && RequestKey(kw[0].0) == k {
      i := 0;
    } else {
      var j := PresentKeysWitness(kw[1..], k);
      i := j + 1;
    }
  }

  lemma {:induction false} SetAttrsKeys(attrs: map<string, string>, kw: KwArgs)
    ensures SetAttrs(attrs, kw).Keys == attrs.Keys + PresentKeys(kw)
    decreases kw
  {
    if kw != [] {
      SetAttrsKeys(SetAttr(attrs, kw[0]), kw[1..]);
    }
  }

  lemma {:induction false} SetAttrsKeep(attrs: map<string, string>, kw: KwArgs, k: string)
    requires k in attrs && k !in PresentKeys(kw)
    ensures k in SetAttrs(attrs, kw) && SetAttrs(attrs, kw)[k] == attrs[k]
    decreases kw
  {
    if kw != [] {
      SetAttrsKeep(SetAttr(attrs, kw[0]), kw[1..], k);
    }
  }

  /** An argument no later argument overrides is echoed with its value unchanged. */
  lemma {:induction false} SetAttrsValue(attrs: map<string, string>, kw: KwArgs, i: nat)
    requires i < |kw| && kw[i].1.Some?
    requires forall j :: i < j < |kw| && kw[j].1.Some? ==> RequestKey(kw[j].0) != RequestKey(kw[i].0)
    ensures RequestKey(kw[i].0) in SetAttrs(attrs, kw)
    ensures SetAttrs(attrs, kw)[RequestKey(kw[i].0)] == kw[i].1.value
    decreases kw
  {
    if i == 0 {
      var k := RequestKey(kw[0].0);
      if k in PresentKeys(kw[1..]) {
        var j := PresentKeysWitness(kw[1..], k);
        assert false;
      }
      SetAttrsKeep(SetAttr(attrs, kw[0]), kw[1..], k);
    } else {
      forall j | i - 1 < j < |kw[1..]| && kw[1..][j].1.Some?
        ensures RequestKey(kw[1..][j].0) != RequestKey(kw[1..][i - 1].0)
      {
        assert kw[1..][j] == kw[j + 1];
      }
      SetAttrsValue(SetAttr(attrs, kw[0]), kw[1..], i - 1);
    }
  }

  /** The `request` attributes are named by the arguments that are not None, `from_` as `from`. */
  lemma RequestAttrNames(kw: KwArgs)
    ensures RequestAttrs(kw).Keys == PresentKeys(kw)
  {
    SetAttrsKeys(map[], kw);
  }

  /** When no two arguments share a name, each argument that is not None is echoed with its value. */
  lemma RequestAttrValues(kw: KwArgs)
    requires forall i, j :: 0 <= i < j < |kw| ==> RequestKey(kw[i].0) != RequestKey(kw[j].0)
    ensures forall i :: 0 <= i < |kw| && kw[i].1.Some? ==>
              RequestKey(kw[i].0) in RequestAttrs(kw) && RequestAttrs(kw)[RequestKey(kw[i].0)] == kw[i].1.value
  {
    forall i | 0 <= i < |kw| && kw[i].1.Some?
      ensures RequestKey(kw[i].0) in RequestAttrs(kw) && RequestAttrs(kw)[RequestKey(kw[i].0)] == kw[i].1.value
    {
      SetAttrsValue(map[], kw, i);
    }
  }

  const OAI_SCHEMA_LOCATION: string :=
    "http://www.openarchives.org/OAI/2.0/ http://www.openarchives.org/OAI/2.0/OAI-PMH.xsd"

  /** The root the envelope builds: `responseDate`, then `request` echoing the arguments. */
  function EnvelopeRoot(kw: KwArgs, date: string, baseURL: string): Element
  {
    Element(Nsoai("OAI-PMH"), map[SCHEMA_LOCATION_ATTR := OAI_SCHEMA_LOCATION],
            [Leaf(Nsoai("responseDate"), date), Element(Nsoai("request"), RequestAttrs(kw), [], Some(baseURL))],
            None)
  }

  /** `_outputEnvelope(**kw)` at time `now`. */
  function Envelope(b: Backend, fmt: Formatter, now: DateTime, kw: KwArgs): Element
  {
    EnvelopeRoot(kw, fmt(WholeSeconds(now)), b.identify.baseURL)
  }

  /**
   * A complete response: the root `OAI-PMH` with the fixed schema location,
   * and exactly three children, `responseDate`, `request` (with attributes
   * `attrs` and the base URL as text) and the verb element `body`.
   */
  predicate IsResponse(doc: Element, attrs: map<string, string>, date: string, baseURL: string, body: Element)
  {
    && doc.tag == Nsoai("OAI-PMH")
    && doc.attrs == map[SCHEMA_LOCATION_ATTR := OAI_SCHEMA_LOCATION]
    && doc.text == None
    && doc.children == [Leaf(Nsoai("responseDate"), date), Element(Nsoai("request"), attrs, [], Some(baseURL)), body]
  }

  /** `m` with `key` set to the value when there is one. */
  function WithArg(m: map<string, string>, key: string, v: Option<string>): (r: map<string, string>)
    ensures r.Keys == if v.Some? then m.Keys + {key} else m.Keys
    ensures forall k :: k in m && k != key ==> r[k] == m[k]
    ensures v.Some? ==> r[key] == v.value
  {
    if v.Some? then m[key := v.value] else m
  }

  /** The attributes of `request` for the two listing verbs. */
  function ListAttrs(verb: string, prefix: string, from: Option<string>, until: Option<string>,
                     setSpec: Option<string>, token: Option<string>): map<string, string>
  {
    WithArg(WithArg(WithArg(WithArg(map["verb" := verb, "metadataPrefix" := prefix],
      "from", from), "until", until), "set", setSpec), "resumptionToken", token)
  }

  /** `_outputEnvelope`'s arguments in ListIdentifiers (server.py lines 113-116). */
  function ListIdentifiersKw(prefix: string, from: Option<string>, until: Option<string>,
                             setSpec: Option<string>, token: Option<string>): KwArgs
  {
    [("verb", Some("ListIdentifiers")), ("from_", from), ("metadataPrefix", Some(prefix)),
     ("until", until), ("set", setSpec), ("resumptionToken", token)]
  }

  /** `_outputEnvelope`'s arguments in ListRecords (server.py lines 160-165). */
  function ListRecordsKw(prefix: string, from: Option<string>, until: Option<string>,
                         setSpec: Option<string>, token: Option<string>): KwArgs
  {
    [("verb", Some("ListRecords")), ("metadataPrefix", Some(prefix)), ("from_", from),
     ("until", until), ("set", setSpec), ("resumptionToken", token)]
  }

  /** The attribute loop over six arguments is six attribute steps. */
  lemma SetAttrsSix(attrs: map<string, string>, kw: KwArgs)
    requires |kw| == 6
    ensures SetAttrs(attrs, kw)
         == SetAttr(SetAttr(SetAttr(SetAttr(SetAttr(SetAttr(attrs, kw[0]), kw[1]), kw[2]), kw[3]), kw[4]), kw[5])
  {
    var m1 := SetAttr(attrs, kw[0]);
    var m2 := SetAttr(m1, kw[1]);
    var m3 := SetAttr(m2, kw[2]);
    var m4 := SetAttr(m3, kw[3]);
    var m5 := SetAttr(m4, kw[4]);
    assert kw[1..][1..] == kw[2..];
    assert kw[2..][1..] == kw[3..];
    assert kw[3..][1..] == kw[4..];
    assert kw[4..][1..] == kw[5..];
    assert kw[5..][1..] == [];
    calc {
      SetAttrs(attrs, kw);
      SetAttrs(m1, kw[1..]);
      SetAttrs(m2, kw[2..]);
      SetAttrs(m3, kw[3..]);
      SetAttrs(m4, kw[4..]);
      SetAttrs(m5, kw[5..]);
      SetAttrs(SetAttr(m5, kw[5]), []);
    }
  }

  /**
   * ListIdentifiers echoes `verb`, `metadataPrefix` and exactly those of
   * `from_` (as `from`), `until`, `set`, `resumptionToken` that are not None.
   */
  lemma ListIdentifiersRequestAttrs(prefix: string, from: Option<string>, until: Option<string>,
                                    setSpec: Option<string>, token: Option<string>)
    ensures RequestAttrs(ListIdentifiersKw(prefix, from, until, setSpec, token))
         == ListAttrs("ListIdentifiers", prefix, from, until, setSpec, token)
  {
    SetAttrsSix(map[], ListIdentifiersKw(prefix, from, until, setSpec, token));
    WithArgCommutes(map["verb" := "ListIdentifiers"], "from", from, "metadataPrefix", prefix);
  }

  /** Setting two different attributes in either order gives the same attributes. */
  lemma WithArgCommutes(m: map<string, string>, key: string, v: Option<string>, key': string, v': string)
    requires key != key'
    ensures WithArg(m, key, v)[key' := v'] == WithArg(m[key' := v'], key, v)
  {
  }

  /** ListRecords echoes the same attributes as ListIdentifiers, with its own verb. */
  lemma ListRecordsRequestAttrs(prefix: string, from: Option<string>, until: Option<string>,
                                setSpec: Option<string>, token: Option<string>)
    ensures RequestAttrs(ListRecordsKw(prefix, from, until, setSpec, token))
         == ListAttrs("ListRecords", prefix, from, until, setSpec, token)
  {
    SetAttrsSix(map[], ListRecordsKw(prefix, from, until, setSpec, token));
  }

  /** The one-attribute `request` of Identify. */
  lemma {:induction false} SingleArgAttrs(key: string, v: Option<string>)
    ensures RequestAttrs([(key, v)]) == WithArg(map[], RequestKey(key), v)
  {
    assert [(key, v)][1..] == [];
    assert RequestAttrs([(key, v)]) == SetAttrs(SetAttr(map[], (key, v)), []);
  }

  /** The two `request` attributes of ListMetadataFormats. */
  lemma {:induction false} TwoArgAttrs(k0: string, v0: Option<string>, k1: string, v1: Option<string>)
    ensures RequestAttrs([(k0, v0), (k1, v1)]) == WithArg(WithArg(map[], RequestKey(k0), v0), RequestKey(k1), v1)
  {
    var kw := [(k0, v0), (k1, v1)];
    assert kw[1..] == [(k1, v1)];
    assert kw[1..][1..] == [];
    var m := SetAttr(map[], (k0, v0));
    assert RequestAttrs(kw) == SetAttrs(m, [(k1, v1)]);
    assert SetAttrs(m, [(k1, v1)]) == SetAttrs(SetAttr(m, (k1, v1)), []);
  }

  // ---------------------------------------------------------------------------
  // Identify (server.py lines 82-109)
  // ---------------------------------------------------------------------------

  /** The `compression` children: none when the list is exactly `["identity"]`, else one per entry. */
  function Compressions(compression: seq<string>): seq<Element>
  {
    if compression != ["identity"] then Leaves(Nsoai("compression"), compression) else []
  }

  function IdentifyChildren(id: Identity, fmt: Formatter): seq<Element>
  {
    IdentifyHead(id) + Leaves(Nsoai("adminEmail"), id.adminEmails) + IdentifyTail(id, fmt) + Compressions(id.compression)
  }

  function IdentifyElement(id: Identity, fmt: Formatter): Element
  {
    Element(Nsoai("Identify"), map[], IdentifyChildren(id, fmt), None)
  }

  /** The document `identify()` returns. */
  function IdentifyDoc(b: Backend, fmt: Formatter, now: DateTime): Element
  {
    Append(Envelope(b, fmt, now, [("verb", Some("Identify"))]), IdentifyElement(b.identify, fmt))
  }

  /** Identify's response echoes only `verb` and carries the Identify element last. */
  lemma IdentifyResponse(b: Backend, fmt: Formatter, now: DateTime)
    ensures IsResponse(IdentifyDoc(b, fmt, now), map["verb" := "Identify"], fmt(WholeSeconds(now)),
                       b.identify.baseURL, IdentifyElement(b.identify, fmt))
  {
  }

  /**
   * The Identify children in their fixed order: repositoryName, baseURL,
   * protocolVersion, one adminEmail per address, earliestDatestamp,
   * deletedRecord, granularity, then the compression children.
   */
  lemma IdentifyLayout(id: Identity, fmt: Formatter)
    ensures var c := IdentifyChildren(id, fmt);
            var n := |id.adminEmails|;
            && |c| == 6 + n + |Compressions(id.compression)|
            && c[0] == Leaf(Nsoai("repositoryName"), id.repositoryName)
            && c[1] == Leaf(Nsoai("baseURL"), id.baseURL)
            && c[2] == Leaf(Nsoai("protocolVersion"), id.protocolVersion)
            && (forall i :: 0 <= i < n ==> c[3 + i] == Leaf(Nsoai("adminEmail"), id.adminEmails[i]))
            && c[3 + n] == Leaf(Nsoai("earliestDatestamp"), fmt(id.earliestDatestamp))
            && c[4 + n] == Leaf(Nsoai("deletedRecord"), id.deletedRecord)
            && c[5 + n] == Leaf(Nsoai("granularity"), id.granularity)
            && c[6 + n..] == Compressions(id.compression)
  {
  }

  function IdentifyHead(id: Identity): seq<Element>
  {
    [Leaf(Nsoai("repositoryName"), id.repositoryName),
     Leaf(Nsoai("baseURL"), id.baseURL),
     Leaf(Nsoai("protocolVersion"), id.protocolVersion)]
  }

  function IdentifyTail(id: Identity, fmt: Formatter): seq<Element>
  {
    [Leaf(Nsoai("earliestDatestamp"), fmt(id.earliestDatestamp)),
     Leaf(Nsoai("deletedRecord"), id.deletedRecord),
     Leaf(Nsoai("granularity"), id.granularity)]
  }

  /** Picking children of one tag out of Identify, part by part. */
  lemma IdentifyNamed(id: Identity, fmt: Formatter, tag: string)
    ensures Named(IdentifyChildren(id, fmt), tag)
         == Named(IdentifyHead(id), tag) + Named(Leaves(Nsoai("adminEmail"), id.adminEmails), tag)
            + Named(IdentifyTail(id, fmt), tag) + Named(Compressions(id.compression), tag)
  {
    var head, emails, tail := IdentifyHead(id), Leaves(Nsoai("adminEmail"), id.adminEmails), IdentifyTail(id, fmt);
    assert IdentifyChildren(id, fmt) == head + emails + tail + Compressions(id.compression);
    NamedAppend(head, emails, tag);
    NamedAppend(head + emails, tail, tag);
    NamedAppend(head + emails + tail, Compressions(id.compression), tag);
  }

  /** None of the fixed Identify children is a compression. */
  lemma IdentifyFixedNotCompression(id: Identity, fmt: Formatter)
    ensures Named(IdentifyHead(id), Nsoai("compression")) == [] && Named(IdentifyTail(id, fmt), Nsoai("compression")) == []
  {
    QualifiedInjective(NS_OAIPMH, "repositoryName", "compression");
    QualifiedInjective(NS_OAIPMH, "baseURL", "compression");
    QualifiedInjective(NS_OAIPMH, "protocolVersion", "compression");
    NamedNone(IdentifyHead(id), Nsoai("compression"));
    QualifiedInjective(NS_OAIPMH, "earliestDatestamp", "compression");
    QualifiedInjective(NS_OAIPMH, "deletedRecord", "compression");
    QualifiedInjective(NS_OAIPMH, "granularity", "compression");
    NamedNone(IdentifyTail(id, fmt), Nsoai("compression"));
  }

  /** None of the fixed Identify children is an adminEmail. */
  lemma IdentifyFixedNotAdminEmail(id: Identity, fmt: Formatter)
    ensures Named(IdentifyHead(id), Nsoai("adminEmail")) == [] && Named(IdentifyTail(id, fmt), Nsoai("adminEmail")) == []
  {
    QualifiedInjective(NS_OAIPMH, "repositoryName", "adminEmail");
    QualifiedInjective(NS_OAIPMH, "baseURL", "adminEmail");
    QualifiedInjective(NS_OAIPMH, "protocolVersion", "adminEmail");
    NamedNone(IdentifyHead(id), Nsoai("adminEmail"));
    QualifiedInjective(NS_OAIPMH, "earliestDatestamp", "adminEmail");
    QualifiedInjective(NS_OAIPMH, "deletedRecord", "adminEmail");
    QualifiedInjective(NS_OAIPMH, "granularity", "adminEmail");
    NamedNone(IdentifyTail(id, fmt), Nsoai("adminEmail"));
  }

  /**
   * The compression children are exactly the entries of the list, in order,
   * unless the list is exactly `["identity"]`; so there are none iff the list
   * is `["identity"]` or empty.
   */
  lemma IdentifyCompressions(id: Identity, fmt: Formatter)
    ensures Named(IdentifyChildren(id, fmt), Nsoai("compression")) == Compressions(id.compression)
    ensures |Compressions(id.compression)| == if id.compression == ["identity"] then 0 else |id.compression|
    ensures Compressions(id.compression) == [] <==> id.compression == ["identity"] || id.compression == []
    ensures id.compression != ["identity"] ==>
              forall i :: 0 <= i < |id.compression| ==> Compressions(id.compression)[i] == Leaf(Nsoai("compression"), id.compression[i])
  {
    var tag := Nsoai("compression");
    IdentifyNamed(id, fmt, tag);
    IdentifyFixedNotCompression(id, fmt);
    QualifiedInjective(NS_OAIPMH, "adminEmail", "compression");
    NamedLeavesOther(tag, Nsoai("adminEmail"), id.adminEmails);
    if id.compression != ["identity"] {
      NamedLeavesSame(tag, id.compression);
    }
  }

  /** One adminEmail child per address, in order, and no other. */
  lemma IdentifyAdminEmails(id: Identity, fmt: Formatter)
    ensures Named(IdentifyChildren(id, fmt), Nsoai("adminEmail")) == Leaves(Nsoai("adminEmail"), id.adminEmails)
  {
    var tag := Nsoai("adminEmail");
    IdentifyNamed(id, fmt, tag);
    IdentifyFixedNotAdminEmail(id, fmt);
    NamedLeavesSame(tag, id.adminEmails);
    if id.compression != ["identity"] {
      QualifiedInjective(NS_OAIPMH, "compression", "adminEmail");
      NamedLeavesOther(tag, Nsoai("compression"), id.compression);
    }
  }

  // ---------------------------------------------------------------------------
  // Headers (server.py lines 206-214)
  // ---------------------------------------------------------------------------

  function HeaderElement(h: Header, fmt: Formatter): Element
  {
    Element(Nsoai("header"), map[],
            [Leaf(Nsoai("identifier"), h.identifier), Leaf(Nsoai("datestamp"), fmt(h.datestamp))]
            + Leaves(Nsoai("setSpec"), h.setSpec),
            None)
  }

  /**
   * A header is `identifier`, then `datestamp`, then one `setSpec` per set in
   * the header's order, and nothing else.
   */
  lemma HeaderLayout(h: Header, fmt: Formatter)
    ensures var e := HeaderElement(h, fmt);
            && e.tag == Nsoai("header") && e.attrs == map[] && e.text == None
            && |e.children| == 2 + |h.setSpec|
            && e.children[0] == Leaf(Nsoai("identifier"), h.identifier)
            && e.children[1] == Leaf(Nsoai("datestamp"), fmt(h.datestamp))
            && Named(e.children, Nsoai("setSpec")) == Leaves(Nsoai("setSpec"), h.setSpec)
            && forall i :: 2 <= i < |e.children| ==> e.children[i] == Leaf(Nsoai("setSpec"), h.setSpec[i - 2])
  {
    var tag := Nsoai("setSpec");
    var head := [Leaf(Nsoai("identifier"), h.identifier), Leaf(Nsoai("datestamp"), fmt(h.datestamp))];
    assert head[0].tag != tag by { QualifiedInjective(NS_OAIPMH, "identifier", "setSpec"); }
    assert head[1].tag != tag by { QualifiedInjective(NS_OAIPMH, "datestamp", "setSpec"); }
    NamedNone(head, tag);
    NamedLeavesSame(tag, h.setSpec);
    NamedAppend(head, Leaves(tag, h.setSpec), tag);
  }

  /** A header in sets `a:b` and `a:c` has exactly those two setSpec children, in that order. */
  lemma HeaderSetSpecExample(identifier: string, datestamp: DateTime, fmt: Formatter)
    ensures Named(HeaderElement(Header(identifier, datestamp, ["a:b", "a:c"]), fmt).children, Nsoai("setSpec"))
         == [Leaf(Nsoai("setSpec"), "a:b"), Leaf(Nsoai("setSpec"), "a:c")]
  {
    HeaderLayout(Header(identifier, datestamp, ["a:b", "a:c"]), fmt);
  }

  function HeaderElements(hs: seq<Header>, fmt: Formatter): (r: seq<Element>)
    ensures |r| == |hs|
    ensures forall i :: 0 <= i < |hs| ==> r[i] == HeaderElement(hs[i], fmt)
  {
    seq(|hs|, i requires 0 <= i < |hs| => HeaderElement(hs[i], fmt))
  }

  // ---------------------------------------------------------------------------
  // ListIdentifiers (server.py lines 111-132)
  // ---------------------------------------------------------------------------

  /**
   * The keyword arguments of the backend listing calls: `metadataPrefix`
   * always, and each of `from_`, `until`, `set`, `resumptionToken` exactly
   * when it is not None, with its value unchanged.
   */
  function ListQuery(prefix: string, from: Option<string>, until: Option<string>,
                     setSpec: Option<string>, token: Option<string>): (q: Query)
    ensures q.Keys <= {"metadataPrefix", "from_", "until", "set", "resumptionToken"}
    ensures "metadataPrefix" in q && q["metadataPrefix"] == prefix
    ensures ("from_" in q <==> from.Some?) && (from.Some? ==> q["from_"] == from.value)
    ensures ("until" in q <==> until.Some?) && (until.Some? ==> q["until"] == until.value)
    ensures ("set" in q <==> setSpec.Some?) && (setSpec.Some? ==> q["set"] == setSpec.value)
    ensures ("resumptionToken" in q <==> token.Some?) && (token.Some? ==> q["resumptionToken"] == token.value)
  {
    WithArg(WithArg(WithArg(WithArg(map["metadataPrefix" := prefix],
      "from_", from), "until", until), "set", setSpec), "resumptionToken", token)
  }

  function ListIdentifiersElement(b: Backend, fmt: Formatter, prefix: string, from: Option<string>, until: Option<string>,
                                  setSpec: Option<string>, token: Option<string>): Element
  {
    Element(Nsoai("ListIdentifiers"), map[],
            HeaderElements(b.listIdentifiers(ListQuery(prefix, from, until, setSpec, token)), fmt), None)
  }

  /** The document `listIdentifiers(...)` returns. */
  function ListIdentifiersDoc(b: Backend, fmt: Formatter, now: DateTime, prefix: string, from: Option<string>,
                              until: Option<string>, setSpec: Option<string>, token: Option<string>): Element
  {
    Append(Envelope(b, fmt, now, ListIdentifiersKw(prefix, from, until, setSpec, token)),
           ListIdentifiersElement(b, fmt, prefix, from, until, setSpec, token))
  }

  /**
   * ListIdentifiers: the request echoes the non-None arguments, and the body
   * holds one header per header the backend returned for the query, in the
   * backend's order.
   */
  lemma ListIdentifiersResponse(b: Backend, fmt: Formatter, now: DateTime, prefix: string, from: Option<string>,
                                until: Option<string>, setSpec: Option<string>, token: Option<string>)
    ensures var body := ListIdentifiersElement(b, fmt, prefix, from, until, setSpec, token);
            var headers := b.listIdentifiers(ListQuery(prefix, from, until, setSpec, token));
            && IsResponse(ListIdentifiersDoc(b, fmt, now, prefix, from, until, setSpec, token),
                          ListAttrs("ListIdentifiers", prefix, from, until, setSpec, token),
                          fmt(WholeSeconds(now)), b.identify.baseURL, body)
            && body.tag == Nsoai("ListIdentifiers")
            && |body.children| == |headers|
            && forall i :: 0 <= i < |headers| ==> body.children[i] == HeaderElement(headers[i], fmt)
  {
    ListIdentifiersRequestAttrs(prefix, from, until, setSpec, token);
  }

  // ---------------------------------------------------------------------------
  // ListMetadataFormats (server.py lines 134-156)
  // ---------------------------------------------------------------------------

  /** The backend query of ListMetadataFormats: `identifier` when it is not None, nothing else. */
  function FormatsQuery(identifier: Option<string>): (q: Query)
    ensures q.Keys <= {"identifier"}
    ensures ("identifier" in q <==> identifier.Some?) && (identifier.Some? ==> q["identifier"] == identifier.value)
  {
    WithArg(map[], "identifier", identifier)
  }

  function FormatElement(f: FormatDescriptor): Element
  {
    Element(Nsoai("metadataFormat"), map[],
            [Leaf(Nsoai("metadataPrefix"), f.metadataPrefix),
             Leaf(Nsoai("schema"), f.schema),
             Leaf(Nsoai("metadataNamespace"), f.metadataNamespace)],
            None)
  }

  function FormatElements(fs: seq<FormatDescriptor>): (r: seq<Element>)
    ensures |r| == |fs|
    ensures forall i :: 0 <= i < |fs| ==> r[i] == FormatElement(fs[i])
  {
    seq(|fs|, i requires 0 <= i < |fs| => FormatElement(fs[i]))
  }

  function ListMetadataFormatsKw(identifier: Option<string>): KwArgs
  {
    [("verb", Some("ListMetadataFormats")), ("identifier", identifier)]
  }

  function ListMetadataFormatsElement(b: Backend, identifier: Option<string>): Element
  {
    Element(Nsoai("ListMetadataFormats"), map[], FormatElements(b.listMetadataFormats(FormatsQuery(identifier))), None)
  }

  /** The document `listMetadataFormats(...)` returns. */
  function ListMetadataFormatsDoc(b: Backend, fmt: Formatter, now: DateTime, identifier: Option<string>): Element
  {
    Append(Envelope(b, fmt, now, ListMetadataFormatsKw(identifier)), ListMetadataFormatsElement(b, identifier))
  }

  /**
   * ListMetadataFormats: the request echoes `verb` and `identifier` when given;
   * the body holds one metadataFormat per backend triple, in order, whose
   * three children carry the triple's prefix, schema and namespace.
   */
  lemma ListMetadataFormatsResponse(b: Backend, fmt: Formatter, now: DateTime, identifier: Option<string>)
    ensures var body := ListMetadataFormatsElement(b, identifier);
            var formats := b.listMetadataFormats(FormatsQuery(identifier));
            && IsResponse(ListMetadataFormatsDoc(b, fmt, now, identifier),
                          WithArg(map["verb" := "ListMetadataFormats"], "identifier", identifier),
                          fmt(WholeSeconds(now)), b.identify.baseURL, body)
            && body.tag == Nsoai("ListMetadataFormats")
            && |body.children| == |formats|
            && forall i :: 0 <= i < |formats| ==>
                 && body.children[i].tag == Nsoai("metadataFormat")
                 && body.children[i].children == [Leaf(Nsoai("metadataPrefix"), formats[i].metadataPrefix),
                                                  Leaf(Nsoai("schema"), formats[i].schema),
                                                  Leaf(Nsoai("metadataNamespace"), formats[i].metadataNamespace)]
  {
    TwoArgAttrs("verb", Some("ListMetadataFormats"), "identifier", identifier);
  }

  // ---------------------------------------------------------------------------
  // ListRecords (server.py lines 158-183, 216-219)
  // ---------------------------------------------------------------------------

  function MetadataElement(fragment: seq<Element>): Element
  {
    Element(Nsoai("metadata"), map[], fragment, None)
  }

  /** A `record`: its header, then a `metadata` element holding the writer's fragment. */
  function RecordElement(t: RecordTriple, fmt: Formatter, fragment: seq<Element>): Element
  {
    Element(Nsoai("record"), map[], [HeaderElement(t.header, fmt), MetadataElement(fragment)], None)
  }

  /** The records, one per triple, or failure as soon as a record's metadata cannot be written. */
  function RecordElements(ts: seq<RecordTriple>, prefix: string, registry: Registry, fmt: Formatter): Option<seq<Element>>
  {
    if ts == [] then Some([])
    else
      var last := ts[|ts| - 1];
      match RecordElements(ts[..|ts| - 1], prefix, registry, fmt)
      case None => None
      case Some(records) =>
        match WriteMetadata(registry, prefix, last.metadata)
        case None => None
        case Some(fragment) => Some(records + [RecordElement(last, fmt, fragment)])
  }

  /**
   * Writing the records fails exactly when there is a record and the prefix
   * has no writer; otherwise there is one record per triple, in order, each
   * holding the triple's header and the writer's fragment for its metadata.
   */
  lemma {:induction false} RecordElementsSpec(ts: seq<RecordTriple>, prefix: string, registry: Registry, fmt: Formatter)
    ensures RecordElements(ts, prefix, registry, fmt).None? <==> |ts| > 0 && prefix !in registry
    ensures RecordElements(ts, prefix, registry, fmt).Some? ==>
              var records := RecordElements(ts, prefix, registry, fmt).value;
              && |records| == |ts|
              && forall i :: 0 <= i < |ts| ==>
                   prefix in registry && records[i] == RecordElement(ts[i], fmt, registry[prefix](ts[i].metadata))
  {
    if ts != [] {
      var init := ts[..|ts| - 1];
      RecordElementsSpec(init, prefix, registry, fmt);
      if prefix in registry {
        var records := RecordElements(ts, prefix, registry, fmt).value;
        forall i | 0 <= i < |ts|
          ensures records[i] == RecordElement(ts[i], fmt, registry[prefix](ts[i].metadata))
        {
          if i < |ts| - 1 {
            assert init[i] == ts[i];
          }
        }
      }
    }
  }

  /** A record whose metadata can be written extends the records written so far by one. */
  lemma RecordElementsStep(ts: seq<RecordTriple>, i: nat, prefix: string, registry: Registry, fmt: Formatter,
                           records: seq<Element>)
    requires i < |ts| && prefix in registry
    requires RecordElements(ts[..i], prefix, registry, fmt) == Some(records)
    ensures RecordElements(ts[..i + 1], prefix, registry, fmt)
         == Some(records + [RecordElement(ts[i], fmt, registry[prefix](ts[i].metadata))])
  {
    assert ts[..i + 1][..i] == ts[..i];
  }

  function ListRecordsElement(records: seq<Element>): Element
  {
    Element(Nsoai("ListRecords"), map[], records, None)
  }

  /** The document `listRecords(...)` returns, or failure when a record's metadata cannot be written. */
  function ListRecordsDoc(b: Backend, registry: Registry, fmt: Formatter, now: DateTime, prefix: string,
                          from: Option<string>, until: Option<string>, setSpec: Option<string>,
                          token: Option<string>): Option<Element>
  {
    match RecordElements(b.listRecords(ListQuery(prefix, from, until, setSpec, token)), prefix, registry, fmt)
    case None => None
    case Some(records) =>
      Some(Append(Envelope(b, fmt, now, ListRecordsKw(prefix, from, until, setSpec, token)), ListRecordsElement(records)))
  }

  /**
   * ListRecords: no document iff the backend returned a record and the prefix
   * has no writer. Otherwise the request echoes the non-None arguments and the
   * body holds one record per backend triple, in order, each with exactly two
   * children: the header, then `metadata` with the writer's fragment.
   */
  lemma ListRecordsResponse(b: Backend, registry: Registry, fmt: Formatter, now: DateTime, prefix: string,
                            from: Option<string>, until: Option<string>, setSpec: Option<string>, token: Option<string>)
    ensures var doc := ListRecordsDoc(b, registry, fmt, now, prefix, from, until, setSpec, token);
            var ts := b.listRecords(ListQuery(prefix, from, until, setSpec, token));
            && (doc.None? <==> |ts| > 0 && prefix !in registry)
            && (doc.Some? ==>
                  && |doc.value.children| == 3
                  && IsResponse(doc.value, ListAttrs("ListRecords", prefix, from, until, setSpec, token),
                                fmt(WholeSeconds(now)), b.identify.baseURL, doc.value.children[2])
                  && doc.value.children[2].tag == Nsoai("ListRecords")
                  && |doc.value.children[2].children| == |ts|
                  && forall i :: 0 <= i < |ts| ==>
                       && prefix in registry
                       && doc.value.children[2].children[i].tag == Nsoai("record")
                       && doc.value.children[2].children[i].children
                          == [HeaderElement(ts[i].header, fmt), MetadataElement(registry[prefix](ts[i].metadata))])
  {
    var ts := b.listRecords(ListQuery(prefix, from, until, setSpec, token));
    RecordElementsSpec(ts, prefix, registry, fmt);
    ListRecordsRequestAttrs(prefix, from, until, setSpec, token);
  }
}
