/**
 * `XMLTreeServer` (server.py lines 66-219): answers each verb by building its
 * response tree step by step, creating elements and appending children in
 * loops. Each method is proved to build exactly the tree Responses specifies.
 */
module TreeServer {
  import opened Wrappers
  import opened Namespaces
  import opened Xml
  import opened OaiDc
  import opened Responses

  class XMLTreeServer {
    /** The object conforming to the server API. */
    const server: Backend
    /** The metadata registry consulted for ListRecords. */
    const metadataRegistry: Registry
    /** `common.datetime_to_datestamp`. */
    const toDatestamp: Formatter

    /**
     * Uses the given registry, or the process-wide `globalRegistry` when none
     * is given.
     */
    constructor (server: Backend, metadataRegistry: Option<Registry>, globalRegistry: Registry, toDatestamp: Formatter)
      ensures this.server == server
      ensures this.metadataRegistry == if metadataRegistry.Some? then metadataRegistry.value else globalRegistry
      ensures this.toDatestamp == toDatestamp
    {
      this.server := server;
      this.metadataRegistry := if metadataRegistry.Some? then metadataRegistry.value else globalRegistry;
      this.toDatestamp := toDatestamp;
    }

    /**
     * `_outputEnvelope(**kw)`: the root with its schema location, a
     * `responseDate` for `now` in whole seconds, and a `request` whose
     * attributes are the arguments that are not None.
     */
    method OutputEnvelope(kw: KwArgs, now: DateTime) returns (root: Element)
      ensures root == Envelope(server, toDatestamp, now, kw)
    {
      root := Empty(Nsoai("OAI-PMH"));
      root := root.(attrs := root.attrs[SCHEMA_LOCATION_ATTR := OAI_SCHEMA_LOCATION]);
      root := Append(root, Leaf(Nsoai("responseDate"), toDatestamp(WholeSeconds(now))));
      var request := Empty(Nsoai("request"));
      for i := 0 to |kw|
        invariant request.tag == Nsoai("request") && request.children == [] && request.text == None
        invariant SetAttrs(request.attrs, kw[i..]) == RequestAttrs(kw)
      {
        assert kw[i..][1..] == kw[i + 1..];
        var (key, value) := kw[i];
        if value.Some? {
          if key == "from_" {
            key := "from";
          }
          request := request.(attrs := request.attrs[key := value.value]);
        }
      }
      assert kw[|kw|..] == [];
      request := request.(text := Some(server.identify.baseURL));
      root := Append(root, request);
    }

    /** `_outputHeader(element, header)`: appends the header's element to `element`. */
    method OutputHeader(element: Element, header: Header) returns (r: Element)
      ensures r == Append(element, HeaderElement(header, toDatestamp))
    {
      var e := Empty(Nsoai("header"));
      e := Append(e, Leaf(Nsoai("identifier"), header.identifier));
      e := Append(e, Leaf(Nsoai("datestamp"), toDatestamp(header.datestamp)));
      var head := e.children;
      assert head == [Leaf(Nsoai("identifier"), header.identifier), Leaf(Nsoai("datestamp"), toDatestamp(header.datestamp))];
      e := AppendLeaves(e, Nsoai("setSpec"), header.setSpec);
      assert e == HeaderElement(header, toDatestamp);
      r := Append(element, e);
    }

    /**
     * `_outputMetadata(element, prefix, metadata)`: appends a `metadata`
     * element holding what the prefix's writer produces, or fails when no
     * writer is registered for the prefix.
     */
    method OutputMetadata(element: Element, prefix: string, md: Metadata) returns (r: Option<Element>)
      ensures r.None? <==> prefix !in metadataRegistry
      ensures r.Some? ==> r.value == Append(element, MetadataElement(metadataRegistry[prefix](md)))
    {
      var fragment := WriteMetadata(metadataRegistry, prefix, md);
      if fragment.None? {
        return None;
      }
      r := Some(Append(element, MetadataElement(fragment.value)));
    }

    /**
     * One pass of listRecords' loop: appends a `record` holding the triple's
     * header and then its metadata, or fails when no writer is registered.
     */
    method OutputRecord(element: Element, prefix: string, t: RecordTriple) returns (r: Option<Element>)
      ensures r.None? <==> prefix !in metadataRegistry
      ensures r.Some? ==> r.value == Append(element, RecordElement(t, toDatestamp, metadataRegistry[prefix](t.metadata)))
    {
      var record := Empty(Nsoai("record"));
      record := OutputHeader(record, t.header);
      var withMetadata := OutputMetadata(record, prefix, t.metadata);
      if withMetadata.None? {
        return None;
      }
      assert withMetadata.value == RecordElement(t, toDatestamp, metadataRegistry[prefix](t.metadata));
      r := Some(Append(element, withMetadata.value));
    }

    /** The backend query of the listing verbs, built one argument at a time. */
    method BuildListQuery(prefix: string, from: Option<string>, until: Option<string>,
                          setSpec: Option<string>, token: Option<string>) returns (kw: Query)
      ensures kw == ListQuery(prefix, from, until, setSpec, token)
    {
      kw := map[];
      kw := kw["metadataPrefix" := prefix];
      if from.Some? {
        kw := kw["from_" := from.value];
      }
      if until.Some? {
        kw := kw["until" := until.value];
      }
      if setSpec.Some? {
        kw := kw["set" := setSpec.value];
      }
      if token.Some? {
        kw := kw["resumptionToken" := token.value];
      }
    }

    /** `identify()`. */
    method Identify(now: DateTime) returns (doc: Element)
      ensures doc == IdentifyDoc(server, toDatestamp, now)
    {
      doc := OutputEnvelope([("verb", Some("Identify"))], now);
      var identify := server.identify;
      var e := Empty(Nsoai("Identify"));
      e := Append(e, Leaf(Nsoai("repositoryName"), identify.repositoryName));
      e := Append(e, Leaf(Nsoai("baseURL"), identify.baseURL));
      e := Append(e, Leaf(Nsoai("protocolVersion"), identify.protocolVersion));
      assert e.children == IdentifyHead(identify);
      var emails := identify.adminEmails;
      e := AppendLeaves(e, Nsoai("adminEmail"), emails);
      e := Append(e, Leaf(Nsoai("earliestDatestamp"), toDatestamp(identify.earliestDatestamp)));
      e := Append(e, Leaf(Nsoai("deletedRecord"), identify.deletedRecord));
      e := Append(e, Leaf(Nsoai("granularity"), identify.granularity));
      ghost var fixed := e.children;
      assert fixed == IdentifyHead(identify) + Leaves(Nsoai("adminEmail"), emails) + IdentifyTail(identify, toDatestamp);
      var compressions := identify.compression;
      if compressions != ["identity"] {
        e := AppendLeaves(e, Nsoai("compression"), compressions);
      }
      assert e.children == fixed + Compressions(compressions);
      assert e == IdentifyElement(identify, toDatestamp);
      doc := Append(doc, e);
    }

    /** `listIdentifiers(metadataPrefix, from_, until, set, resumptionToken)`. */
    method ListIdentifiers(now: DateTime, prefix: string, from: Option<string>, until: Option<string>,
                           setSpec: Option<string>, token: Option<string>) returns (doc: Element)
      ensures doc == ListIdentifiersDoc(server, toDatestamp, now, prefix, from, until, setSpec, token)
    {
      doc := OutputEnvelope(ListIdentifiersKw(prefix, from, until, setSpec, token), now);
      var e := Empty(Nsoai("ListIdentifiers"));
      var kw := BuildListQuery(prefix, from, until, setSpec, token);
      var headers := server.listIdentifiers(kw);
      for i := 0 to |headers|
        invariant e == Element(Nsoai("ListIdentifiers"), map[], HeaderElements(headers[..i], toDatestamp), None)
      {
        assert HeaderElements(headers[..i + 1], toDatestamp)
            == HeaderElements(headers[..i], toDatestamp) + [HeaderElement(headers[i], toDatestamp)];
        e := OutputHeader(e, headers[i]);
      }
      assert headers[..|headers|] == headers;
      doc := Append(doc, e);
    }

    /** `listMetadataFormats(identifier)`. */
    method ListMetadataFormats(now: DateTime, identifier: Option<string>) returns (doc: Element)
      ensures doc == ListMetadataFormatsDoc(server, toDatestamp, now, identifier)
    {
      doc := OutputEnvelope(ListMetadataFormatsKw(identifier), now);
      var e := Empty(Nsoai("ListMetadataFormats"));
      var kw: Query := map[];
      if identifier.Some? {
        kw := kw["identifier" := identifier.value];
      }
      var formats := server.listMetadataFormats(kw);
      for i := 0 to |formats|
        invariant e == Element(Nsoai("ListMetadataFormats"), map[], FormatElements(formats[..i]), None)
      {
        var format := Empty(Nsoai("metadataFormat"));
        format := Append(format, Leaf(Nsoai("metadataPrefix"), formats[i].metadataPrefix));
        format := Append(format, Leaf(Nsoai("schema"), formats[i].schema));
        format := Append(format, Leaf(Nsoai("metadataNamespace"), formats[i].metadataNamespace));
        assert format == FormatElement(formats[i]);
        assert FormatElements(formats[..i + 1]) == FormatElements(formats[..i]) + [FormatElement(formats[i])];
        e := Append(e, format);
      }
      assert formats[..|formats|] == formats;
      doc := Append(doc, e);
    }

    /**
     * `listRecords(metadataPrefix, from_, until, set, resumptionToken)`;
     * None when writing a record's metadata fails.
     */
    method ListRecords(now: DateTime, prefix: string, from: Option<string>, until: Option<string>,
                       setSpec: Option<string>, token: Option<string>) returns (doc: Option<Element>)
      ensures doc == ListRecordsDoc(server, metadataRegistry, toDatestamp, now, prefix, from, until, setSpec, token)
    {
      var envelope := OutputEnvelope(ListRecordsKw(prefix, from, until, setSpec, token), now);
      var e := Empty(Nsoai("ListRecords"));
      var kw := BuildListQuery(prefix, from, until, setSpec, token);
      var records := server.listRecords(kw);
      for i := 0 to |records|
        invariant e.tag == Nsoai("ListRecords") && e.attrs == map[] && e.text == None
        invariant RecordElements(records[..i], prefix, metadataRegistry, toDatestamp) == Some(e.children)
      {
        var next := OutputRecord(e, prefix, records[i]);
        if next.None? {
          RecordElementsSpec(records, prefix, metadataRegistry, toDatestamp);
          return None;
        }
        RecordElementsStep(records, i, prefix, metadataRegistry, toDatestamp, e.children);
        e := next.value;
      }
      assert records[..|records|] == records;
      doc := Some(Append(envelope, e));
    }
  }
}
