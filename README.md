# pyoai response builder, modelled in Dafny

This project models the part of pyoai's `src/oaipmh/server.py` that builds
OAI-PMH 2.0 response documents. The OAI-PMH envelope is defined in section 3.2
of the OAI-PMH 2.0 specification and the verb bodies in section 4.

- `XMLTreeServer` builds one element tree per verb. It starts with
  `_outputEnvelope` and then appends the body built by `identify`,
  `listIdentifiers`, `listMetadataFormats` or `listRecords`. Headers are
  built by `_outputHeader` and metadata by `_outputMetadata`.
- `oai_dc_writer` renders a record's field-to-values map as Dublin Core.
- `XMLServer.handleVerb` finds the tree-server method for a verb by
  lower-casing the verb's first letter.
- `nsoai`, `nsoaidc` and `nsdc` build qualified names of the form `{namespace}local`.

Layout:

- `xml.dfy` (`Xml`): an element is a value holding a tag, an attribute map,
  a sequence of children and optional text. lxml's `SubElement` becomes
  `Append`. `Named` picks out the children that have a given tag.
- `namespaces.dfy` (`Namespaces`): the four namespace constants and the
  qualified-name helpers.
- `oai_dc.dfy` (`OaiDc`): the Dublin Core writer. `OaiDcWriter` is the loop,
  `DcElement` is the tree it is proved to build, and lemmas about that tree.
- `responses.dfy` (`Responses`): the backend's data and the specification
  of each verb's document. Each verb has a function giving its tree and
  lemmas giving the document's shape.
- `tree_server.dfy` (`TreeServer`): the class `XMLTreeServer`. Its methods
  build the trees imperatively, appending children in loops as the Python
  code does. Each method is proved to return exactly the tree `Responses`
  specifies.
- `dispatch.dfy` (`Dispatch`): the method-name transform, `Respond` (what
  `handleVerb` returns for a verb and its keyword arguments), and the class
  `XMLServer`. `XMLServer.HandleVerb` is proved equal to `Respond`.

Python failures become `None`: an empty verb, an unknown method name,
keyword arguments that do not fit the handler's signature, and a metadata
prefix with no registered writer. Keyword argument values are strings: an
argument passed explicitly as None is not modelled (see "## Left out").

## Model

| member | source | states |
|---|---|---|
| Namespaces.Qualified | src/oaipmh/server.py:247-254 | the qualified name is `{`, the namespace, `}` and then the local name; its length is the sum of the parts |
| Namespaces.QualifiedInjective | src/oaipmh/server.py:247-254 | within one namespace, two local names give the same qualified name iff they are equal |
| Namespaces.Nsoai | src/oaipmh/server.py:247-248 | `nsoai(name)` is `{http://www.openarchives.org/OAI/2.0/}` followed by `name` |
| Namespaces.Nsoaidc | src/oaipmh/server.py:250-251 | `nsoaidc(name)` is `{http://www.openarchives.org/OAI/2.0/oai_dc/}` followed by `name` |
| Namespaces.Nsdc | src/oaipmh/server.py:253-254 | `nsdc(name)` is `{http://purl.org/dc/elements/1.1/}` followed by `name` |
| Xml.AppendLeaves | src/oaipmh/server.py:212-214 | the value loop appends one leaf per value, in order, after the existing children; nothing else of the parent changes |
| OaiDc.OaiDcWriter | src/oaipmh/server.py:234-245 | the writer appends exactly one element to `element`, the `oai_dc:dc` tree `DcElement(md)`; the other fields of `element` are unchanged |
| OaiDc.DcChildCount | src/oaipmh/server.py:239-245 | the number of `dc:` children is the sum of the lengths of the value lists of the fields written |
| OaiDc.DcNamedChildren | src/oaipmh/server.py:239-245 | over distinct field names, the `dc:<n>` children are one per value of `n`, in the map's list order, when `n` is written, and there are none otherwise |
| OaiDc.DcChildrenIgnoreOtherKeys | src/oaipmh/server.py:238-243 | two maps that agree on the written fields render the same children, so other keys are ignored |
| OaiDc.DcChildrenAbsentTail | src/oaipmh/server.py:243 | a run of fields without values (`map.get(name, [])`) at the end of the list adds no children |
| OaiDc.DcChildrenConcat | src/oaipmh/server.py:239-245 | the children for a list of fields are those of its first part followed by those of the rest, so the field loop keeps the list's order |
| OaiDc.DcChildrenAbsentField | src/oaipmh/server.py:243 | a field without values adds no children wherever it stands in the list: dropping it leaves the children unchanged |
| OaiDc.DcElementShape | src/oaipmh/server.py:235-245 | `oai_dc:dc` has the fixed schemaLocation attribute and no text. Its child count is the total number of values of the fifteen fields. For each of the fifteen names there is one child per value, in order; a name outside the fifteen has no children |
| OaiDc.DcExample | src/oaipmh/server.py:239-245 | `{creator: [B, C], title: [A], x-local: [...]}` renders as title A, creator B, creator C: field order comes from the fixed list, not from the map, and `x-local` is dropped |
| Responses.WholeSeconds | src/oaipmh/server.py:193-194 | the response date has zero microseconds and otherwise equals the given time |
| Responses.WriteMetadata | src/oaipmh/server.py:216-219 | there is a fragment iff the prefix has a registered writer, and it is that writer's output for the metadata |
| Responses.RequestAttrNames | src/oaipmh/server.py:197-201 | the `request` attributes are exactly the names of the arguments that are not None, with `from_` named `from` |
| Responses.RequestAttrValues | src/oaipmh/server.py:197-201 | when argument names are distinct, each argument that is not None is echoed with its value |
| Responses.SetAttrsValue | src/oaipmh/server.py:197-201 | an argument that no later argument of the same name overrides is echoed with its value |
| Responses.ListIdentifiersRequestAttrs | src/oaipmh/server.py:113-116 | ListIdentifiers' `request` attributes are `verb` and `metadataPrefix`, plus `from`, `until`, `set` and `resumptionToken` exactly when they are not None, each with its value |
| Responses.ListRecordsRequestAttrs | src/oaipmh/server.py:160-165 | ListRecords echoes the same attributes with its own verb |
| Responses.SingleArgAttrs | src/oaipmh/server.py:83 | a call with one argument echoes that argument, and only when it is not None |
| Responses.TwoArgAttrs | src/oaipmh/server.py:135-136 | a call with two arguments echoes both, each only when it is not None |
| Responses.IdentifyResponse | src/oaipmh/server.py:82-85 | Identify's document is a complete response. The root has the fixed schemaLocation and exactly `responseDate` (the formatted time in whole seconds), `request` (attributes `{verb: Identify}`, text the backend's baseURL) and the `Identify` element |
| Responses.IdentifyLayout | src/oaipmh/server.py:86-108 | Identify's children in order: repositoryName, baseURL, protocolVersion, one adminEmail per address, earliestDatestamp (formatted), deletedRecord, granularity, then the compression children |
| Responses.IdentifyCompressions | src/oaipmh/server.py:104-108 | the compression children are exactly the compression list as leaves, in order, unless the list is exactly `["identity"]`. There are none iff the list is `["identity"]` or empty |
| Responses.IdentifyAdminEmails | src/oaipmh/server.py:92-94 | the `adminEmail` children are one per address, in order, and there are no others |
| Responses.HeaderLayout | src/oaipmh/server.py:206-214 | a header is `identifier`, then `datestamp` (formatted), then one `setSpec` per set in order, and nothing else |
| Responses.HeaderSetSpecExample | src/oaipmh/server.py:212-214 | a header in sets `a:b` and `a:c` has exactly those two setSpec children, in that order |
| Responses.HeaderElements | src/oaipmh/server.py:130-131 | one header element per header, in the backend's order |
| Responses.ListQuery | src/oaipmh/server.py:120-129 | the backend query always holds `metadataPrefix`. It holds `from_`, `until`, `set` and `resumptionToken` exactly when they are not None, with values unchanged, and nothing else |
| Responses.ListIdentifiersResponse | src/oaipmh/server.py:111-132 | ListIdentifiers' document is a complete response echoing the present arguments. Its body holds one header per header the backend returned for the query, in order |
| Responses.FormatsQuery | src/oaipmh/server.py:139-141 | the ListMetadataFormats query holds `identifier` exactly when it is given, and nothing else |
| Responses.FormatElements | src/oaipmh/server.py:142-155 | one metadataFormat element per backend triple, in order |
| Responses.ListMetadataFormatsResponse | src/oaipmh/server.py:134-156 | ListMetadataFormats' document echoes `verb` and `identifier` when given. Each metadataFormat has exactly the children metadataPrefix, schema and metadataNamespace, carrying its triple's values |
| Responses.RecordElementsSpec | src/oaipmh/server.py:178-181 | writing the records fails iff there is a record and the prefix has no writer. Otherwise there is one record per triple, in order, each holding the triple's header and a `metadata` element with the writer's output |
| Responses.ListRecordsResponse | src/oaipmh/server.py:158-183 | ListRecords has no document iff the backend returned a record and the prefix has no writer. Otherwise it is a complete response echoing the present arguments. Its body holds one `record` per triple, in order, with exactly two children, `header` then `metadata`; `about` is ignored |
| TreeServer.XMLTreeServer.constructor | src/oaipmh/server.py:74-77 | the tree server keeps the backend and uses the given registry, or the global one when none is given |
| TreeServer.XMLTreeServer.OutputEnvelope | src/oaipmh/server.py:185-204 | the attribute loop builds exactly the envelope `Envelope` specifies: schemaLocation, responseDate, and `request` with the echoed arguments and the baseURL |
| TreeServer.XMLTreeServer.OutputHeader | src/oaipmh/server.py:206-214 | appends exactly the header element, with the setSpec loop, to the given element |
| TreeServer.XMLTreeServer.OutputMetadata | src/oaipmh/server.py:216-219 | fails iff the prefix has no writer. Otherwise it appends a `metadata` element holding that writer's output for the metadata |
| TreeServer.XMLTreeServer.OutputRecord | src/oaipmh/server.py:179-181 | one pass of the record loop: fails iff the prefix has no writer, otherwise appends a `record` holding the header and then the `metadata` element |
| TreeServer.XMLTreeServer.BuildListQuery | src/oaipmh/server.py:120-129 | the query built step by step is `ListQuery` |
| TreeServer.XMLTreeServer.Identify | src/oaipmh/server.py:82-109 | the adminEmail and compression loops build exactly the Identify document |
| TreeServer.XMLTreeServer.ListIdentifiers | src/oaipmh/server.py:111-132 | the header loop builds exactly the ListIdentifiers document for the backend's answer to `ListQuery` |
| TreeServer.XMLTreeServer.ListMetadataFormats | src/oaipmh/server.py:134-156 | the format loop builds exactly the ListMetadataFormats document |
| TreeServer.XMLTreeServer.ListRecords | src/oaipmh/server.py:158-183 | the record loop builds exactly the ListRecords document, or fails when the records cannot be written |
| Dispatch.LowerChar | src/oaipmh/server.py:230 | upper-case ASCII letters are mapped to lower case; every other character is kept; the result is never upper case |
| Dispatch.MethodName | src/oaipmh/server.py:230 | the method name has the verb's length, the verb's first character lower-cased, and the verb's other characters unchanged |
| Dispatch.MethodNameIdempotent | src/oaipmh/server.py:230 | applying the transform twice gives the same name as applying it once |
| Dispatch.Arg | src/oaipmh/server.py:111-112 | a keyword argument that was not passed takes its default, None |
| Dispatch.MethodOf | src/oaipmh/server.py:82-158 | the tree server's own method names `identify`, `listIdentifiers`, `listMetadataFormats` and `listRecords` are each what the transform of line 230 makes of the verb's protocol spelling, so the dispatch reaches the method that answers the verb |
| Dispatch.Handler | src/oaipmh/server.py:232 | the method lookup finds a verb only for that verb's method name, and finds none for a name that is no verb's method name |
| Dispatch.HandlerFindsEveryVerb | src/oaipmh/server.py:230-232 | each of the four verbs is found through its own method name, and through no other verb's |
| Dispatch.RespondFirstLetter | src/oaipmh/server.py:229-232 | `Identify` and `identify` (any verb and its lower-first spelling) get the same answer |
| Dispatch.RespondUnknownVerb | src/oaipmh/server.py:229-232 | a name that is none of the four verbs after the transform gets no document |
| Dispatch.AnswerEchoesVerb | src/oaipmh/server.py:83-85 | each verb's document has three children; the `request` child carries that verb in the protocol's spelling as `verb`, and the body's tag is that verb |
| Dispatch.RespondEchoesVerb | src/oaipmh/server.py:229-232 | every answered request was dispatched to the verb whose method name its transform gives, and the document names that verb in the protocol's spelling, whatever the case of the first letter in the call |
| Dispatch.ListAttrsVerb | src/oaipmh/server.py:113-116 | the listing verbs' `request` carries the verb they were called for |
| Dispatch.ListQueryForwards | src/oaipmh/server.py:120-131 | the listing verbs pass the request's keyword arguments to the backend unchanged |
| Dispatch.FormatsQueryForwards | src/oaipmh/server.py:139-142 | ListMetadataFormats passes `identifier`, and only it, to the backend unchanged |
| Dispatch.EchoedAttrNames | src/oaipmh/server.py:197-201 | a listing verb's `request` has one attribute per keyword argument, with `from_` named `from`, plus `verb`, and nothing else |
| Dispatch.EchoedAttrValues | src/oaipmh/server.py:197-201 | a listing verb's `request` carries each keyword argument's value, `from_`'s under `from`, and the verb under `verb` |
| Dispatch.RespondListRecordsFails | src/oaipmh/server.py:158-183 | ListRecords with fitting arguments fails iff the backend returns a record and the prefix has no writer |
| Dispatch.RespondIdentifyArgs | src/oaipmh/server.py:229-232 | Identify is answered iff no keyword argument is passed |
| Dispatch.RespondListNeedsPrefix | src/oaipmh/server.py:229-232 | the listing verbs fail without `metadataPrefix` |
| Dispatch.XMLServer.constructor | src/oaipmh/server.py:226-227 | the server wraps a tree server over the given backend and registry |
| Dispatch.XMLServer.HandleVerb | src/oaipmh/server.py:229-232 | `handleVerb` returns exactly the document `Respond` specifies (before serialization) |

## Left out

- Serialization: `etree.tostring` and lxml's namespace map (`nsmap`) are not modelled. Documents are element values, and `getroot()` is the root value.
- `datetime.utcnow()`: the time is a parameter `now`. Only `replace(microsecond=0)` is modelled.
- `common.datetime_to_datestamp` is not part of this model. It is an arbitrary function from times to strings, and nothing is claimed about its output.
- `common.ServerIdentify`, `common.ValidatingOAIPMH` and the backend's record classes are not part of this model. Their accessor methods (`identifier()`, `setSpec()`, `baseURL()`, ...) become datatype fields.
- Backend calls are pure functions. `identify()` is called twice per Identify response and is assumed to return the same value both times. Lazy iteration and backend exceptions are not modelled.
- `writeMetadata` of the registry is not part of this model. A registry is a map from prefix to writer. An unregistered prefix means no document, and no specific error is claimed. A writer is a function from the record's metadata to the children it appends under the empty `metadata` element; writers that touch other parts of the tree are not modelled.
- TreeServer.XMLTreeServer.constructor: Python's `metadata_registry or global_metadata_registry` also falls back for a registry object that is falsy. The model falls back only when no registry is given.
- The `getattr` dispatch reaches every attribute of the tree server. The model answers only the four verb methods. `getRecord` returns None, so `getroot()` fails and the model gives no document. Reaching private helpers such as `_outputEnvelope` through a verb name is not modelled.
- Dispatch.LowerChar: `str.lower()` is modelled for ASCII letters only; Unicode case mapping is not modelled.
- `handleVerb`'s unused `args` parameter is not modelled.
- Keyword arguments are a map from names to strings, so a keyword argument passed explicitly as None is not modelled. For the optional arguments an explicit None behaves as absence, which the model gives through `Arg`. `metadataPrefix=None` differs: Python binds it, leaves it off `request`, forwards `metadataPrefix=None` to the backend and, for ListRecords, looks None up in the registry; the model has no such input, and its nearest one, `kw` without `metadataPrefix`, gives no document. The claims that each keyword argument is echoed as one attribute (`Dispatch.EchoedAttrNames`) and forwarded unchanged (`Dispatch.ListQueryForwards`) are made for string values only; the caller is expected to pass only the arguments the request carries.
- The `Server` base class, `getRecord`, `ListSets` (which has no tree builder) and the `about` part of a record triple are not modelled. The `about` part is carried in the data but never rendered, as in the source.
- The order of `request`'s attributes is not modelled: attributes are a map. The argument list is modelled as a sequence, so "a later argument of the same name wins" holds, but the source never passes a name twice.
- Element identity and aliasing are not modelled. lxml attaches children to shared mutable nodes; here each builder returns the new value of the element it extends.
