/**
 * `XMLServer.handleVerb` (server.py lines 223-232): turns a verb name into the
 * name of a tree-server method by lower-casing its first letter, calls that
 * method with the request's keyword arguments, and hands back the document.
 *
 * Python's failures on the way become None: an empty verb (indexing the first
 * letter fails), a name the tree server has no verb method for, and keyword
 * arguments that do not fit the method's signature.
 */
module Dispatch {
  import opened Wrappers
  import opened Namespaces
  import opened Xml
  import opened Responses
  import opened TreeServer

  /** `c.lower()` on ASCII letters; every other character is kept. */
  function LowerChar(c: char): (r: char)
    ensures 'A' <= c <= 'Z' ==> r as int == c as int + 32
    ensures !('A' <= c <= 'Z') ==> r == c
    ensures !('A' <= r <= 'Z')
  {
    if 'A' <= c <= 'Z' then (c as int + 32) as char else c
  }

  /** `verb[0].lower() + verb[1:]`. */
  function MethodName(verb: string): (name: string)
    requires |verb| > 0
    ensures |name| == |verb|
    ensures name[0] == LowerChar(verb[0])
    ensures name[1..] == verb[1..]
  {
    [LowerChar(verb[0])] + verb[1..]
  }

  /** The value of an optional keyword argument: None when it was not passed. */
  function Arg(kw: Query, key: string): (v: Option<string>)
    ensures v.Some? <==> key in kw
    ensures v.Some? ==> v.value == kw[key]
  {
    if key in kw then Some(kw[key]) else None
  }

  /** Keyword arguments that bind to `(metadataPrefix, from_=None, until=None, set=None, resumptionToken=None)`. */
  predicate ListArgsFit(kw: Query)
  {
    "metadataPrefix" in kw && kw.Keys <= {"metadataPrefix", "from_", "until", "set", "resumptionToken"}
  }

  /** Keyword arguments that bind to `(identifier=None)`. */
  predicate FormatsArgsFit(kw: Query)
  {
    kw.Keys <= {"identifier"}
  }

  /** The verb methods of the tree server that `handleVerb` can reach. */
  datatype Verb = Identify | ListIdentifiers | ListMetadataFormats | ListRecords

  /** The verb as the protocol spells it. */
  function VerbName(v: Verb): (name: string)
    ensures |name| > 0
  {
    match v
    case Identify => "Identify"
    case ListIdentifiers => "ListIdentifiers"
    case ListMetadataFormats => "ListMetadataFormats"
    case ListRecords => "ListRecords"
  }

  /**
   * The name under which the tree server defines the method answering `v`;
   * it is the verb's protocol spelling with its first letter lower-cased.
   */
  function MethodOf(v: Verb): (name: string)
    ensures name == MethodName(VerbName(v))
    ensures |name| == |VerbName(v)|
  {
    match v
    case Identify =>
      assert MethodName("Identify") == "identify" by {
        assert LowerChar('I') == 'i';
        assert "Identify"[1..] == "identify"[1..];
      }
      "identify"
    case ListIdentifiers =>
      assert MethodName("ListIdentifiers") == "listIdentifiers" by {
        assert LowerChar('L') == 'l';
        assert "ListIdentifiers"[1..] == "listIdentifiers"[1..];
      }
      "listIdentifiers"
    case ListMetadataFormats =>
      assert MethodName("ListMetadataFormats") == "listMetadataFormats" by {
        assert LowerChar('L') == 'l';
        assert "ListMetadataFormats"[1..] == "listMetadataFormats"[1..];
      }
      "listMetadataFormats"
    case ListRecords =>
      assert MethodName("ListRecords") == "listRecords" by {
        assert LowerChar('L') == 'l';
        assert "ListRecords"[1..] == "listRecords"[1..];
      }
      "listRecords"
  }

  /**
   * `getattr(tree_server, name)` restricted to the verb methods: the verb
   * whose method is called `name`, if there is one.
   */
  function Handler(name: string): (v: Option<Verb>)
    ensures v.Some? ==> name == MethodOf(v.value)
    ensures v.None? ==> forall u: Verb :: name != MethodOf(u)
  {
    if name == MethodOf(Identify) then Some(Identify)
    else if name == MethodOf(ListIdentifiers) then Some(ListIdentifiers)
    else if name == MethodOf(ListMetadataFormats) then Some(ListMetadataFormats)
    else if name == MethodOf(ListRecords) then Some(ListRecords)
    else None
  }

  /**
   * Every verb is reached through the method name of its protocol spelling,
   * and by no other verb's: the four method names differ (in length).
   */
  lemma HandlerFindsEveryVerb(v: Verb)
    ensures Handler(MethodOf(v)) == Some(v)
  {
  }

  /**
   * Calling the verb's method with `**kw`: None when the keyword arguments do
   * not fit its parameters, or when ListRecords cannot write a record.
   */
  function Answer(b: Backend, registry: Registry, fmt: Formatter, v: Verb, kw: Query, now: DateTime): Option<Element>
  {
    match v
    case Identify =>
      if kw == map[] then Some(IdentifyDoc(b, fmt, now)) else None
    case ListIdentifiers =>
      if ListArgsFit(kw) then
        Some(ListIdentifiersDoc(b, fmt, now, kw["metadataPrefix"], Arg(kw, "from_"), Arg(kw, "until"),
                                Arg(kw, "set"), Arg(kw, "resumptionToken")))
      else None
    case ListMetadataFormats =>
      if FormatsArgsFit(kw) then Some(ListMetadataFormatsDoc(b, fmt, now, Arg(kw, "identifier"))) else None
    case ListRecords =>
      if ListArgsFit(kw) then
        ListRecordsDoc(b, registry, fmt, now, kw["metadataPrefix"], Arg(kw, "from_"), Arg(kw, "until"),
                       Arg(kw, "set"), Arg(kw, "resumptionToken"))
      else None
  }

  /** The document `handleVerb(verb, args, kw)` serializes, or None where the call fails. */
  function Respond(b: Backend, registry: Registry, fmt: Formatter, verb: string, kw: Query, now: DateTime): Option<Element>
  {
    if |verb| == 0 then None
    else
      match Handler(MethodName(verb))
      // getRecord answers None, whose root cannot be taken; other names are not verb methods
      case None => None
      case Some(v) => Answer(b, registry, fmt, v, kw, now)
  }

  /** Lower-casing the first letter twice is lower-casing it once. */
  lemma MethodNameIdempotent(verb: string)
    requires |verb| > 0
    ensures MethodName(MethodName(verb)) == MethodName(verb)
  {
  }

  /** A verb and its spelling with a lower-case first letter are answered alike. */
  lemma RespondFirstLetter(b: Backend, registry: Registry, fmt: Formatter, verb: string, kw: Query, now: DateTime)
    requires |verb| > 0
    ensures Respond(b, registry, fmt, verb, kw, now) == Respond(b, registry, fmt, MethodName(verb), kw, now)
  {
  }

  /** A name that is none of the four verbs after lower-casing its first letter is never answered. */
  lemma RespondUnknownVerb(b: Backend, registry: Registry, fmt: Formatter, verb: string, kw: Query, now: DateTime)
    requires |verb| > 0
    requires forall v: Verb :: MethodName(verb) != MethodOf(v)
    ensures Respond(b, registry, fmt, verb, kw, now) == None
  {
  }

  /**
   * `doc` names verb `v` in the protocol's spelling: it has three children, the
   * `request` element's `verb` attribute is `v`, and the body's tag is `v`.
   */
  predicate EchoesVerb(doc: Element, v: string)
  {
    && |doc.children| == 3
    && doc.children[1].tag == Nsoai("request")
    && "verb" in doc.children[1].attrs && doc.children[1].attrs["verb"] == v
    && doc.children[2].tag == Nsoai(v)
  }

  /** Each verb's document names that verb. */
  lemma AnswerEchoesVerb(b: Backend, registry: Registry, fmt: Formatter, v: Verb, kw: Query, now: DateTime)
    requires Answer(b, registry, fmt, v, kw, now).Some?
    ensures EchoesVerb(Answer(b, registry, fmt, v, kw, now).value, VerbName(v))
  {
    match v
    case Identify =>
      IdentifyResponse(b, fmt, now);
    case ListIdentifiers =>
      var prefix, from, until, setSpec, token :=
        kw["metadataPrefix"], Arg(kw, "from_"), Arg(kw, "until"), Arg(kw, "set"), Arg(kw, "resumptionToken");
      ListIdentifiersResponse(b, fmt, now, prefix, from, until, setSpec, token);
      ListAttrsVerb("ListIdentifiers", prefix, from, until, setSpec, token);
    case ListMetadataFormats =>
      ListMetadataFormatsResponse(b, fmt, now, Arg(kw, "identifier"));
    case ListRecords =>
      var prefix, from, until, setSpec, token :=
        kw["metadataPrefix"], Arg(kw, "from_"), Arg(kw, "until"), Arg(kw, "set"), Arg(kw, "resumptionToken");
      ListRecordsResponse(b, registry, fmt, now, prefix, from, until, setSpec, token);
      ListAttrsVerb("ListRecords", prefix, from, until, setSpec, token);
  }

  /**
   * Every answered request names its verb in the protocol's spelling,
   * whichever case the first letter had in the call.
   */
  lemma RespondEchoesVerb(b: Backend, registry: Registry, fmt: Formatter, verb: string, kw: Query, now: DateTime)
    requires |verb| > 0
    requires Respond(b, registry, fmt, verb, kw, now).Some?
    ensures Handler(MethodName(verb)).Some?
    ensures var v := Handler(MethodName(verb)).value;
            && MethodName(verb) == MethodOf(v)
            && EchoesVerb(Respond(b, registry, fmt, verb, kw, now).value, VerbName(v))
  {
    AnswerEchoesVerb(b, registry, fmt, Handler(MethodName(verb)).value, kw, now);
  }

  /** The listing verbs' `request` carries the verb they were built with. */
  lemma ListAttrsVerb(verb: string, prefix: string, from: Option<string>, until: Option<string>,
                      setSpec: Option<string>, token: Option<string>)
    ensures var attrs := ListAttrs(verb, prefix, from, until, setSpec, token);
            "verb" in attrs && attrs["verb"] == verb
  {
  }

  /**
   * The listing verbs pass the request's keyword arguments on to the backend
   * unchanged: the query they rebuild from the bound parameters is `kw`.
   */
  lemma ListQueryForwards(kw: Query)
    requires ListArgsFit(kw)
    ensures ListQuery(kw["metadataPrefix"], Arg(kw, "from_"), Arg(kw, "until"), Arg(kw, "set"),
                      Arg(kw, "resumptionToken")) == kw
  {
  }

  /** ListMetadataFormats passes `identifier`, and only it, on to the backend unchanged. */
  lemma FormatsQueryForwards(kw: Query)
    requires FormatsArgsFit(kw)
    ensures FormatsQuery(Arg(kw, "identifier")) == kw
  {
  }

  /** The `request` attributes of a listing verb called with the keyword arguments `kw`. */
  function EchoedAttrs(verb: string, kw: Query): map<string, string>
    requires "metadataPrefix" in kw
  {
    ListAttrs(verb, kw["metadataPrefix"], Arg(kw, "from_"), Arg(kw, "until"), Arg(kw, "set"), Arg(kw, "resumptionToken"))
  }

  /**
   * A listing verb's `request` has one attribute per keyword argument, with
   * `from_` named `from`, plus `verb`, and nothing else.
   */
  lemma EchoedAttrNames(verb: string, kw: Query)
    requires ListArgsFit(kw)
    ensures EchoedAttrs(verb, kw).Keys == {"verb"} + (kw.Keys - {"from_"}) + (if "from_" in kw then {"from"} else {})
  {
  }

  /** A listing verb's `request` carries each keyword argument's value, `from_`'s under `from`, and the verb. */
  lemma EchoedAttrValues(verb: string, kw: Query)
    requires ListArgsFit(kw)
    ensures var attrs := EchoedAttrs(verb, kw);
            && "verb" in attrs && attrs["verb"] == verb
            && (forall k :: k in kw && k != "from_" ==> k in attrs && attrs[k] == kw[k])
            && ("from_" in kw ==> "from" in attrs && attrs["from"] == kw["from_"])
  {
  }

  /**
   * ListRecords with fitting arguments fails exactly when the backend
   * returned a record and no writer is registered for the prefix.
   */
  lemma RespondListRecordsFails(b: Backend, registry: Registry, fmt: Formatter, kw: Query, now: DateTime)
    requires ListArgsFit(kw)
    ensures Respond(b, registry, fmt, "ListRecords", kw, now).None?
        <==> |b.listRecords(kw)| > 0 && kw["metadataPrefix"] !in registry
  {
    HandlerFindsEveryVerb(ListRecords);
    assert Respond(b, registry, fmt, "ListRecords", kw, now) == Answer(b, registry, fmt, ListRecords, kw, now);
    ListQueryForwards(kw);
    ListRecordsResponse(b, registry, fmt, now, kw["metadataPrefix"], Arg(kw, "from_"), Arg(kw, "until"),
                        Arg(kw, "set"), Arg(kw, "resumptionToken"));
  }

  /** Identify takes no arguments: any keyword argument makes the call fail. */
  lemma RespondIdentifyArgs(b: Backend, registry: Registry, fmt: Formatter, kw: Query, now: DateTime)
    ensures Respond(b, registry, fmt, "Identify", kw, now).Some? <==> kw == map[]
  {
    HandlerFindsEveryVerb(Identify);
  }

  /** The listing verbs fail without `metadataPrefix`. */
  lemma RespondListNeedsPrefix(b: Backend, registry: Registry, fmt: Formatter, verb: string, kw: Query, now: DateTime)
    requires verb == "ListIdentifiers" || verb == "ListRecords"
    requires "metadataPrefix" !in kw
    ensures Respond(b, registry, fmt, verb, kw, now) == None
  {
    HandlerFindsEveryVerb(ListIdentifiers);
    HandlerFindsEveryVerb(ListRecords);
  }

  class XMLServer {
    const treeServer: XMLTreeServer

    constructor (server: Backend, metadataRegistry: Option<Registry>, globalRegistry: Registry, toDatestamp: Formatter)
      ensures treeServer.server == server
      ensures treeServer.metadataRegistry == if metadataRegistry.Some? then metadataRegistry.value else globalRegistry
      ensures treeServer.toDatestamp == toDatestamp
    {
      treeServer := new XMLTreeServer(server, metadataRegistry, globalRegistry, toDatestamp);
    }

    /** `handleVerb(verb, args, kw)`, up to serializing the document. */
    method HandleVerb(verb: string, kw: Query, now: DateTime) returns (r: Option<Element>)
      ensures r == Respond(treeServer.server, treeServer.metadataRegistry, treeServer.toDatestamp, verb, kw, now)
    {
      if |verb| == 0 {
        return None;
      }
      var handler := Handler(MethodName(verb));
      match handler {
        case None =>
          r := None;
        case Some(Identify) =>
          if kw != map[] {
            return None;
          }
          var doc := treeServer.Identify(now);
          r := Some(doc);
        case Some(ListIdentifiers) =>
          if !ListArgsFit(kw) {
            return None;
          }
          var doc := treeServer.ListIdentifiers(now, kw["metadataPrefix"], Arg(kw, "from_"), Arg(kw, "until"),
                                                Arg(kw, "set"), Arg(kw, "resumptionToken"));
          r := Some(doc);
        case Some(ListMetadataFormats) =>
          if !FormatsArgsFit(kw) {
            return None;
          }
          var doc := treeServer.ListMetadataFormats(now, Arg(kw, "identifier"));
          r := Some(doc);
        case Some(ListRecords) =>
          if !ListArgsFit(kw) {
            return None;
          }
          r := treeServer.ListRecords(now, kw["metadataPrefix"], Arg(kw, "from_"), Arg(kw, "until"),
                                      Arg(kw, "set"), Arg(kw, "resumptionToken"));
      }
    }
  }
}
