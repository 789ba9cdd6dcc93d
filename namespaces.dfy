/**
 * Namespace-qualified names in lxml's Clark notation, `{namespace}local`,
 * and the four namespaces of an OAI-PMH response (server.py lines 7-10, 247-254).
 */
module Namespaces {
  const NS_OAIPMH: string := "http://www.openarchives.org/OAI/2.0/"
  const NS_XSI: string := "http://www.w3.org/2001/XMLSchema-instance"
  const NS_OAIDC: string := "http://www.openarchives.org/OAI/2.0/oai_dc/"
  const NS_DC: string := "http://purl.org/dc/elements/1.1/"

  /** `{ns}name`: the namespace in braces, then the local name. */
  function Qualified(ns: string, name: string): (q: string)
    ensures |q| == |ns| + 2 + |name|
    ensures q[..|ns| + 2] == "{" + ns + "}"
    ensures q[|ns| + 2..] == name
  {
    "{" + ns + "}" + name
  }

  /** Within one namespace, distinct local names give distinct qualified names. */
  lemma QualifiedInjective(ns: string, a: string, b: string)
    ensures Qualified(ns, a) == Qualified(ns, b) <==> a == b
  {
  }

  function Nsoai(name: string): (q: string)
    ensures |q| == |NS_OAIPMH| + 2 + |name|
    ensures q[..|NS_OAIPMH| + 2] == "{" + NS_OAIPMH + "}"
    ensures q[|NS_OAIPMH| + 2..] == name
  {
    Qualified(NS_OAIPMH, name)
  }

  function Nsoaidc(name: string): (q: string)
    ensures |q| == |NS_OAIDC| + 2 + |name|
    ensures q[..|NS_OAIDC| + 2] == "{" + NS_OAIDC + "}"
    ensures q[|NS_OAIDC| + 2..] == name
  {
    Qualified(NS_OAIDC, name)
  }

  function Nsdc(name: string): (q: string)
    ensures |q| == |NS_DC| + 2 + |name|
    ensures q[..|NS_DC| + 2] == "{" + NS_DC + "}"
    ensures q[|NS_DC| + 2..] == name
  {
    Qualified(NS_DC, name)
  }

  /** The attribute name `{xsi}schemaLocation` set on the OAI-PMH root and on `oai_dc:dc`. */
  const SCHEMA_LOCATION_ATTR: string := Qualified(NS_XSI, "schemaLocation")
}
