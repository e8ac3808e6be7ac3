/** The host-side interfaces of javax.xml the adapter calls back into, each
    given by the answers its methods return. */
module Interfaces {
  import opened Base
  import opened Dom

  /** javax.xml.namespace.NamespaceContext: the namespace URI bound to a
      prefix, one prefix bound to a URI, and all prefixes bound to a URI.
      None stands for a null answer. */
  datatype NamespaceContext = NamespaceContext(
    namespaceURI: string -> Option<string>,
    prefix: string -> Option<string>,
    prefixes: string -> set<string>)

  /** javax.xml.xpath.XPathFunction: evaluation of an argument list, which may
      throw XPathFunctionException (or any runtime exception). */
  datatype XPathFunction = XPathFunction(evaluate: seq<RawValue> -> Result<RawValue>)

  /** javax.xml.xpath.XPathVariableResolver: the value of a variable, Null
      when it is not known. */
  datatype VariableResolver = VariableResolver(resolveVariable: QName -> RawValue)

  /** javax.xml.xpath.XPathFunctionResolver: the function for a name and an
      arity, None when there is none. */
  datatype FunctionResolver = FunctionResolver(resolveFunction: (QName, int) -> Option<XPathFunction>)
}
