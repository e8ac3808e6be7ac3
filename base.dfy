/** The Java and JAXP vocabulary the adapter is written against: nullable
    values, exceptions, qualified names, the XMLConstants strings and doubles. */
module Base {

  /** A Java reference that may be null: None stands for null. */
  datatype Option<+T> = None | Some(value: T)

  /** The exception classes the adapter raises, catches or translates.
      Messages are not modelled; a cause is kept where the adapter wraps one. */
  datatype Exception =
    | IllegalArgument                              // java.lang.IllegalArgumentException
    | NullPointer                                  // java.lang.NullPointerException
    | IndexOutOfBounds                             // from java.util.List.get
    | Unsupported                                  // RuntimeException("Unsupported...")
    | UnexpectedString                             // RuntimeException("Unexpected string : ...")
    | UnknownObject                                // RuntimeException("Unknown object:...")
    | NumberFormat                                 // java.lang.NumberFormatException
    | FactoryConfiguration                         // XPathFactoryConfigurationException
    | XPathExpressionError(cause: Option<Exception>) // XPathExpressionException
    | XPathFunctionError(cause: Option<Exception>)   // XPathFunctionException
    | JXPathError(cause: Option<Exception>)          // org.apache.commons.jxpath.JXPathException
    | SecureFunctionError                          // the adapter's SecureFunctionException

  /** A value, or the exception thrown instead of returning it. */
  datatype Result<+T> = Ok(value: T) | Err(error: Exception)

  /** The outcome of a void method: it returned, or it threw. */
  datatype Outcome = Done | Raised(error: Exception)

  /** javax.xml.namespace.QName: equality is on the namespace URI and the
      local part (the prefix takes no part in it and is not modelled). */
  datatype QName = QName(namespaceURI: string, localPart: string)

  // javax.xml.XMLConstants
  const NULL_NS_URI: string := ""
  const DEFAULT_NS_PREFIX: string := ""
  const XML_NS_PREFIX: string := "xml"
  const XML_NS_URI: string := "http://www.w3.org/XML/1998/namespace"
  const XMLNS_ATTRIBUTE: string := "xmlns"
  const XMLNS_ATTRIBUTE_NS_URI: string := "http://www.w3.org/2000/xmlns/"
  const FEATURE_SECURE_PROCESSING: string := "http://javax.xml.XMLConstants/feature/secure-processing"

  /** `new QName(namespaceURI, localPart)`: a null namespace means no
      namespace, a null local part is refused. */
  function NewQName(namespaceURI: Option<string>, localPart: Option<string>): (r: Result<QName>)
    ensures localPart.None? <==> r == Err(IllegalArgument)
    ensures localPart.Some? ==> r.Ok? && r.value.localPart == localPart.value
    ensures r.Ok? && namespaceURI.Some? ==> r.value.namespaceURI == namespaceURI.value
    ensures r.Ok? && namespaceURI.None? ==> r.value.namespaceURI == NULL_NS_URI
  {
    match localPart
    case None => Err(IllegalArgument)
    case Some(local) =>
      Ok(QName(match namespaceURI case None => NULL_NS_URI case Some(ns) => ns, local))
  }

  /** `QName.toString()`: the local part alone when there is no namespace,
      otherwise "{" namespace "}" local part. */
  function QNameText(q: QName): (s: string)
  {
    if q.namespaceURI == NULL_NS_URI then q.localPart
    else "{" + q.namespaceURI + "}" + q.localPart
  }

  /** A java.lang.Double. Positive and negative zero are not told apart. */
  datatype Double = NaN | Finite(value: real) | Infinite(positive: bool)

  // XPathValues.ZERO and XPathValues.ONE
  const ZERO: Double := Finite(0.0)
  const ONE: Double := Finite(1.0)
}
