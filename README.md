# JXPath behind javax.xml.xpath, in Dafny

This project models the adapter that makes the JXPath engine available
through the standard `javax.xml.xpath` API (`XPathFactory`, `XPath`,
`XPathExpression`), and proves properties of that model. The modelled parts are:

- **Value conversion** (`XPathValues`, module `XPathValues`). An evaluation
  result is coerced to one of the five `XPathConstants` result types:
  NUMBER, STRING, BOOLEAN, NODE and NODESET. This includes the
  string-value of a DOM node and the printing of integral doubles without
  ".0".
- **Node lists** (`NodeListImpl`, module `NodeLists`). A read-only DOM
  `NodeList` over a `java.util.List`.
- **Namespace tables** (`NamespaceContextSupport`, module
  `NamespaceSupport`). A mutable prefix-to-URI table, seeded with the
  bindings that section 3 of Namespaces in XML 1.0 reserves for `xml` and
  `xmlns`.
- **Namespace union** (`NamespaceContextUnion`, module `NamespaceUnion`).
  A primary context with a secondary fallback.
- **Variable registry** (`XPathVariableResolverSupport`, module
  `VariableResolvers`). A registry from QNames to values, with checked
  declare and undeclare.
- **Function registry** (`XPathFunctionResolverSupport`, module
  `FunctionResolvers`). A registry keyed by QName for functions of any
  arity, and by the text `arity + qname.toString()` for a fixed arity.
- **The provider** (`JXPathXPathFactory`, module `Factory`). This covers:
  - the secure-processing feature and the object-model check;
  - evaluators (`XPathImpl`) that remember the factory's resolvers and can
    be reset to them;
  - the JXPath context that `newContext` configures;
  - the variable and function adapters handed to JXPath;
  - compiled expressions that snapshot the evaluator's state;
  - the translation of JXPath's exceptions into the ones the
    `javax.xml.xpath` API declares.

Shared vocabulary lives in three modules:

- `Base`: null as `Option`, the exceptions, `Result`, QName, the
  `XMLConstants` strings and doubles.
- `Decimal`: `Long.toString`, with a reader that proves the text denotes
  its number.
- `Dom`: nodes, and the Java objects an evaluation produces.

The host interfaces (`NamespaceContext`, `XPathVariableResolver`,
`XPathFunctionResolver`, `XPathFunction`) are records of functions. They are
defined in module `Interfaces`.

The JXPath engine is the record `Factory.Engine`. It is a parameter of every
evaluation.

Where the code and its design notes differ, the model follows the code (the one departure from the code, the printing of the double 2^63, is under "## Findings"):

- A STRING conversion of a non-empty Collection takes its first element and
  does not recurse into it. A first element that is itself a collection is
  printed with `toString()`. A null first element raises
  NullPointerException.
- A Boolean under STRING prints "true" or "false".
- A node list's first item that is not a Node makes STRING and NODE raise.
  NUMBER catches this and gives NaN.

## Model

| member | source | states |
|---|---|---|
| `Base.NewQName` | src/main/java/org/apache/commons/jxpath/jaxp/XPathVariableResolverSupport.java:72-75 | `new QName(namespace, localPart)`: a null local part is refused with IllegalArgumentException; a null namespace becomes no namespace |
| `Decimal.LongTextRoundTrip` | src/main/java/org/apache/commons/jxpath/jaxp/XPathValues.java:203 | the text `Long.toString(k)` reads back as k, for every integer k |
| `Decimal.LongTextInjective` | src/main/java/org/apache/commons/jxpath/jaxp/XPathFunctionResolverSupport.java:62-65 | different numbers have different `Long.toString` text |
| `NodeLists.Create` | src/main/java/org/apache/commons/jxpath/jaxp/NodeListImpl.java:21-26 | the constructor succeeds exactly on a List, wraps its elements unchanged, and raises on anything else, null included |
| `NodeLists.Item` | src/main/java/org/apache/commons/jxpath/jaxp/NodeListImpl.java:39-51 | `item(i)` returns element i exactly when i is within `getLength()` and the element is a Node; a String element, any other element and an index outside the list each raise their own exception |
| `NodeLists.CreateOverNodes` | src/main/java/org/apache/commons/jxpath/jaxp/NodeListImpl.java:21-45 | a list of nodes, wrapped, has the list's length, and item i is the i-th node |
| `NodeLists.EmptyHasNoItems` | src/main/java/org/apache/commons/jxpath/jaxp/NodeListImpl.java:15 | EMPTY is the wrapping of the empty list, has length 0 and no item |
| `XPathValues.ChildrenValueSplit` | src/main/java/org/apache/commons/jxpath/jaxp/XPathValues.java:235-243 | the string-value of a run of siblings is the concatenation of the string-values of its parts |
| `XPathValues.CommentChildIgnored` | src/main/java/org/apache/commons/jxpath/jaxp/XPathValues.java:244 | removing a comment child leaves its parent's string-value unchanged |
| `XPathValues.AppendStringValue` | src/main/java/org/apache/commons/jxpath/jaxp/XPathValues.java:232-245 | `toStringAppend(n, buf)` leaves the buffer extended by exactly the string-value of n: a node's own value unless it is a comment, otherwise its children's string-values in sibling order |
| `XPathValues.GetStringValueOfNode` | src/main/java/org/apache/commons/jxpath/jaxp/XPathValues.java:226-231 | the result is the string-value of the node |
| `XPathValues.StringOfNodeList` | src/main/java/org/apache/commons/jxpath/jaxp/XPathValues.java:215-219 | "" for an empty list, the string-value of item 0 when it is a node, otherwise the exception `item(0)` raises |
| `XPathValues.AsWrittenMisprintsTwoTo63` | src/main/java/org/apache/commons/jxpath/jaxp/XPathValues.java:198-207 | as written, the double 2^63 passes the long round-trip test and prints as 2^63 - 1 |
| `XPathValues.StringOfDoubleAsWritten` | src/main/java/org/apache/commons/jxpath/jaxp/XPathValues.java:198-207 | as written: a double that survives the round trip through long prints as text denoting `longValue()`, any other as `Double.toString` |
| `XPathValues.StringOfDouble` | src/main/java/org/apache/commons/jxpath/jaxp/XPathValues.java:198-207 | an integral double in the long range prints as decimal text denoting the same integer (no ".0"); every other double, 2^63 included, prints as `Double.toString` |
| `XPathValues.CorrectionOnlyAtTwoTo63` | src/main/java/org/apache/commons/jxpath/jaxp/XPathValues.java:198-207 | the corrected rendering agrees with the written one on every double except 2^63 |
| `XPathValues.DoubleStringAsWrittenElsewhere` | src/main/java/org/apache/commons/jxpath/jaxp/XPathValues.java:136-137 | a Double other than 2^63 converts to STRING exactly as the code as written prints it |
| `XPathValues.ToNumber` | src/main/java/org/apache/commons/jxpath/jaxp/XPathValues.java:62-106 | NUMBER never raises. A string, a node's string-value or a node list's first string-value is parsed, giving NaN when parsing or `item(0)` fails. A Double is unchanged, true is 1 and false is 0. Null and anything else give NaN |
| `XPathValues.ToBoolean` | src/main/java/org/apache/commons/jxpath/jaxp/XPathValues.java:141-165 | BOOLEAN is false exactly for null, false, "", an empty node set, node list or collection, NaN and zero |
| `XPathValues.ConvertToString` | src/main/java/org/apache/commons/jxpath/jaxp/XPathValues.java:107-140 | STRING: null gives "", a String itself, a node its string-value, a node list the string-value of item 0, a Boolean "true" or "false", a Double its rendering, any other object its `toString()`, an empty collection ""; the only failures are NullPointer, UnexpectedString and UnknownObject |
| `XPathValues.CollectionUsesFirstElement` | src/main/java/org/apache/commons/jxpath/jaxp/XPathValues.java:114-138 | a non-empty collection converts to STRING as its first element does, except that a null first element raises and a collection first element is printed |
| `XPathValues.ConvertToNode` | src/main/java/org/apache/commons/jxpath/jaxp/XPathValues.java:166-178 | NODE: a node is unchanged, a node list gives item 0 or null when empty; anything else, null included, raises XPathExpressionException |
| `XPathValues.ConvertToNodeSet` | src/main/java/org/apache/commons/jxpath/jaxp/XPathValues.java:179-190 | NODESET succeeds exactly on a node list, returned unchanged, and raises XPathExpressionException otherwise |
| `XPathValues.ConvertValue` | src/main/java/org/apache/commons/jxpath/jaxp/XPathValues.java:59-194 | NUMBER is `ToNumber`, BOOLEAN is `ToBoolean`, STRING succeeds or fails as `ConvertToString` does, NODE gives the node `ConvertToNode` finds (null for none) or its exception, and NODESET succeeds exactly on a node list, returned unchanged, failing otherwise as `ConvertToNodeSet` does; NUMBER and BOOLEAN never fail; XPathExpressionException comes only from NODE and NODESET (null is refused by both); IllegalArgumentException exactly for an unknown return type; the result has the requested shape; the possible exceptions are listed |
| `XPathValues.NodeListUsesFirstItem` | src/main/java/org/apache/commons/jxpath/jaxp/XPathValues.java:75-176 | a node list whose first item is a node converts to STRING, NUMBER, BOOLEAN and NODE as that node does |
| `XPathValues.BooleanNumberRoundTrip` | src/main/java/org/apache/commons/jxpath/jaxp/XPathValues.java:101-162 | NUMBER then BOOLEAN gives back the boolean |
| `XPathValues.IntegralTextRoundTrip` | src/main/java/org/apache/commons/jxpath/jaxp/XPathValues.java:86-137 | text that parses to an integral number in the long range comes back from NUMBER then STRING as digits denoting that number ("3.0" gives "3") |
| `XPathValues.UnparsableTextIsFalseNumber` | src/main/java/org/apache/commons/jxpath/jaxp/XPathValues.java:86-162 | text that does not parse is NaN as a NUMBER, and that NaN is false as a BOOLEAN |
| `NamespaceSupport.InitialBindings` | src/main/java/org/apache/commons/jxpath/jaxp/NamespaceContextSupport.java:19-26 | a fresh table binds exactly "xml" to the XML namespace, "xmlns" to the xmlns namespace and "" to no namespace |
| `NamespaceSupport.NamespaceContextSupport.constructor` | src/main/java/org/apache/commons/jxpath/jaxp/NamespaceContextSupport.java:19-26 | a new table holds the initial bindings |
| `NamespaceSupport.NamespaceContextSupport.Put` | src/main/java/org/apache/commons/jxpath/jaxp/NamespaceContextSupport.java:28-32 | a null prefix or URI raises IllegalArgumentException and changes nothing; otherwise the prefix is bound to the URI, replacing an earlier binding, and nothing else changes |
| `NamespaceSupport.NamespaceContextSupport.GetNamespaceURI` | src/main/java/org/apache/commons/jxpath/jaxp/NamespaceContextSupport.java:34-47 | a null prefix raises; a bound prefix gives its URI; an unbound one gives "" |
| `NamespaceSupport.NamespaceContextSupport.GetPrefix` | src/main/java/org/apache/commons/jxpath/jaxp/NamespaceContextSupport.java:49-58 | a null URI raises; otherwise the result is some prefix bound to the URI, or null exactly when none is |
| `NamespaceSupport.NamespaceContextSupport.GetPrefixes` | src/main/java/org/apache/commons/jxpath/jaxp/NamespaceContextSupport.java:60-70 | a null URI raises; otherwise the result holds exactly the prefixes bound to the URI, each once |
| `NamespaceSupport.PutThenLookup` | src/main/java/org/apache/commons/jxpath/jaxp/NamespaceContextSupport.java:19-47 | after `put(p, u)`, p gives u and every other prefix what it gave before; a fresh table answers the reserved bindings |
| `NamespaceSupport.TableContextAnswers` | src/main/java/org/apache/commons/jxpath/jaxp/NamespaceContextSupport.java:34-70 | the table seen as a NamespaceContext answers `getNamespaceURI` as the method does, lists exactly the prefixes bound to a URI, and gives some bound prefix or null exactly when none is bound |
| `NamespaceUnion.Create` | src/main/java/org/apache/commons/jxpath/jaxp/NamespaceContextUnion.java:29-34 | the union is built exactly when both contexts are non-null, and IllegalArgumentException is raised otherwise |
| `NamespaceUnion.GetNamespaceURI` | src/main/java/org/apache/commons/jxpath/jaxp/NamespaceContextUnion.java:35-44 | the primary's URI unless it is null or "", otherwise the secondary's, with null mapped to ""; never null |
| `NamespaceUnion.GetPrefix` | src/main/java/org/apache/commons/jxpath/jaxp/NamespaceContextUnion.java:46-54 | the primary's prefix unless it is null or the default prefix, otherwise the secondary's, with null mapped to "" |
| `NamespaceUnion.GetPrefixes` | src/main/java/org/apache/commons/jxpath/jaxp/NamespaceContextUnion.java:56-64 | a prefix is in the result exactly when either context lists it for the URI |
| `NamespaceUnion.UnionAssociative` | src/main/java/org/apache/commons/jxpath/jaxp/NamespaceContextUnion.java:35-64 | nesting unions either way, (a, b) then c or a then (b, c), gives the same answers |
| `NamespaceUnion.TablesExample` | src/main/java/org/apache/commons/jxpath/jaxp/NamespaceContextUnion.java:35-44 | with primary {p: uriA} and secondary {p: uriB, q: uriC}: p gives uriA, q gives uriC, an unbound prefix "", and only p is bound to uriA |
| `VariableResolvers.Declare` | src/main/java/org/apache/commons/jxpath/jaxp/XPathVariableResolverSupport.java:41-49 | a null name raises NullPointerException, an empty local part and then a null value raise IllegalArgumentException; otherwise the name resolves to the value and every other name as before |
| `VariableResolvers.Undeclare` | src/main/java/org/apache/commons/jxpath/jaxp/XPathVariableResolverSupport.java:57-63 | an empty local part raises; otherwise the name resolves to null and every other name as before, and the table is unchanged when the name was not declared |
| `VariableResolvers.XPathVariableResolverSupport.ResolveVariable` | src/main/java/org/apache/commons/jxpath/jaxp/XPathVariableResolverSupport.java:28-31 | the value stored under exactly that name; null exactly when the name is null or not declared |
| `VariableResolvers.XPathVariableResolverSupport.DeclareVariable` | src/main/java/org/apache/commons/jxpath/jaxp/XPathVariableResolverSupport.java:41-49 | the registry becomes `Declare`'s table, or stays as it was and the method raises `Declare`'s exception; no declared value is ever null |
| `VariableResolvers.XPathVariableResolverSupport.UndeclareVariable` | src/main/java/org/apache/commons/jxpath/jaxp/XPathVariableResolverSupport.java:57-63 | the registry becomes `Undeclare`'s table, or stays as it was and the method raises |
| `VariableResolvers.XPathVariableResolverSupport.DeclareVariableIn` | src/main/java/org/apache/commons/jxpath/jaxp/XPathVariableResolverSupport.java:72-75 | a null local part raises IllegalArgumentException; otherwise declares under QName(namespace, localPart) |
| `VariableResolvers.XPathVariableResolverSupport.UndeclareVariableIn` | src/main/java/org/apache/commons/jxpath/jaxp/XPathVariableResolverSupport.java:84-87 | a null local part raises; otherwise undeclares QName(namespace, localPart) |
| `VariableResolvers.XPathVariableResolverSupport.DeclareVariableNamed` | src/main/java/org/apache/commons/jxpath/jaxp/XPathVariableResolverSupport.java:95-98 | declares under the name in no namespace |
| `VariableResolvers.XPathVariableResolverSupport.UndeclareVariableNamed` | src/main/java/org/apache/commons/jxpath/jaxp/XPathVariableResolverSupport.java:107-110 | undeclares the name in no namespace |
| `VariableResolvers.XPathVariableResolverSupport.AsResolver` | src/main/java/org/apache/commons/jxpath/jaxp/XPathVariableResolverSupport.java:28-31 | the registry seen as an XPathVariableResolver answers as `resolveVariable` does |
| `VariableResolvers.DeclarePreservesNoNull` | src/main/java/org/apache/commons/jxpath/jaxp/XPathVariableResolverSupport.java:41-63 | declare and undeclare never store a null value, so null from `resolveVariable` means "not declared" |
| `VariableResolvers.DeclareUndeclareLaws` | src/main/java/org/apache/commons/jxpath/jaxp/XPathVariableResolverSupport.java:41-63 | declaring a new name then undeclaring it restores the table; undeclaring twice is undeclaring once; the second of two declarations wins |
| `FunctionResolvers.KeyFor` | src/main/java/org/apache/commons/jxpath/jaxp/XPathFunctionResolverSupport.java:54-58 | for ARITY_ANY (-1) the key is the QName itself; for any other arity it is the text of the arity followed by `qname.toString()` |
| `FunctionResolvers.Register` | src/main/java/org/apache/commons/jxpath/jaxp/XPathFunctionResolverSupport.java:49-60 | the function is stored under its key and every other entry is kept |
| `FunctionResolvers.Resolve` | src/main/java/org/apache/commons/jxpath/jaxp/XPathFunctionResolverSupport.java:30-39 | the any-arity entry of the name wins whatever the arity; otherwise the entry for the arity; null exactly when neither key is present |
| `FunctionResolvers.XPathFunctionResolverSupport.RegisterFunction` | src/main/java/org/apache/commons/jxpath/jaxp/XPathFunctionResolverSupport.java:49-60 | a null name or function raises IllegalArgumentException and changes nothing; otherwise the registry becomes `Register`'s |
| `FunctionResolvers.XPathFunctionResolverSupport.ResolveFunction` | src/main/java/org/apache/commons/jxpath/jaxp/XPathFunctionResolverSupport.java:30-39 | a null name raises NullPointerException while the key is built; otherwise `Resolve` on the registry |
| `FunctionResolvers.XPathFunctionResolverSupport.AsResolver` | src/main/java/org/apache/commons/jxpath/jaxp/XPathFunctionResolverSupport.java:30-39 | the registry seen as an XPathFunctionResolver answers as `resolveFunction` does |
| `FunctionResolvers.QNameTextInjective` | src/main/java/org/apache/commons/jxpath/jaxp/XPathFunctionResolverSupport.java:64 | for local parts without braces that do not start with a digit or '-', `QName.toString` tells names apart |
| `FunctionResolvers.ArityKeyInjective` | src/main/java/org/apache/commons/jxpath/jaxp/XPathFunctionResolverSupport.java:62-65 | for such local parts, `arity + qname.toString()` determines both the arity and the name |
| `FunctionResolvers.KeyForInjective` | src/main/java/org/apache/commons/jxpath/jaxp/XPathFunctionResolverSupport.java:54-65 | for such local parts, two registrations share a key only when they have the same name and arity |
| `FunctionResolvers.ArityKeyCollision` | src/main/java/org/apache/commons/jxpath/jaxp/XPathFunctionResolverSupport.java:62-65 | without that condition keys collide: local "3" with arity 12 and "23" with arity 1 share "123", and a function registered for one is found for the other |
| `FunctionResolvers.ResolveAfterRegister` | src/main/java/org/apache/commons/jxpath/jaxp/XPathFunctionResolverSupport.java:30-60 | right after registering, an any-arity function answers for every arity, and a fixed-arity one answers for its arity unless an any-arity function of the name shadows it |
| `FunctionResolvers.ReRegisterReplaces` | src/main/java/org/apache/commons/jxpath/jaxp/XPathFunctionResolverSupport.java:58 | registering twice under the same name and arity keeps only the second function |
| `FunctionResolvers.RegisterOtherUnaffected` | src/main/java/org/apache/commons/jxpath/jaxp/XPathFunctionResolverSupport.java:30-65 | for plain local parts, a registration changes only the resolution of its own name (every arity for ARITY_ANY, its arity otherwise) |
| `Factory.NewContext` | src/main/java/org/apache/commons/jxpath/jaxp/JXPathXPathFactory.java:158-177 | the context is always lenient; secure mode installs the secure functions whatever the resolver; otherwise the function adapter is installed exactly when a function resolver is set, and the variable adapter exactly when a variable resolver is set |
| `Factory.GetVariable` | src/main/java/org/apache/commons/jxpath/jaxp/JXPathXPathFactory.java:250-254 | the host is asked for the name in no namespace; a null name raises |
| `Factory.IsDeclaredVariable` | src/main/java/org/apache/commons/jxpath/jaxp/JXPathXPathFactory.java:256-259 | true exactly when the host's value is non-null |
| `Factory.DeclareVariable` | src/main/java/org/apache/commons/jxpath/jaxp/JXPathXPathFactory.java:245-248 | always raises |
| `Factory.UndeclareVariable` | src/main/java/org/apache/commons/jxpath/jaxp/JXPathXPathFactory.java:261-264 | always raises |
| `Factory.VariablesOverSupportTable` | src/main/java/org/apache/commons/jxpath/jaxp/JXPathXPathFactory.java:250-259 | over an XPathVariableResolverSupport registry, a JXPath variable is declared exactly when its name in no namespace is declared there |
| `Factory.GetFunction` | src/main/java/org/apache/commons/jxpath/jaxp/JXPathXPathFactory.java:275-335 | the secure functions answer the secure function for everything; the adapter maps the prefix through the namespace context, if any, and wraps what the host resolver gives for that name and the argument count; null exactly when the host has nothing |
| `Factory.Argument` | src/main/java/org/apache/commons/jxpath/jaxp/JXPathXPathFactory.java:358-364 | a NodeSet becomes a node list over its nodes, anything else is unchanged, and no NodeSet reaches the host |
| `Factory.Arguments` | src/main/java/org/apache/commons/jxpath/jaxp/JXPathXPathFactory.java:355-366 | the argument list has the parameters' length and order, each converted by `Argument` |
| `Factory.ConvertArguments` | src/main/java/org/apache/commons/jxpath/jaxp/JXPathXPathFactory.java:355-366 | the loop builds exactly `Arguments(params)` |
| `Factory.Rethrow` | src/main/java/org/apache/commons/jxpath/jaxp/JXPathXPathFactory.java:367-374 | an XPathFunctionException becomes a JXPathException caused by it; anything else passes through; no XPathFunctionException escapes |
| `Factory.Invoke` | src/main/java/org/apache/commons/jxpath/jaxp/JXPathXPathFactory.java:290-375 | the secure function always raises SecureFunctionException; a host function is evaluated on the converted arguments with its XPathFunctionException rethrown |
| `Factory.Translate` | src/main/java/org/apache/commons/jxpath/jaxp/JXPathXPathFactory.java:456-461 | SecureFunctionException becomes XPathFunctionException, any other JXPathException becomes XPathExpressionException, each caused by the original; neither JXPath exception survives |
| `Factory.SecureModeRefusesFunctions` | src/main/java/org/apache/commons/jxpath/jaxp/JXPathXPathFactory.java:158-298 | in secure mode every function name finds the secure function, whose failure reaches the caller as XPathFunctionException |
| `Factory.HostFunctionErrorReachesCaller` | src/main/java/org/apache/commons/jxpath/jaxp/JXPathXPathFactory.java:367-461 | a host function's XPathFunctionException reaches the caller as XPathExpressionException caused by the wrapping JXPathException |
| `Factory.FunctionsOverSupportRegistry` | src/main/java/org/apache/commons/jxpath/jaxp/JXPathXPathFactory.java:325-335 | over an XPathFunctionResolverSupport registry, a call with n arguments finds the function just registered for that name and arity n |
| `Factory.FunctionPrefixThroughTable` | src/main/java/org/apache/commons/jxpath/jaxp/JXPathXPathFactory.java:329-333 | with a NamespaceContextSupport table as context, the prefix is looked up in the table (an unbound prefix means no namespace), and the function found under that URI, name and argument count is the one wrapped; null exactly when the host has none |
| `Factory.JXPathXPathFactory.constructor` | src/main/java/org/apache/commons/jxpath/jaxp/JXPathXPathFactory.java:63-71 | a new factory has no resolvers and secure processing off |
| `Factory.JXPathXPathFactory.GetFeature` | src/main/java/org/apache/commons/jxpath/jaxp/JXPathXPathFactory.java:76-83 | succeeds exactly for the secure-processing feature, giving the flag; a null name raises NullPointerException and any other name XPathFactoryConfigurationException |
| `Factory.JXPathXPathFactory.SetFeature` | src/main/java/org/apache/commons/jxpath/jaxp/JXPathXPathFactory.java:88-95 | succeeds exactly for the secure-processing feature, after which `getFeature` returns the value set; otherwise raises as `getFeature` does and nothing changes |
| `Factory.JXPathXPathFactory.IsObjectModelSupported` | src/main/java/org/apache/commons/jxpath/jaxp/JXPathXPathFactory.java:100-104 | true exactly for the JXPath and the DOM object model URIs; a null URI raises |
| `Factory.JXPathXPathFactory.NewXPath` | src/main/java/org/apache/commons/jxpath/jaxp/JXPathXPathFactory.java:109-112 | a fresh evaluator with the factory's current resolvers and secure flag, no namespace context, and those resolvers remembered for `reset` |
| `Factory.JXPathXPathFactory.SetXPathFunctionResolver` | src/main/java/org/apache/commons/jxpath/jaxp/JXPathXPathFactory.java:117-120 | sets the default function resolver, null accepted, and changes nothing else |
| `Factory.JXPathXPathFactory.SetXPathVariableResolver` | src/main/java/org/apache/commons/jxpath/jaxp/JXPathXPathFactory.java:125-128 | sets the default variable resolver, null accepted, and changes nothing else |
| `Factory.ObjectModelExamples` | src/test/java/org/apache/commons/jxpath/jaxp/TestJXPathJaxp.java:26-43 | the JXPath and DOM models are supported and an unknown URI is not |
| `Factory.XPathImpl.constructor` | src/main/java/org/apache/commons/jxpath/jaxp/JXPathXPathFactory.java:392-400 | the current and the remembered resolvers are the ones passed, and there is no namespace context |
| `Factory.XPathImpl.SetNamespaceContext` | src/main/java/org/apache/commons/jxpath/jaxp/JXPathXPathFactory.java:182-210 | null raises NullPointerException and changes nothing; otherwise `getNamespaceContext` returns the context set and the resolvers are unchanged |
| `Factory.XPathImpl.SetXPathFunctionResolver` | src/main/java/org/apache/commons/jxpath/jaxp/JXPathXPathFactory.java:190-219 | null raises and changes nothing; otherwise `getXPathFunctionResolver` returns the resolver set and the rest is unchanged |
| `Factory.XPathImpl.SetXPathVariableResolver` | src/main/java/org/apache/commons/jxpath/jaxp/JXPathXPathFactory.java:198-229 | null raises and changes nothing; otherwise `getXPathVariableResolver` returns the resolver set and the rest is unchanged |
| `Factory.XPathImpl.Reset` | src/main/java/org/apache/commons/jxpath/jaxp/JXPathXPathFactory.java:477-496 | the resolvers go back to the ones from creation, whatever was set since, and the namespace context to null |
| `Factory.XPathImpl.Compile` | src/main/java/org/apache/commons/jxpath/jaxp/JXPathXPathFactory.java:405-416 | a compiler JXPathException becomes XPathExpressionException; on success the expression carries the evaluator's current resolvers, namespace context and secure flag |
| `Factory.XPathImpl.Evaluate` | src/main/java/org/apache/commons/jxpath/jaxp/JXPathXPathFactory.java:437-462 | NODE returns the engine's node unconverted, NODESET wraps the engine's list in a node list, other types go through `convertValue`; an engine failure is translated: SecureFunctionException becomes XPathFunctionException and any other JXPathException XPathExpressionException, each caused by it; no JXPath exception reaches the caller |
| `Factory.XPathImpl.EvaluateToString` | src/main/java/org/apache/commons/jxpath/jaxp/JXPathXPathFactory.java:421-424 | the STRING evaluation, always a string when it succeeds |
| `Factory.SecureFailureReachesCaller` | src/main/java/org/apache/commons/jxpath/jaxp/JXPathXPathFactory.java:456-461 | when the engine fails with SecureFunctionException, evaluation for every return type raises XPathFunctionException caused by it |
| `Factory.XPathExpressionImpl.EvaluationResult` | src/main/java/org/apache/commons/jxpath/jaxp/JXPathXPathFactory.java:539-580 | a null object raises NullPointerException; NODE gives the first pointer's node (null when there is none); NODESET gives a node list of the pointers' nodes in order; other types convert the first pointer's node; an engine failure is translated as `Translate` says, so no JXPath exception reaches the caller |
| `Factory.XPathExpressionImpl.EvaluationString` | src/main/java/org/apache/commons/jxpath/jaxp/JXPathXPathFactory.java:523-526 | `evaluate(obj)` is the STRING evaluation, always a string when it succeeds, failing exactly as it does |
| `Factory.XPathExpressionImpl.Evaluate` | src/main/java/org/apache/commons/jxpath/jaxp/JXPathXPathFactory.java:539-580 | the method, which collects the pointers' nodes in a loop, returns exactly `EvaluationResult` |
| `Factory.CompiledIgnoresLaterSetters` | src/main/java/org/apache/commons/jxpath/jaxp/JXPathXPathFactory.java:405-518 | after compiling, giving the XPath a new namespace context and new resolvers leaves the compiled expression's evaluation unchanged and in the compile-time context, while an expression compiled afresh carries the new settings |
| `Factory.DocumentBuilderConfig` | src/main/java/org/apache/commons/jxpath/jaxp/JXPathXPathFactory.java:636-659 | the parser is non-validating, namespace aware and coalescing, and expands entity references exactly outside secure mode |

## Left out

- XPathValues.ConvertToString: prints the Double 2^63 with `Double.toString` (the `Platform.toText` parameter), where the code as written prints "9223372036854775807"; every other Double is printed as written (`XPathValues.DoubleStringAsWrittenElsewhere`). The same holds for STRING in `XPathValues.ConvertValue` and the evaluate methods.
- Factory.GetFunction: a host NamespaceContext is a total function on non-null prefixes, so the model assumes the host follows the NamespaceContext contract and refuses a null prefix with IllegalArgumentException; a host that answered a null prefix otherwise is not modelled.
- NamespaceUnion.GetNamespaceURI, NamespaceUnion.GetPrefix and NamespaceUnion.GetPrefixes take non-null arguments: the union forwards a null prefix or URI to the primary context, whose IllegalArgumentException (the NamespaceContext contract) the model does not represent, since host contexts are modelled as functions that cannot raise.
- Exception messages are not modelled, only exception classes and the causes the adapter attaches.
- The JXPath engine (compile, selectSingleNode, selectNodes, getPointer, iteratePointers) is the parameter `Factory.Engine`. The model assumes the engine passes exceptions thrown by extension functions through unchanged; the catch clauses in evaluate rely on the same assumption.
- Document loading (`getDocument`, parsing an InputSource, and the InputSource overloads of evaluate) is parser I/O. Only the builder configuration is modelled.
- `new Double(String)`, `Double.toString` and `Object.toString()` of other objects are parameters: the record `XPathValues.Platform`.
- Negative zero is not distinguished from zero. NaN is a single value. The model has no other floating-point detail.
- A DOM node that is also a NodeList is not modelled. Every node is taken as a Node, which the conversions test first.
- Host resolvers and namespace contexts are behaviour (records of functions), not objects. Aliasing is therefore not captured: a support registry mutated after it was handed to an evaluator is seen only as it was when handed over.
- A null return type is not modelled separately. The source treats it as any other unsupported type.
- Arities are unbounded integers. `int` overflow cannot arise from the argument counts the adapter passes.
- The setters XPathExpressionImpl inherits are unreachable through the XPathExpression interface, so the compiled expression is an immutable value.
- `getUsedNamespaces`, `serialVersionUID` and the unreachable `Error` in `convertToString` are not modelled. There is no concurrency.
- The getters of XPathImpl are plain field reads. They have no contract of their own and are stated through the setters' contracts.
- `NodeLists.Length` (`getLength`) has no contract of its own. It is stated through `NodeLists.Item` and `NodeLists.CreateOverNodes`.

## Findings

| source | as written | input that shows it | evidently intended | confidence | as-written member | corrected member |
|---|---|---|---|---|---|---|
| src/main/java/org/apache/commons/jxpath/jaxp/XPathValues.java:198-207 | the long round-trip test accepts the double 2^63, because `longValue()` saturates to 2^63 - 1 and that long converts back to the double 2^63 | the Double 9223372036854775808.0 under STRING prints "9223372036854775807" | an integral double prints as the integer it denotes, and one outside the long range uses `Double.toString` | not executed | `XPathValues.AsWrittenMisprintsTwoTo63` | `XPathValues.StringOfDouble` |
