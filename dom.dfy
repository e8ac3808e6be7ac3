/** The values that flow between the XPath engine, the host's callbacks and
    the conversion rules: DOM nodes, node lists and the other Java objects
    an evaluation can produce. */
module Dom {
  import opened Base

  /** An org.w3c.dom.Node, reduced to what its string-value depends on:
      its node value (null for elements and documents), whether it is a
      Comment, and its children in sibling order. */
  datatype Node = Node(nodeValue: Option<string>, isComment: bool, children: seq<Node>)

  /** A java.lang.Object as the adapter inspects it with `instanceof`. */
  datatype RawValue =
    | Null
    | Str(s: string)                                    // java.lang.String
    | Dbl(d: Double)                                    // java.lang.Double
    | Bool(b: bool)                                     // java.lang.Boolean
    | NodeV(node: Node)                                 // org.w3c.dom.Node
    | NodeListV(nodeList: NodeList)                     // org.w3c.dom.NodeList
    | NodeSetV(nodes: seq<RawValue>)                    // a JXPath NodeSet, by its getNodes()
    | CollectionV(elements: seq<RawValue>, isList: bool) // a java.util.Collection in iteration order
    | Other(id: nat)                                    // any other object

  /** A node list as NodeListImpl holds it: the wrapped java.util.List. A
      DOM implementation's own node list is one whose elements are all nodes. */
  datatype NodeList = NodeList(list: seq<RawValue>)
}
