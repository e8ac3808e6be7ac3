/** NodeListImpl: a read-only org.w3c.dom.NodeList view over a java.util.List.
    The wrapped list is a value fixed at construction, so no operation here
    can change it. */
module NodeLists {
  import opened Base
  import opened Dom

  /** `NodeListImpl.EMPTY`, built over `Collections.EMPTY_LIST`. */
  const EMPTY: NodeList := NodeList([])

  /** The constructor: it accepts a java.util.List and refuses any other
      object, null included. */
  function Create(o: RawValue): (r: Result<NodeList>)
    ensures r.Ok? <==> o.CollectionV? && o.isList
    ensures r.Ok? ==> r.value.list == o.elements
    ensures r.Err? ==> r.error == Unsupported
  {
    if o.CollectionV? && o.isList then Ok(NodeList(o.elements)) else Err(Unsupported)
  }

  /** `getLength()`: the size of the wrapped list. */
  function Length(l: NodeList): (n: nat)
  {
    |l.list|
  }

  /** `item(index)`: the element at `index` when it is a node. A string or
      any other element raises, and so does an index outside the list
      (`List.get` throws rather than returning null). */
  function Item(l: NodeList, index: int): (r: Result<Node>)
    ensures r.Ok? <==> 0 <= index < Length(l) && l.list[index].NodeV?
    ensures r.Ok? ==> l.list[index] == NodeV(r.value)
    ensures !(0 <= index < Length(l)) ==> r == Err(IndexOutOfBounds)
    ensures 0 <= index < Length(l) && l.list[index].Str? ==> r == Err(UnexpectedString)
    ensures 0 <= index < Length(l) && !l.list[index].Str? && !l.list[index].NodeV? ==> r == Err(UnknownObject)
  {
    if index < 0 || index >= |l.list| then Err(IndexOutOfBounds)
    else match l.list[index]
      case NodeV(n) => Ok(n)
      case Str(_) => Err(UnexpectedString)
      case _ => Err(UnknownObject)
  }

  /** A list of nodes, wrapped, reads back element by element: the length is
      the list's size and item i is the i-th node. */
  lemma CreateOverNodes(nodes: seq<Node>)
    ensures var r := Create(CollectionV(seq(|nodes|, i requires 0 <= i < |nodes| => NodeV(nodes[i])), true));
            r.Ok? && Length(r.value) == |nodes| &&
            forall i :: 0 <= i < |nodes| ==> Item(r.value, i) == Ok(nodes[i])
  {
  }

  /** EMPTY is the wrapping of an empty list: it has no items at all. */
  lemma EmptyHasNoItems(index: int)
    ensures Create(CollectionV([], true)) == Ok(EMPTY)
    ensures Length(EMPTY) == 0
    ensures Item(EMPTY, index) == Err(IndexOutOfBounds)
  {
  }
}
