/** NamespaceContextUnion: two namespace contexts queried in turn, the
    primary first and the secondary only when the primary gives no answer. */
module NamespaceUnion {
  import opened Base
  import opened Interfaces
  import NamespaceSupport

  /** The two contexts, fixed at construction. */
  datatype NamespaceContextUnion = NamespaceContextUnion(primary: NamespaceContext, secondary: NamespaceContext)

  /** The constructor: both contexts are required. */
  function Create(primary: Option<NamespaceContext>, secondary: Option<NamespaceContext>)
    : (r: Result<NamespaceContextUnion>)
    ensures r.Ok? <==> primary.Some? && secondary.Some?
    ensures r.Ok? ==> r.value.primary == primary.value && r.value.secondary == secondary.value
    ensures r.Err? ==> r.error == IllegalArgument
  {
    if primary.None? then Err(IllegalArgument)
    else if secondary.None? then Err(IllegalArgument)
    else Ok(NamespaceContextUnion(primary.value, secondary.value))
  }

  /** `getNamespaceURI(prefix)`: the primary's URI when it is neither null
      nor no namespace, otherwise the secondary's; never null. */
  function GetNamespaceURI(u: NamespaceContextUnion, prefix: string): (r: string)
    ensures var a := u.primary.namespaceURI(prefix);
            a.Some? && a.value != NULL_NS_URI ==> r == a.value
    ensures var a := u.primary.namespaceURI(prefix);
            var b := u.secondary.namespaceURI(prefix);
            (a.None? || a.value == NULL_NS_URI) ==> r == (if b.Some? then b.value else NULL_NS_URI)
  {
    var first := u.primary.namespaceURI(prefix);
    var answer := if first.None? || first.value == NULL_NS_URI then u.secondary.namespaceURI(prefix) else first;
    if answer.Some? then answer.value else NULL_NS_URI
  }

  /** `getPrefix(uri)`: the primary's prefix when it is neither null nor
      the default prefix, otherwise the secondary's, with null mapped to the
      default prefix. */
  function GetPrefix(u: NamespaceContextUnion, uri: string): (r: string)
    ensures var a := u.primary.prefix(uri);
            a.Some? && a.value != DEFAULT_NS_PREFIX ==> r == a.value
    ensures var a := u.primary.prefix(uri);
            var b := u.secondary.prefix(uri);
            (a.None? || a.value == DEFAULT_NS_PREFIX) ==> r == (if b.Some? then b.value else DEFAULT_NS_PREFIX)
  {
    var first := u.primary.prefix(uri);
    var answer := if first.None? || first.value == DEFAULT_NS_PREFIX then u.secondary.prefix(uri) else first;
    if answer.Some? then answer.value else DEFAULT_NS_PREFIX
  }

  /** `getPrefixes(uri)`: the primary's prefixes, then the secondary's,
      collected into a set, so each prefix of either context once. */
  method GetPrefixes(u: NamespaceContextUnion, uri: string) returns (r: set<string>)
    ensures forall p :: p in r <==> p in u.primary.prefixes(uri) || p in u.secondary.prefixes(uri)
  {
    r := {};
    var todo := u.primary.prefixes(uri);
    while todo != {}
      invariant todo <= u.primary.prefixes(uri)
      invariant forall p :: p in r <==> p in u.primary.prefixes(uri) && p !in todo
      decreases todo
    {
      var p :| p in todo;
      r := r + {p};
      todo := todo - {p};
    }
    todo := u.secondary.prefixes(uri);
    while todo != {}
      invariant todo <= u.secondary.prefixes(uri)
      invariant forall p :: p in r <==> p in u.primary.prefixes(uri) || (p in u.secondary.prefixes(uri) && p !in todo)
      decreases todo
    {
      var p :| p in todo;
      r := r + {p};
      todo := todo - {p};
    }
  }

  /** A union is itself a NamespaceContext. */
  function AsContext(u: NamespaceContextUnion): (c: NamespaceContext)
  {
    NamespaceContext(
      p => Some(GetNamespaceURI(u, p)),
      uri => Some(GetPrefix(u, uri)),
      uri => u.primary.prefixes(uri) + u.secondary.prefixes(uri))
  }

  /** Unions nest either way with the same answers: grouping (a, b) then c
      answers as a then (b, c) does. */
  lemma UnionAssociative(a: NamespaceContext, b: NamespaceContext, c: NamespaceContext, prefix: string, uri: string)
    ensures var left := NamespaceContextUnion(AsContext(NamespaceContextUnion(a, b)), c);
            var right := NamespaceContextUnion(a, AsContext(NamespaceContextUnion(b, c)));
            && GetNamespaceURI(left, prefix) == GetNamespaceURI(right, prefix)
            && GetPrefix(left, uri) == GetPrefix(right, uri)
            && AsContext(left).prefixes(uri) == AsContext(right).prefixes(uri)
  {
  }

  /** Over two tables, primary {p -> uriA} and secondary {p -> uriB, q -> uriC}:
      p gives uriA (the primary wins), q gives uriC (the secondary fills
      in), an unbound prefix gives no namespace, and only p is bound to uriA. */
  lemma TablesExample()
    ensures var u := NamespaceContextUnion(
              NamespaceSupport.TableContext(map["p" := "uriA"]),
              NamespaceSupport.TableContext(map["p" := "uriB", "q" := "uriC"]));
            && GetNamespaceURI(u, "p") == "uriA"
            && GetNamespaceURI(u, "q") == "uriC"
            && GetNamespaceURI(u, "r") == NULL_NS_URI
            && AsContext(u).prefixes("uriA") == {"p"}
  {
    var m2 := map["p" := "uriB", "q" := "uriC"];
    assert forall k :: k in m2 && m2[k] == "uriA" ==> false;
    assert (set k | k in map["p" := "uriA"] && map["p" := "uriA"][k] == "uriA") == {"p"};
    assert (set k | k in m2 && m2[k] == "uriA") == {};
  }
}
