/** NamespaceContextSupport: a mutable prefix-to-URI table, seeded with the
    bindings that section 3 of Namespaces in XML 1.0 reserves for the `xml`
    and `xmlns` prefixes and with the default prefix bound to no namespace. */
module NamespaceSupport {
  import opened Base
  import opened Interfaces

  /** The bindings of a fresh table. */
  function InitialBindings(): (m: map<string, string>)
    ensures m.Keys == {XML_NS_PREFIX, XMLNS_ATTRIBUTE, DEFAULT_NS_PREFIX}
    ensures m[XML_NS_PREFIX] == XML_NS_URI
    ensures m[XMLNS_ATTRIBUTE] == XMLNS_ATTRIBUTE_NS_URI
    ensures m[DEFAULT_NS_PREFIX] == NULL_NS_URI
  {
    map[XML_NS_PREFIX := XML_NS_URI, XMLNS_ATTRIBUTE := XMLNS_ATTRIBUTE_NS_URI, DEFAULT_NS_PREFIX := NULL_NS_URI]
  }

  /** What `getNamespaceURI` answers for a prefix: its binding, or no
      namespace when it is unbound. */
  function UriOf(m: map<string, string>, prefix: string): string
  {
    if prefix in m then m[prefix] else NULL_NS_URI
  }

  class NamespaceContextSupport {
    var bindings: map<string, string>

    constructor ()
      ensures bindings == InitialBindings()
    {
      bindings := InitialBindings();
    }

    /** `put(prefix, uri)`: binds the prefix, replacing an earlier binding;
        a null prefix or a null URI is refused and nothing changes. */
    method Put(prefix: Option<string>, uri: Option<string>) returns (r: Outcome)
      modifies this
      ensures r.Raised? <==> prefix.None? || uri.None?
      ensures r.Raised? ==> r.error == IllegalArgument && bindings == old(bindings)
      ensures r.Done? ==> bindings == old(bindings)[prefix.value := uri.value]
    {
      if prefix.None? {
        return Raised(IllegalArgument);
      }
      if uri.None? {
        return Raised(IllegalArgument);
      }
      bindings := bindings[prefix.value := uri.value];
      r := Done;
    }

    /** `getNamespaceURI(prefix)`: the bound URI, or no namespace ("") for
        an unbound prefix rather than a failure; a null prefix is refused. */
    function GetNamespaceURI(prefix: Option<string>): (r: Result<string>)
      reads this
      ensures prefix.None? <==> r == Err(IllegalArgument)
      ensures prefix.Some? && prefix.value in bindings ==> r == Ok(bindings[prefix.value])
      ensures prefix.Some? && prefix.value !in bindings ==> r == Ok(NULL_NS_URI)
    {
      match prefix
      case None => Err(IllegalArgument)
      case Some(p) => Ok(UriOf(bindings, p))
    }

    /** `getPrefix(uri)`: scans the entries and returns the first prefix
        bound to the URI, null when there is none. The scan order is the hash
        map's, so the result is only known to be some prefix bound to the
        URI. A null URI is refused. */
    method GetPrefix(uri: Option<string>) returns (r: Result<Option<string>>)
      ensures uri.None? <==> r == Err(IllegalArgument)
      ensures uri.Some? ==> r.Ok?
      ensures r.Ok? && r.value.Some? ==> r.value.value in bindings && bindings[r.value.value] == uri.value
      ensures r.Ok? && r.value.None? ==> forall p :: p in bindings ==> bindings[p] != uri.value
    {
      if uri.None? {
        return Err(IllegalArgument);
      }
      var u := uri.value;
      var unseen := bindings.Keys;
      while unseen != {}
        invariant unseen <= bindings.Keys
        invariant forall p :: p in bindings && p !in unseen ==> bindings[p] != u
        decreases unseen
      {
        var p :| p in unseen;
        if bindings[p] == u {
          return Ok(Some(p));
        }
        unseen := unseen - {p};
      }
      r := Ok(None);
    }

    /** `getPrefixes(uri)`: every prefix bound to the URI, each once, in the
        hash map's order. A null URI is refused. */
    method GetPrefixes(uri: Option<string>) returns (r: Result<seq<string>>)
      ensures uri.None? <==> r == Err(IllegalArgument)
      ensures r.Ok? ==> forall p :: p in r.value <==> p in bindings && bindings[p] == uri.value
      ensures r.Ok? ==> forall i, j :: 0 <= i < j < |r.value| ==> r.value[i] != r.value[j]
    {
      if uri.None? {
        return Err(IllegalArgument);
      }
      var u := uri.value;
      var prefixes: seq<string> := [];
      var unseen := bindings.Keys;
      while unseen != {}
        invariant unseen <= bindings.Keys
        invariant forall p :: p in prefixes <==> p in bindings && p !in unseen && bindings[p] == u
        invariant forall i, j :: 0 <= i < j < |prefixes| ==> prefixes[i] != prefixes[j]
        decreases unseen
      {
        var p :| p in unseen;
        if bindings[p] == u {
          prefixes := prefixes + [p];
        }
        unseen := unseen - {p};
      }
      r := Ok(prefixes);
    }
  }

  /** The NamespaceContext a table presents. Which of several prefixes bound
      to one URI `getPrefix` picks is left open. */
  ghost function TableContext(m: map<string, string>): (c: NamespaceContext)
  {
    NamespaceContext(
      p => Some(UriOf(m, p)),
      u => if exists p :: p in m && m[p] == u then Some(var p :| p in m && m[p] == u; p) else None,
      u => set p | p in m && m[p] == u)
  }

  /** The context a NamespaceContextSupport presents, as its table stands now,
      answers as its own methods do. */
  lemma TableContextAnswers(t: NamespaceContextSupport, prefix: string, uri: string)
    ensures TableContext(t.bindings).namespaceURI(prefix) == Some(t.GetNamespaceURI(Some(prefix)).value)
    ensures forall p :: p in TableContext(t.bindings).prefixes(uri) <==> p in t.bindings && t.bindings[p] == uri
    ensures TableContext(t.bindings).prefix(uri).Some? ==>
              var p := TableContext(t.bindings).prefix(uri).value;
              p in t.bindings && t.bindings[p] == uri
    ensures TableContext(t.bindings).prefix(uri).None? <==> forall p :: p in t.bindings ==> t.bindings[p] != uri
  {
  }

  /** What a table answers after `put(p, u)`: p now gives u, every other
      prefix what it gave before; and a fresh table answers the reserved
      bindings, with "" for the default prefix. */
  lemma PutThenLookup(m: map<string, string>, p: string, u: string, q: string)
    ensures UriOf(m[p := u], p) == u
    ensures q != p ==> UriOf(m[p := u], q) == UriOf(m, q)
    ensures UriOf(InitialBindings(), XML_NS_PREFIX) == XML_NS_URI
    ensures UriOf(InitialBindings(), XMLNS_ATTRIBUTE) == XMLNS_ATTRIBUTE_NS_URI
    ensures UriOf(InitialBindings(), DEFAULT_NS_PREFIX) == NULL_NS_URI
  {
  }
}
