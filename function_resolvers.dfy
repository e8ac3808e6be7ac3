/** XPathFunctionResolverSupport: a registry of extension functions. A
    function registered for any arity is stored under its qualified name; one
    registered for a fixed arity under the text of the arity followed by the
    text of the name. */
module FunctionResolvers {
  import opened Base
  import opened Interfaces
  import opened Decimal

  /** The arity that registers a function for every argument count. */
  const ARITY_ANY: int := -1

  /** A key of the registry's hash map: a QName, or a String. A QName never
      equals a String, so the two kinds of key never collide. */
  datatype FunctionKey = QNameKey(name: QName) | TextKey(text: string)

  type Registry = map<FunctionKey, XPathFunction>

  /** `getKey(qname, arity)`: the decimal arity, then `qname.toString()`. */
  function ArityKey(q: QName, arity: int): string
  {
    LongText(arity) + QNameText(q)
  }

  /** The key `registerFunction` stores a function under. */
  function KeyFor(q: QName, arity: int): (k: FunctionKey)
    ensures k.QNameKey? <==> arity == ARITY_ANY
    ensures arity == ARITY_ANY ==> k == QNameKey(q)
    ensures k.TextKey? ==> k.text == LongText(arity) + QNameText(q)
  {
    if arity == ARITY_ANY then QNameKey(q) else TextKey(ArityKey(q, arity))
  }

  /** The registry after `registerFunction(q, arity, f)` with both non-null. */
  function Register(m: Registry, q: QName, arity: int, f: XPathFunction): (r: Registry)
    ensures r.Keys == m.Keys + {KeyFor(q, arity)}
    ensures r[KeyFor(q, arity)] == f
    ensures forall k :: k in m && k != KeyFor(q, arity) ==> r[k] == m[k]
  {
    m[KeyFor(q, arity) := f]
  }

  /** `resolveFunction(q, arity)` on a registry: the any-arity entry of the
      name when there is one, otherwise the entry for that arity, otherwise
      null. */
  function Resolve(m: Registry, q: QName, arity: int): (r: Option<XPathFunction>)
    ensures QNameKey(q) in m ==> r == Some(m[QNameKey(q)])
    ensures QNameKey(q) !in m && TextKey(ArityKey(q, arity)) in m ==> r == Some(m[TextKey(ArityKey(q, arity))])
    ensures r.None? <==> QNameKey(q) !in m && TextKey(ArityKey(q, arity)) !in m
  {
    if QNameKey(q) in m then Some(m[QNameKey(q)])
    else if TextKey(ArityKey(q, arity)) in m then Some(m[TextKey(ArityKey(q, arity))])
    else None
  }

  class XPathFunctionResolverSupport {
    var functions: Registry

    constructor ()
      ensures functions == map[]
    {
      functions := map[];
    }

    /** `registerFunction(qname, arity, func)`: a null name or a null
        function is refused and nothing changes; otherwise the function is
        stored, replacing whatever was under the same key. */
    method RegisterFunction(q: Option<QName>, arity: int, f: Option<XPathFunction>) returns (r: Outcome)
      modifies this
      ensures r.Raised? <==> q.None? || f.None?
      ensures r.Raised? ==> r.error == IllegalArgument && functions == old(functions)
      ensures r.Done? ==> functions == Register(old(functions), q.value, arity, f.value)
    {
      if q.None? {
        return Raised(IllegalArgument);
      }
      if f.None? {
        return Raised(IllegalArgument);
      }
      var key: FunctionKey;
      if arity == ARITY_ANY {
        key := QNameKey(q.value);
      } else {
        key := TextKey(ArityKey(q.value, arity));
      }
      functions := functions[key := f.value];
      r := Done;
    }

    /** `resolveFunction(qname, arity)`: a null name finds no any-arity
        entry and then fails building the arity key. */
    function ResolveFunction(q: Option<QName>, arity: int): (r: Result<Option<XPathFunction>>)
      reads this
      ensures q.None? <==> r == Err(NullPointer)
      ensures q.Some? ==> r == Ok(Resolve(functions, q.value, arity))
    {
      match q
      case None => Err(NullPointer)
      case Some(name) => Ok(Resolve(functions, name, arity))
    }

    /** The resolver this registry presents to an evaluation, as it stands
        now. */
    function AsResolver(): (fr: FunctionResolver)
      reads this
      ensures forall q, n :: fr.resolveFunction(q, n) == ResolveFunction(Some(q), n).value
    {
      var m := functions;
      FunctionResolver((q, n) => Resolve(m, q, n))
    }
  }

  /** A local part as XML names have it: not empty, not starting with a
      digit or a minus sign, and free of the braces `QName.toString` puts
      around the namespace. */
  predicate PlainLocalName(l: string)
  {
    |l| > 0 && !IsNumeral(l[0]) && '{' !in l && '}' !in l
  }

  lemma QNameTextStartsPlain(q: QName)
    requires PlainLocalName(q.localPart)
    ensures |QNameText(q)| > 0 && !IsNumeral(QNameText(q)[0])
  {
  }

  /** In y + "}" + l with no '}' in l, the brace after y is the last one. */
  lemma LastBrace(s: string, y: string, l: string)
    requires s == y + "}" + l && '}' !in l
    ensures s[|y|] == '}'
    ensures forall i :: |y| < i < |s| ==> s[i] != '}'
  {
    forall i | |y| < i < |s|
      ensures s[i] != '}'
    {
      assert s[i] == l[i - |y| - 1];
    }
  }

  /** In t + rest with t all numerals and rest starting otherwise, the
      numerals end exactly where t does. */
  lemma NumeralsEnd(s: string, t: string, rest: string)
    requires s == t + rest
    requires forall i :: 0 <= i < |t| ==> IsNumeral(t[i])
    requires |rest| > 0 && !IsNumeral(rest[0])
    ensures forall i :: 0 <= i < |t| ==> IsNumeral(s[i])
    ensures |t| < |s| && !IsNumeral(s[|t|])
  {
  }

  /** For plain local parts, `QName.toString` tells names apart. */
  lemma {:induction false} QNameTextInjective(a: QName, b: QName)
    requires PlainLocalName(a.localPart) && PlainLocalName(b.localPart)
    requires QNameText(a) == QNameText(b)
    ensures a == b
  {
    var s := QNameText(a);
    var la, lb := a.localPart, b.localPart;
    if a.namespaceURI == NULL_NS_URI && b.namespaceURI != NULL_NS_URI {
      assert false;
    } else if a.namespaceURI != NULL_NS_URI && b.namespaceURI == NULL_NS_URI {
      assert false;
    } else if a.namespaceURI != NULL_NS_URI {
      // s is "{" + ns + "}" + local both ways; the last '}' fixes the split
      LastBrace(s, "{" + a.namespaceURI, la);
      LastBrace(s, "{" + b.namespaceURI, lb);
      assert |la| == |lb|;
      assert la == s[|s| - |la|..] == lb;
      assert a.namespaceURI == s[1..|s| - |la| - 1] == b.namespaceURI;
    }
  }

  /** For plain local parts, the arity key of a (name, arity) pair is
      unique to it: the digits end where the name starts. */
  lemma {:induction false} ArityKeyInjective(q1: QName, n1: int, q2: QName, n2: int)
    requires PlainLocalName(q1.localPart) && PlainLocalName(q2.localPart)
    requires ArityKey(q1, n1) == ArityKey(q2, n2)
    ensures q1 == q2 && n1 == n2
  {
    var s := ArityKey(q1, n1);
    var t1, t2 := LongText(n1), LongText(n2);
    QNameTextStartsPlain(q1);
    QNameTextStartsPlain(q2);
    NumeralsEnd(s, t1, QNameText(q1));
    NumeralsEnd(s, t2, QNameText(q2));
    assert |t1| == |t2|;
    assert t1 == s[..|t1|] == t2;
    LongTextInjective(n1, n2);
    assert QNameText(q1) == s[|t1|..] == QNameText(q2);
    QNameTextInjective(q1, q2);
  }

  /** For plain local parts, distinct (name, arity) pairs are stored under
      distinct keys, so no registration overwrites another's entry. */
  lemma {:induction false} KeyForInjective(q1: QName, n1: int, q2: QName, n2: int)
    requires PlainLocalName(q1.localPart) && PlainLocalName(q2.localPart)
    requires KeyFor(q1, n1) == KeyFor(q2, n2)
    ensures q1 == q2 && n1 == n2
  {
    if n1 != ARITY_ANY {
      ArityKeyInjective(q1, n1, q2, n2);
    }
  }

  /** Right after `registerFunction(q, n, f)`: an any-arity registration
      answers for every arity; a fixed-arity one answers for that arity
      unless an any-arity function of the same name shadows it. */
  lemma ResolveAfterRegister(m: Registry, q: QName, n: int, f: XPathFunction, k: int)
    ensures Resolve(Register(m, q, ARITY_ANY, f), q, k) == Some(f)
    ensures n != ARITY_ANY && QNameKey(q) !in m ==> Resolve(Register(m, q, n, f), q, n) == Some(f)
    ensures n != ARITY_ANY && QNameKey(q) in m ==> Resolve(Register(m, q, n, f), q, n) == Some(m[QNameKey(q)])
  {
  }

  /** Registering again under the same name and arity replaces the earlier
      function. */
  lemma ReRegisterReplaces(m: Registry, q: QName, n: int, f: XPathFunction, g: XPathFunction)
    ensures Register(Register(m, q, n, f), q, n, g) == Register(m, q, n, g)
  {
    assert m[KeyFor(q, n) := f][KeyFor(q, n) := g] == m[KeyFor(q, n) := g];
  }

  /** For plain local parts, a registration changes no other resolution:
      only the same name with an any-arity registration, or the same name
      and arity, sees it. */
  lemma RegisterOtherUnaffected(m: Registry, q: QName, n: int, f: XPathFunction, q2: QName, n2: int)
    requires PlainLocalName(q.localPart) && PlainLocalName(q2.localPart)
    requires q != q2 || (n != ARITY_ANY && n != n2)
    ensures Resolve(Register(m, q, n, f), q2, n2) == Resolve(m, q2, n2)
  {
    if n != ARITY_ANY && ArityKey(q, n) == ArityKey(q2, n2) {
      ArityKeyInjective(q, n, q2, n2);
    }
  }

  /** Without the plain-name condition the arity keys collide: "3" with
      arity 12 and "23" with arity 1 both give "123", so a function
      registered for one is found for the other. */
  lemma ArityKeyCollision(f: XPathFunction)
    ensures ArityKey(QName(NULL_NS_URI, "3"), 12) == ArityKey(QName(NULL_NS_URI, "23"), 1)
    ensures Resolve(Register(map[], QName(NULL_NS_URI, "3"), 12, f), QName(NULL_NS_URI, "23"), 1) == Some(f)
  {
    assert LongText(12) == "12" && LongText(1) == "1";
  }
}
