/** XPathVariableResolverSupport: a variable resolver backed by a table from
    qualified names to values, with checked declare and undeclare. */
module VariableResolvers {
  import opened Base
  import opened Dom
  import opened Interfaces

  type Table = map<QName, RawValue>

  /** What `resolveVariable` answers from a table: the stored value, or
      null when the name is not declared. */
  function Lookup(m: Table, q: QName): RawValue
  {
    if q in m then m[q] else Null
  }

  /** No declared variable holds null. */
  ghost predicate NoNullValues(m: Table)
  {
    forall q :: q in m ==> !m[q].Null?
  }

  /** `declareVariable(qname, value)` on a table: a null name fails on
      `getLocalPart()`; an empty local part is refused first and a null value
      second; otherwise the name is bound, replacing an earlier value. */
  function Declare(m: Table, q: Option<QName>, value: RawValue): (r: Result<Table>)
    ensures q.None? ==> r == Err(NullPointer)
    ensures q.Some? && q.value.localPart == "" ==> r == Err(IllegalArgument)
    ensures q.Some? && q.value.localPart != "" && value.Null? ==> r == Err(IllegalArgument)
    ensures r.Ok? <==> q.Some? && q.value.localPart != "" && !value.Null?
    ensures r.Ok? ==> Lookup(r.value, q.value) == value
    ensures r.Ok? ==> forall other :: other != q.value ==> Lookup(r.value, other) == Lookup(m, other)
  {
    match q
    case None => Err(NullPointer)
    case Some(name) =>
      if |name.localPart| == 0 then Err(IllegalArgument)
      else if value.Null? then Err(IllegalArgument)
      else Ok(m[name := value])
  }

  /** `undeclareVariable(qname)` on a table: an empty local part is refused;
      otherwise the name is removed, which does nothing when it was not
      declared. */
  function Undeclare(m: Table, q: Option<QName>): (r: Result<Table>)
    ensures q.None? ==> r == Err(NullPointer)
    ensures r.Ok? <==> q.Some? && q.value.localPart != ""
    ensures q.Some? && q.value.localPart == "" ==> r == Err(IllegalArgument)
    ensures r.Ok? ==> Lookup(r.value, q.value) == Null
    ensures r.Ok? ==> forall other :: other != q.value ==> Lookup(r.value, other) == Lookup(m, other)
    ensures r.Ok? && q.value !in m ==> r.value == m
  {
    match q
    case None => Err(NullPointer)
    case Some(name) =>
      if |name.localPart| == 0 then Err(IllegalArgument)
      else Ok(m - {name})
  }

  class XPathVariableResolverSupport {
    var variables: Table

    ghost predicate Valid()
      reads this
    {
      NoNullValues(variables)
    }

    constructor ()
      ensures Valid() && variables == map[]
    {
      variables := map[];
    }

    /** `resolveVariable(qname)`: the value stored under exactly that name,
        null when there is none (a null name finds nothing). */
    function ResolveVariable(q: Option<QName>): (r: RawValue)
      reads this
      requires Valid()
      ensures r.Null? <==> q.None? || q.value !in variables
      ensures !r.Null? ==> r == variables[q.value]
    {
      match q
      case None => Null
      case Some(name) => Lookup(variables, name)
    }

    /** `declareVariable(QName, Object)`. */
    method DeclareVariable(q: Option<QName>, value: RawValue) returns (r: Outcome)
      requires Valid()
      modifies this
      ensures Valid()
      ensures Declare(old(variables), q, value).Ok? ==> r == Done && variables == Declare(old(variables), q, value).value
      ensures Declare(old(variables), q, value).Err? ==>
                r == Raised(Declare(old(variables), q, value).error) && variables == old(variables)
    {
      if q.None? {
        return Raised(NullPointer);
      }
      if |q.value.localPart| == 0 {
        return Raised(IllegalArgument);
      } else if value.Null? {
        return Raised(IllegalArgument);
      }
      variables := variables[q.value := value];
      r := Done;
    }

    /** `undeclareVariable(QName)`. */
    method UndeclareVariable(q: Option<QName>) returns (r: Outcome)
      requires Valid()
      modifies this
      ensures Valid()
      ensures Undeclare(old(variables), q).Ok? ==> r == Done && variables == Undeclare(old(variables), q).value
      ensures Undeclare(old(variables), q).Err? ==>
                r == Raised(Undeclare(old(variables), q).error) && variables == old(variables)
    {
      if q.None? {
        return Raised(NullPointer);
      }
      if |q.value.localPart| == 0 {
        return Raised(IllegalArgument);
      }
      variables := variables - {q.value};
      r := Done;
    }

    /** `declareVariable(localPart, namespace, value)`: builds
        `new QName(namespace, localPart)`, refused when the local part is
        null, and declares under it. */
    method DeclareVariableIn(localPart: Option<string>, namespace: Option<string>, value: RawValue)
      returns (r: Outcome)
      requires Valid()
      modifies this
      ensures Valid()
      ensures localPart.None? ==> r == Raised(IllegalArgument) && variables == old(variables)
      ensures localPart.Some? ==>
                var q := NewQName(namespace, localPart).value;
                var d := Declare(old(variables), Some(q), value);
                (d.Ok? ==> r == Done && variables == d.value) && (d.Err? ==> r == Raised(d.error) && variables == old(variables))
    {
      var q := NewQName(namespace, localPart);
      if q.Err? {
        return Raised(q.error);
      }
      r := DeclareVariable(Some(q.value), value);
    }

    /** `undeclareVariable(localPart, namespace)`. */
    method UndeclareVariableIn(localPart: Option<string>, namespace: Option<string>) returns (r: Outcome)
      requires Valid()
      modifies this
      ensures Valid()
      ensures localPart.None? ==> r == Raised(IllegalArgument) && variables == old(variables)
      ensures localPart.Some? ==>
                var q := NewQName(namespace, localPart).value;
                var d := Undeclare(old(variables), Some(q));
                (d.Ok? ==> r == Done && variables == d.value) && (d.Err? ==> r == Raised(d.error) && variables == old(variables))
    {
      var q := NewQName(namespace, localPart);
      if q.Err? {
        return Raised(q.error);
      }
      r := UndeclareVariable(Some(q.value));
    }

    /** `declareVariable(name, value)`: the name in no namespace. */
    method DeclareVariableNamed(name: Option<string>, value: RawValue) returns (r: Outcome)
      requires Valid()
      modifies this
      ensures Valid()
      ensures name.None? ==> r == Raised(IllegalArgument) && variables == old(variables)
      ensures name.Some? ==>
                var d := Declare(old(variables), Some(QName(NULL_NS_URI, name.value)), value);
                (d.Ok? ==> r == Done && variables == d.value) && (d.Err? ==> r == Raised(d.error) && variables == old(variables))
    {
      r := DeclareVariableIn(name, Some(NULL_NS_URI), value);
    }

    /** `undeclareVariable(name)`: the name in no namespace. */
    method UndeclareVariableNamed(name: Option<string>) returns (r: Outcome)
      requires Valid()
      modifies this
      ensures Valid()
      ensures name.None? ==> r == Raised(IllegalArgument) && variables == old(variables)
      ensures name.Some? ==>
                var d := Undeclare(old(variables), Some(QName(NULL_NS_URI, name.value)));
                (d.Ok? ==> r == Done && variables == d.value) && (d.Err? ==> r == Raised(d.error) && variables == old(variables))
    {
      r := UndeclareVariableIn(name, Some(NULL_NS_URI));
    }

    /** The resolver this table presents to an evaluation, as it stands now. */
    function AsResolver(): (vr: VariableResolver)
      reads this
      requires Valid()
      ensures forall q :: vr.resolveVariable(q) == ResolveVariable(Some(q))
    {
      var m := variables;
      VariableResolver(q => Lookup(m, q))
    }
  }

  /** Declaring keeps every declared value non-null, so a name resolves to
      null exactly when it is not declared. */
  lemma DeclarePreservesNoNull(m: Table, q: Option<QName>, value: RawValue)
    requires NoNullValues(m)
    ensures Declare(m, q, value).Ok? ==> NoNullValues(Declare(m, q, value).value)
    ensures Undeclare(m, q).Ok? ==> NoNullValues(Undeclare(m, q).value)
  {
  }

  /** Declaring a new name and undeclaring it again gives back the table;
      undeclaring twice is the same as once; declaring twice keeps the
      second value. */
  lemma DeclareUndeclareLaws(m: Table, q: QName, v: RawValue, w: RawValue)
    requires q.localPart != "" && !v.Null? && !w.Null?
    ensures q !in m ==> Undeclare(Declare(m, Some(q), v).value, Some(q)) == Ok(m)
    ensures Undeclare(Undeclare(m, Some(q)).value, Some(q)) == Undeclare(m, Some(q))
    ensures Declare(Declare(m, Some(q), v).value, Some(q), w) == Declare(m, Some(q), w)
  {
    assert m[q := v] - {q} == m - {q};
    if q !in m {
      assert m - {q} == m;
    }
    assert m[q := v][q := w] == m[q := w];
  }
}
