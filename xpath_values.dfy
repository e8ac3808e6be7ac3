/** XPathValues: the conversion of an evaluation result to one of the five
    result types of javax.xml.xpath.XPathConstants, loosely after the
    string(), number() and boolean() functions of XPath 1.0 (sections 4.2
    to 4.4) and the string-value of nodes (section 5). */
module XPathValues {
  import opened Base
  import opened Dom
  import opened Decimal
  import NodeLists

  /** The requested result type: one of the XPathConstants QNames, or any
      other QName. */
  datatype ReturnType = NUMBER | STRING | BOOLEAN | NODE | NODESET | OtherType(name: QName)

  /** Library behaviour the conversions use and the model does not define:
      `new Double(String)` (None when it throws NumberFormatException) and
      `toString()` of objects that are not strings, booleans or nodes. */
  datatype Platform = Platform(parseDouble: string -> Option<Double>, toText: RawValue -> string)

  // ---------------------------------------------------------------------
  // String-value of a node

  /** The string-value the adapter computes: a node with a value contributes
      it, unless the node is a comment, which contributes nothing; a node
      without a value contributes its children's string-values in sibling
      order. Any other node value (text, attribute, processing instruction)
      is taken as it is. */
  function StringValue(n: Node): string
    decreases n
  {
    match n.nodeValue
    case Some(v) => if n.isComment then "" else v
    case None => ChildrenValue(n.children)
  }

  /** The string-values of sibling nodes, concatenated in order. */
  function ChildrenValue(kids: seq<Node>): string
    decreases kids
  {
    if kids == [] then ""
    else ChildrenValue(kids[..|kids| - 1]) + StringValue(kids[|kids| - 1])
  }

  /** Splitting a run of siblings splits their string-value. */
  lemma {:induction false} ChildrenValueSplit(a: seq<Node>, b: seq<Node>)
    ensures ChildrenValue(a + b) == ChildrenValue(a) + ChildrenValue(b)
    decreases |b|
  {
    if b != [] {
      var b' := b[..|b| - 1];
      assert (a + b)[..|a + b| - 1] == a + b';
      assert (a + b)[|a + b| - 1] == b[|b| - 1];
      ChildrenValueSplit(a, b');
    } else {
      assert a + b == a;
    }
  }

  /** A comment child adds nothing to its parent's string-value: removing
      it leaves the string-value unchanged. */
  lemma CommentChildIgnored(parent: Node, i: nat)
    requires parent.nodeValue.None? && i < |parent.children|
    requires parent.children[i].isComment && parent.children[i].nodeValue.Some?
    ensures StringValue(Node(None, parent.isComment, parent.children[..i] + parent.children[i + 1..]))
         == StringValue(parent)
  {
    var kids := parent.children;
    assert kids == kids[..i] + [kids[i]] + kids[i + 1..];
    ChildrenValueSplit(kids[..i] + [kids[i]], kids[i + 1..]);
    ChildrenValueSplit(kids[..i], [kids[i]]);
    ChildrenValueSplit(kids[..i], kids[i + 1..]);
    assert ChildrenValue([kids[i]]) == "" by {
      assert [kids[i]][..0] == [];
    }
  }

  /** `toStringAppend(n, buf)`: appends the string-value of `n` to the
      buffer, walking the children from the first one through the next
      sibling links. */
  method AppendStringValue(n: Node, buf: string) returns (out: string)
    ensures out == buf + StringValue(n)
    decreases n
  {
    match n.nodeValue {
      case None =>
        out := buf;
        var i := 0;
        while i < |n.children|
          invariant 0 <= i <= |n.children|
          invariant out == buf + ChildrenValue(n.children[..i])
        {
          assert n.children[..i + 1][..i] == n.children[..i];
          out := AppendStringValue(n.children[i], out);
          i := i + 1;
        }
        assert n.children[..i] == n.children;
      case Some(v) =>
        out := if n.isComment then buf else buf + v;
    }
  }

  /** `getStringValueOfNode(n)`: the string-value, built in a fresh buffer. */
  method GetStringValueOfNode(n: Node) returns (s: string)
    ensures s == StringValue(n)
  {
    s := AppendStringValue(n, "");
  }

  /** `getStringValueOfNodeList(list)`: "" for an empty list, otherwise the
      string-value of item 0, which raises when that item is not a node. */
  function StringOfNodeList(l: NodeList): (r: Result<string>)
    ensures NodeLists.Length(l) == 0 ==> r == Ok("")
    ensures NodeLists.Length(l) > 0 && l.list[0].NodeV? ==> r == Ok(StringValue(l.list[0].node))
    ensures NodeLists.Length(l) > 0 && !l.list[0].NodeV? ==> r.Err? && r.error == NodeLists.Item(l, 0).error
  {
    if NodeLists.Length(l) == 0 then Ok("")
    else match NodeLists.Item(l, 0)
      case Ok(n) => Ok(StringValue(n))
      case Err(e) => Err(e)
  }

  // ---------------------------------------------------------------------
  // Numbers as text

  const TWO_63: int := 0x8000_0000_0000_0000

  predicate IsIntegral(x: real) { x == x.Floor as real }

  /** `dbl.longValue()`: truncation toward zero, saturating at the ends of
      the long range; NaN gives 0. */
  function LongValue(d: Double): int
  {
    match d
    case NaN => 0
    case Infinite(positive) => if positive then LONG_MAX else LONG_MIN
    case Finite(x) =>
      var t := if x >= 0.0 then x.Floor else -((-x).Floor);
      if t < LONG_MIN then LONG_MIN else if t > LONG_MAX then LONG_MAX else t
  }

  /** When `new Long(dbl.longValue()).doubleValue() == dbl.doubleValue()`
      holds. A finite integral double inside the long range converts to a
      long and back exactly; a non-integral, infinite or NaN one never
      compares equal. At the top the saturated LONG_MAX = 2^63 - 1 has no
      double of its own and converts back to 2^63, so the test also holds
      for the double 2^63 itself. */
  predicate LongRoundTrips(d: Double)
  {
    d.Finite? && IsIntegral(d.value) && LONG_MIN as real <= d.value <= TWO_63 as real
  }

  /** `getStringValueOfDouble` as written: the long's text when the double
      survives the round trip through long, `Double.toString` otherwise. */
  function StringOfDoubleAsWritten(d: Double, p: Platform): (s: string)
    ensures LongRoundTrips(d) ==> DecimalValue(s) == Some(LongValue(d))
    ensures !LongRoundTrips(d) ==> s == p.toText(Dbl(d))
  {
    if LongRoundTrips(d) then
      LongTextRoundTrip(LongValue(d));
      LongText(LongValue(d))
    else p.toText(Dbl(d))
  }

  /** The double 2^63 passes the round-trip test but prints as 2^63 - 1. */
  lemma AsWrittenMisprintsTwoTo63(p: Platform)
    ensures StringOfDoubleAsWritten(Finite(TWO_63 as real), p) == LongText(LONG_MAX)
    ensures DecimalValue(StringOfDoubleAsWritten(Finite(TWO_63 as real), p)) == Some(TWO_63 - 1)
  {
    assert LongValue(Finite(TWO_63 as real)) == LONG_MAX by {
      assert (TWO_63 as real).Floor == TWO_63;
    }
    LongTextRoundTrip(LONG_MAX);
  }

  /** `getStringValueOfDouble` as intended: an integral double in the long
      range prints as its digits without ".0"; anything else as
      `Double.toString` prints it. This is the rendering the model uses. */
  function StringOfDouble(d: Double, p: Platform): (s: string)
    ensures d.Finite? && IsIntegral(d.value) && LONG_MIN as real <= d.value <= LONG_MAX as real
            ==> DecimalValue(s) == Some(d.value.Floor)
    ensures !(d.Finite? && IsIntegral(d.value) && LONG_MIN as real <= d.value <= LONG_MAX as real)
            ==> s == p.toText(Dbl(d))
  {
    if d.Finite? && IsIntegral(d.value) && LONG_MIN as real <= d.value <= LONG_MAX as real then
      LongTextRoundTrip(d.value.Floor);
      LongText(d.value.Floor)
    else p.toText(Dbl(d))
  }

  /** The correction changes the rendering of the double 2^63 and of no
      other value. */
  lemma CorrectionOnlyAtTwoTo63(d: Double, p: Platform)
    requires d != Finite(TWO_63 as real)
    ensures StringOfDouble(d, p) == StringOfDoubleAsWritten(d, p)
  {
    if d.Finite? && IsIntegral(d.value) && LONG_MIN as real <= d.value <= LONG_MAX as real {
      var k := d.value.Floor;
      assert d.value == k as real;
      assert LongValue(d) == k;
    }
  }

  // ---------------------------------------------------------------------
  // The five conversions

  /** `new Double(text)`, with NaN when the text does not parse. */
  function ParsedOrNaN(p: Platform, text: string): Double
  {
    match p.parseDouble(text)
    case None => NaN
    case Some(d) => d
  }

  /** NUMBER: it never raises. Strings and the string-value of a node or of
      a node list's first item are parsed, NaN when parsing fails; a Double
      is returned as it is, a Boolean gives 1 or 0, and null or anything
      else gives NaN. */
  function ToNumber(v: RawValue, p: Platform): (r: Double)
    ensures v.Null? || v.NodeSetV? || v.CollectionV? || v.Other? ==> r == NaN
    ensures v.Dbl? ==> r == v.d
    ensures v.Bool? ==> r == (if v.b then ONE else ZERO)
    ensures v.Str? ==> r == ParsedOrNaN(p, v.s)
    ensures v.NodeV? ==> r == ParsedOrNaN(p, StringValue(v.node))
    ensures v.NodeListV? ==> r == match StringOfNodeList(v.nodeList)
                                  case Ok(s) => ParsedOrNaN(p, s)
                                  case Err(_) => NaN
  {
    match v
    case NodeV(n) => ParsedOrNaN(p, StringValue(n))
    case NodeListV(l) =>
      (match StringOfNodeList(l) case Ok(s) => ParsedOrNaN(p, s) case Err(_) => NaN)
    case Str(s) => ParsedOrNaN(p, s)
    case Dbl(d) => d
    case Bool(b) => if b then ONE else ZERO
    case _ => NaN
  }

  /** BOOLEAN: it never raises. The false values are exactly null, false,
      the empty string, an empty node set, node list or collection, NaN and
      zero; everything else, every single node included, is true. */
  function ToBoolean(v: RawValue): (r: bool)
    ensures !r <==> v.Null? || v == Bool(false) || v == Str("") || v == Dbl(NaN) || v == Dbl(ZERO)
                    || (v.NodeSetV? && v.nodes == []) || (v.NodeListV? && v.nodeList.list == [])
                    || (v.CollectionV? && v.elements == [])
  {
    match v
    case Null => false
    case Bool(b) => b
    case Str(s) => |s| != 0
    case NodeSetV(nodes) => |nodes| != 0
    case NodeV(_) => true
    case NodeListV(l) => NodeLists.Length(l) != 0
    case CollectionV(elements, _) => |elements| != 0
    case Dbl(d) => !(d == NaN || d == ZERO)
    case Other(_) => true
  }

  /** STRING conversion of the value actually examined: a collection has
      been replaced by its first element, which is not re-examined for
      null or for being a collection. */
  function ActualToString(a: RawValue, p: Platform): Result<string>
  {
    match a
    case Null => Err(NullPointer)
    case NodeV(n) => Ok(StringValue(n))
    case NodeListV(l) => StringOfNodeList(l)
    case Dbl(d) => Ok(StringOfDouble(d, p))
    case Str(s) => Ok(s)
    case Bool(b) => Ok(if b then "true" else "false")
    case _ => Ok(p.toText(a))
  }

  /** STRING (`convertToString`): null gives "", a string itself, a node its
      string-value, a node list the string-value of its first item, a
      number its text; a collection is replaced by its first element ("" when
      empty). It never raises XPathExpressionException: the only failures
      are the runtime exceptions of a null first element or a first list
      item that is not a node. */
  function ConvertToString(v: RawValue, p: Platform): (r: Result<string>)
    ensures v.Null? ==> r == Ok("")
    ensures v.Str? ==> r == Ok(v.s)
    ensures v.NodeV? ==> r == Ok(StringValue(v.node))
    ensures v.NodeListV? ==> r == StringOfNodeList(v.nodeList)
    ensures v.Dbl? ==> r == Ok(StringOfDouble(v.d, p))
    ensures v.Bool? ==> r == Ok(if v.b then "true" else "false")
    ensures v.Other? || v.NodeSetV? ==> r == Ok(p.toText(v))
    ensures v.CollectionV? && v.elements == [] ==> r == Ok("")
    ensures r.Err? ==> r.error in {NullPointer, UnexpectedString, UnknownObject}
  {
    match v
    case Null => Ok("")
    case Str(s) => Ok(s)
    case CollectionV(elements, _) =>
      if |elements| == 0 then Ok("") else ActualToString(elements[0], p)
    case _ => ActualToString(v, p)
  }

  /** A non-empty collection converts like its first element, unless that
      element is null (which raises) or itself a collection (which is
      printed rather than opened). */
  lemma CollectionUsesFirstElement(x: RawValue, rest: seq<RawValue>, isList: bool, p: Platform)
    ensures x.Null? ==> ConvertToString(CollectionV([x] + rest, isList), p) == Err(NullPointer)
    ensures x.CollectionV? ==> ConvertToString(CollectionV([x] + rest, isList), p) == Ok(p.toText(x))
    ensures !x.Null? && !x.CollectionV? ==>
              ConvertToString(CollectionV([x] + rest, isList), p) == ConvertToString(x, p)
  {
  }

  /** NODE: a node is returned unchanged, a node list gives its first item
      or null when empty; anything else, null included, raises
      XPathExpressionException. */
  function ConvertToNode(v: RawValue): (r: Result<Option<Node>>)
    ensures v.NodeV? ==> r == Ok(Some(v.node))
    ensures v.NodeListV? && v.nodeList.list == [] ==> r == Ok(None)
    ensures v.NodeListV? && v.nodeList.list != [] ==>
              r == match NodeLists.Item(v.nodeList, 0) case Ok(n) => Ok(Some(n)) case Err(e) => Err(e)
    ensures !v.NodeV? && !v.NodeListV? ==> r == Err(XPathExpressionError(None))
  {
    match v
    case NodeV(n) => Ok(Some(n))
    case NodeListV(l) =>
      if NodeLists.Length(l) == 0 then Ok(None)
      else (match NodeLists.Item(l, 0) case Ok(n) => Ok(Some(n)) case Err(e) => Err(e))
    case _ => Err(XPathExpressionError(None))
  }

  /** NODESET: a node list is returned unchanged, anything else raises
      XPathExpressionException. */
  function ConvertToNodeSet(v: RawValue): (r: Result<NodeList>)
    ensures r.Ok? <==> v.NodeListV?
    ensures r.Ok? ==> r.value == v.nodeList
    ensures r.Err? ==> r.error == XPathExpressionError(None)
  {
    if v.NodeListV? then Ok(v.nodeList) else Err(XPathExpressionError(None))
  }

  /** `convertValue(value, returnType)`. NUMBER and BOOLEAN never fail,
      XPathExpressionException comes only from NODE and NODESET, and an
      unknown return type raises IllegalArgumentException. The result has
      the shape the return type asks for. */
  function ConvertValue(v: RawValue, t: ReturnType, p: Platform): (r: Result<RawValue>)
    ensures t.NUMBER? || t.BOOLEAN? ==> r.Ok?
    ensures r.Err? && r.error.XPathExpressionError? ==> t.NODE? || t.NODESET?
    ensures r == Err(IllegalArgument) <==> t.OtherType?
    ensures r.Ok? && t.NUMBER? ==> r.value.Dbl?
    ensures r.Ok? && t.STRING? ==> r.value.Str?
    ensures r.Ok? && t.BOOLEAN? ==> r.value.Bool?
    ensures r.Ok? && t.NODE? ==> r.value.NodeV? || r.value.Null?
    ensures r.Ok? && t.NODESET? ==> r.value == v
    ensures v.Null? && (t.NODE? || t.NODESET?) ==> r == Err(XPathExpressionError(None))
    ensures r.Err? ==> r.error in {IllegalArgument, NullPointer, IndexOutOfBounds, UnexpectedString,
                                   UnknownObject, XPathExpressionError(None)}
    ensures t.NUMBER? ==> r == Ok(Dbl(ToNumber(v, p)))
    ensures t.BOOLEAN? ==> r == Ok(Bool(ToBoolean(v)))
    ensures t.STRING? ==> (r.Ok? <==> ConvertToString(v, p).Ok?)
    ensures t.STRING? && r.Ok? ==> r == Ok(Str(ConvertToString(v, p).value))
    ensures t.STRING? && r.Err? ==> r.error == ConvertToString(v, p).error
    ensures t.NODE? ==> (r.Ok? <==> ConvertToNode(v).Ok?)
    ensures t.NODE? && r.Ok? ==>
              r.value == (if ConvertToNode(v).value.Some? then NodeV(ConvertToNode(v).value.value) else Null)
    ensures t.NODE? && r.Err? ==> r.error == ConvertToNode(v).error
    ensures t.NODESET? ==> (r.Ok? <==> v.NodeListV?)
    ensures t.NODESET? && r.Err? ==> r.error == ConvertToNodeSet(v).error
  {
    match t
    case NUMBER => Ok(Dbl(ToNumber(v, p)))
    case STRING =>
      (match ConvertToString(v, p) case Ok(s) => Ok(Str(s)) case Err(e) => Err(e))
    case BOOLEAN => Ok(Bool(ToBoolean(v)))
    case NODE =>
      (match ConvertToNode(v)
       case Ok(Some(n)) => Ok(NodeV(n))
       case Ok(None) => Ok(Null)
       case Err(e) => Err(e))
    case NODESET =>
      (match ConvertToNodeSet(v) case Ok(l) => Ok(NodeListV(l)) case Err(e) => Err(e))
    case OtherType(_) => Err(IllegalArgument)
  }

  // ---------------------------------------------------------------------
  // Properties relating the conversions

  /** STRING prints every double other than 2^63 exactly as the code as
      written does: the corrected rendering the conversions use differs from
      it there alone. */
  lemma DoubleStringAsWrittenElsewhere(d: Double, p: Platform)
    requires d != Finite(TWO_63 as real)
    ensures ConvertToString(Dbl(d), p) == Ok(StringOfDoubleAsWritten(d, p))
    ensures ConvertValue(Dbl(d), STRING, p) == Ok(Str(StringOfDoubleAsWritten(d, p)))
  {
    CorrectionOnlyAtTwoTo63(d, p);
  }

  /** A node list whose first item is a node converts, to every type, as
      that node does; its other items are ignored. */
  lemma NodeListUsesFirstItem(n: Node, rest: seq<RawValue>, p: Platform)
    ensures var l := NodeListV(NodeList([NodeV(n)] + rest));
            && ConvertToString(l, p) == ConvertToString(NodeV(n), p)
            && ToNumber(l, p) == ToNumber(NodeV(n), p)
            && ToBoolean(l) == ToBoolean(NodeV(n))
            && ConvertToNode(l) == ConvertToNode(NodeV(n))
  {
  }

  /** NUMBER then BOOLEAN gives back the boolean converted. */
  lemma BooleanNumberRoundTrip(b: bool, p: Platform)
    ensures ToBoolean(Dbl(ToNumber(Bool(b), p))) == b
  {
  }

  /** Text that parses to an integral number in the long range comes back
      from NUMBER then STRING as that number's digits, without ".0" (so
      "3.0" comes back as "3"), and those digits denote the same number. */
  lemma IntegralTextRoundTrip(text: string, k: int, p: Platform)
    requires p.parseDouble(text) == Some(Finite(k as real))
    requires LONG_MIN <= k <= LONG_MAX
    ensures ConvertValue(Dbl(ToNumber(Str(text), p)), STRING, p) == Ok(Str(LongText(k)))
    ensures DecimalValue(LongText(k)) == Some(k)
  {
    assert (k as real).Floor == k;
    LongTextRoundTrip(k);
  }

  /** Text that does not parse is NaN as a NUMBER, and NaN is false as a
      BOOLEAN. */
  lemma UnparsableTextIsFalseNumber(text: string, p: Platform)
    requires p.parseDouble(text).None?
    ensures ToNumber(Str(text), p) == NaN
    ensures !ToBoolean(Dbl(ToNumber(Str(text), p)))
  {
  }
}
