/** JXPathXPathFactory: the javax.xml.xpath provider. It keeps the factory's
    feature flag and default resolvers, hands out evaluators (XPathImpl)
    that remember those defaults, builds the JXPath evaluation context with
    adapters over the host's resolvers, and maps JXPath's exceptions to the
    ones the javax.xml.xpath API declares. The JXPath engine itself is a
    parameter. */
module Factory {
  import opened Base
  import opened Dom
  import opened Interfaces
  import opened XPathValues
  import NodeLists
  import VariableResolvers
  import FunctionResolvers
  import NamespaceSupport

  /** `JXPathXPathFactory.URI`, the JXPath object model. */
  const URI: string := "http://commons.apache.org/jxpath"

  /** `XPathFactory.DEFAULT_OBJECT_MODEL_URI`, the W3C DOM object model. */
  const DEFAULT_OBJECT_MODEL_URI: string := "http://java.sun.com/jaxp/xpath/dom"

  // ---------------------------------------------------------------------
  // The evaluation context handed to JXPath

  /** The state ResolversSupport keeps: the resolvers, the namespace
      context (each may be null) and the secure flag. */
  datatype Resolvers = Resolvers(
    variableResolver: Option<VariableResolver>,
    functionResolver: Option<FunctionResolver>,
    nsContext: Option<NamespaceContext>,
    secure: bool)

  /** The JXPath `Functions` installed in a context: the secure singleton,
      or the adapter over a host function resolver. */
  datatype Functions =
    | SecureFunctions
    | FunctionsImpl(resolver: FunctionResolver, nsContext: Option<NamespaceContext>)

  /** The JXPath `Variables` adapter over a host variable resolver. */
  datatype Variables = VariablesImpl(resolver: VariableResolver)

  /** A JXPath `Function` as the adapters hand it out: the secure singleton,
      which is its own function, or a wrapper of a host XPathFunction. */
  datatype Function = SecureFunction | FunctionImpl(hostFunction: XPathFunction)

  /** What `newContext` configures on a fresh JXPathContext: its context
      object, leniency, and the installed functions and variables (None when
      nothing is installed). */
  datatype EvalContext = EvalContext(
    root: RawValue,
    lenient: bool,
    functions: Option<Functions>,
    variables: Option<Variables>)

  /** `ResolversSupport.newContext(obj)`: always lenient; in secure mode the
      secure functions whatever the resolver, otherwise the resolver adapter
      exactly when a function resolver is set; the variable adapter exactly
      when a variable resolver is set. */
  function NewContext(r: Resolvers, root: RawValue): (c: EvalContext)
    ensures c.root == root && c.lenient
    ensures r.secure ==> c.functions == Some(SecureFunctions)
    ensures !r.secure ==> (c.functions.Some? <==> r.functionResolver.Some?)
    ensures !r.secure && r.functionResolver.Some? ==>
              c.functions == Some(FunctionsImpl(r.functionResolver.value, r.nsContext))
    ensures c.variables.Some? <==> r.variableResolver.Some?
    ensures c.variables.Some? ==> c.variables.value.resolver == r.variableResolver.value
  {
    var functions :=
      if r.secure then Some(SecureFunctions)
      else if r.functionResolver.Some? then Some(FunctionsImpl(r.functionResolver.value, r.nsContext))
      else None;
    var variables :=
      if r.variableResolver.Some? then Some(VariablesImpl(r.variableResolver.value)) else None;
    EvalContext(root, true, functions, variables)
  }

  // ---------------------------------------------------------------------
  // VariablesImpl

  /** `VariablesImpl.getVariable(name)`: the host's value for the name in no
      namespace (a null name is refused by the QName constructor). */
  function GetVariable(v: Variables, name: Option<string>): (r: Result<RawValue>)
    ensures name.None? <==> r == Err(IllegalArgument)
    ensures name.Some? ==> r == Ok(v.resolver.resolveVariable(QName(NULL_NS_URI, name.value)))
  {
    match NewQName(Some(NULL_NS_URI), name)
    case Err(e) => Err(e)
    case Ok(q) => Ok(v.resolver.resolveVariable(q))
  }

  /** `VariablesImpl.isDeclaredVariable(name)`: whether the host's value is
      non-null. */
  function IsDeclaredVariable(v: Variables, name: Option<string>): (r: Result<bool>)
    ensures r.Ok? <==> GetVariable(v, name).Ok?
    ensures r.Ok? ==> (r.value <==> !GetVariable(v, name).value.Null?)
  {
    match GetVariable(v, name)
    case Err(e) => Err(e)
    case Ok(value) => Ok(value != Null)
  }

  /** `VariablesImpl.declareVariable`: variables are read-only through
      JXPath; it always raises. */
  function DeclareVariable(v: Variables, name: Option<string>, value: RawValue): (r: Outcome)
    ensures r == Raised(Unsupported)
  {
    Raised(Unsupported)
  }

  /** `VariablesImpl.undeclareVariable`: always raises. */
  function UndeclareVariable(v: Variables, name: Option<string>): (r: Outcome)
    ensures r == Raised(Unsupported)
  {
    Raised(Unsupported)
  }

  /** Over the registry of an XPathVariableResolverSupport, a JXPath variable
      is declared exactly when its name, in no namespace, is declared there. */
  lemma VariablesOverSupportTable(m: VariableResolvers.Table, name: string)
    requires VariableResolvers.NoNullValues(m)
    ensures var v := VariablesImpl(VariableResolver(q => VariableResolvers.Lookup(m, q)));
            && GetVariable(v, Some(name)) == Ok(VariableResolvers.Lookup(m, QName(NULL_NS_URI, name)))
            && IsDeclaredVariable(v, Some(name)) == Ok(QName(NULL_NS_URI, name) in m)
  {
  }

  // ---------------------------------------------------------------------
  // SecureFunctions, FunctionsImpl and FunctionImpl

  /** `Functions.getFunction(namespace, name, parameters)`. The secure
      singleton answers itself for everything. The adapter first maps the
      namespace (JXPath passes the prefix) through the namespace context when
      there is one, then asks the host resolver for that name with the
      argument count as arity. A null prefix is refused by the namespace
      context, as the NamespaceContext interface requires; a null namespace
      with no context, or a null answer from it, is no namespace. */
  function GetFunction(fs: Functions, namespace: Option<string>, name: string, params: seq<RawValue>)
    : (r: Result<Option<Function>>)
    ensures fs.SecureFunctions? ==> r == Ok(Some(SecureFunction))
    ensures fs.FunctionsImpl? && fs.nsContext.Some? && namespace.None? ==> r == Err(IllegalArgument)
    ensures fs.FunctionsImpl? && (fs.nsContext.None? || namespace.Some?) ==> r.Ok?
    ensures fs.FunctionsImpl? && r.Ok? ==>
              var uri := if fs.nsContext.Some? then fs.nsContext.value.namespaceURI(namespace.value) else namespace;
              var found := fs.resolver.resolveFunction(QName(if uri.Some? then uri.value else NULL_NS_URI, name), |params|);
              (r.value.None? <==> found.None?) && (found.Some? ==> r.value == Some(FunctionImpl(found.value)))
  {
    match fs
    case SecureFunctions => Ok(Some(SecureFunction))
    case FunctionsImpl(resolver, nsContext) =>
      if nsContext.Some? && namespace.None? then Err(IllegalArgument)
      else
        var uri := if nsContext.Some? then nsContext.value.namespaceURI(namespace.value) else namespace;
        var q := NewQName(uri, Some(name)).value;
        match resolver.resolveFunction(q, |params|)
        case None => Ok(None)
        case Some(f) => Ok(Some(FunctionImpl(f)))
  }

  /** The argument FunctionImpl hands the host for one JXPath parameter: a
      NodeSet becomes a NodeListImpl over its nodes (`getNodes()` is a
      List), anything else passes through. */
  function Argument(param: RawValue): (arg: RawValue)
    ensures !arg.NodeSetV?
    ensures param.NodeSetV? ==> arg.NodeListV? && arg.nodeList.list == param.nodes
    ensures !param.NodeSetV? ==> arg == param
  {
    match param
    case NodeSetV(nodes) => NodeListV(NodeLists.Create(CollectionV(nodes, true)).value)
    case _ => param
  }

  /** The argument list FunctionImpl builds: same length, same order. */
  function Arguments(params: seq<RawValue>): (args: seq<RawValue>)
    ensures |args| == |params|
    ensures forall i :: 0 <= i < |params| ==> args[i] == Argument(params[i])
  {
    seq(|params|, i requires 0 <= i < |params| => Argument(params[i]))
  }

  /** The loop of `FunctionImpl.invoke` that builds the argument list. */
  method ConvertArguments(params: seq<RawValue>) returns (args: seq<RawValue>)
    ensures args == Arguments(params)
  {
    args := [];
    var i := 0;
    while i < |params|
      invariant 0 <= i <= |params|
      invariant |args| == i
      invariant forall j :: 0 <= j < i ==> args[j] == Argument(params[j])
    {
      var param := params[i];
      var arg;
      if param.NodeSetV? {
        var l := NodeLists.Create(CollectionV(param.nodes, true));
        arg := NodeListV(l.value);
      } else {
        arg := param;
      }
      args := args + [arg];
      i := i + 1;
    }
  }

  /** The catch clause of `FunctionImpl.invoke`: an XPathFunctionException
      from the host becomes a JXPathException caused by it; any other
      outcome passes through. */
  function Rethrow(r: Result<RawValue>): (out: Result<RawValue>)
    ensures r.Ok? ==> out == r
    ensures r.Err? && r.error.XPathFunctionError? ==> out == Err(JXPathError(Some(r.error)))
    ensures r.Err? && !r.error.XPathFunctionError? ==> out == r
    ensures out.Err? ==> !out.error.XPathFunctionError?
  {
    if r.Err? && r.error.XPathFunctionError? then Err(JXPathError(Some(r.error))) else r
  }

  /** `Function.invoke(context, parameters)`: the secure function always
      raises SecureFunctionException; a wrapped host function is evaluated on
      the converted arguments. */
  method Invoke(fn: Function, params: seq<RawValue>) returns (r: Result<RawValue>)
    ensures fn.SecureFunction? ==> r == Err(SecureFunctionError)
    ensures fn.FunctionImpl? ==> r == Rethrow(fn.hostFunction.evaluate(Arguments(params)))
  {
    match fn
    case SecureFunction =>
      r := Err(SecureFunctionError);
    case FunctionImpl(f) =>
      var args := ConvertArguments(params);
      r := Rethrow(f.evaluate(args));
  }

  /** The catch clauses of the evaluate methods: SecureFunctionException
      becomes XPathFunctionException, any other JXPathException becomes
      XPathExpressionException, each caused by the original; other
      exceptions pass through. Neither JXPath exception reaches the caller. */
  function Translate(e: Exception): (out: Exception)
    ensures e.SecureFunctionError? ==> out == XPathFunctionError(Some(e))
    ensures e.JXPathError? ==> out == XPathExpressionError(Some(e))
    ensures !e.SecureFunctionError? && !e.JXPathError? ==> out == e
    ensures !out.SecureFunctionError? && !out.JXPathError?
  {
    match e
    case SecureFunctionError => XPathFunctionError(Some(e))
    case JXPathError(_) => XPathExpressionError(Some(e))
    case _ => e
  }

  /** In secure mode every function call in an expression finds the secure
      function, whatever resolvers are set, and its failure reaches the
      caller as an XPathFunctionException. */
  lemma SecureModeRefusesFunctions(r: Resolvers, root: RawValue, namespace: Option<string>, name: string,
                                   params: seq<RawValue>)
    requires r.secure
    ensures var c := NewContext(r, root);
            && c.functions == Some(SecureFunctions)
            && GetFunction(c.functions.value, namespace, name, params) == Ok(Some(SecureFunction))
            && Translate(SecureFunctionError) == XPathFunctionError(Some(SecureFunctionError))
  {
  }

  /** A host function's XPathFunctionException reaches the caller of
      evaluate as an XPathExpressionException caused by the JXPathException
      that wraps it. */
  lemma HostFunctionErrorReachesCaller(f: XPathFunction, params: seq<RawValue>, cause: Option<Exception>)
    requires f.evaluate(Arguments(params)) == Err(XPathFunctionError(cause))
    ensures var out := Rethrow(f.evaluate(Arguments(params)));
            out.Err? && Translate(out.error) == XPathExpressionError(Some(JXPathError(Some(XPathFunctionError(cause)))))
  {
  }

  /** Over the registry of an XPathFunctionResolverSupport, with no
      namespace context, a call of `name` with n arguments finds the
      function registered for that name in no namespace and arity n, unless
      one is registered for any arity. */
  lemma FunctionsOverSupportRegistry(m: FunctionResolvers.Registry, name: string, params: seq<RawValue>,
                                     f: XPathFunction)
    requires FunctionResolvers.QNameKey(QName(NULL_NS_URI, name)) !in m
    ensures var res := FunctionResolver((q, n) => FunctionResolvers.Resolve(m, q, n));
            var reg := FunctionResolvers.Register(m, QName(NULL_NS_URI, name), |params|, f);
            var after := FunctionResolver((q, n) => FunctionResolvers.Resolve(reg, q, n));
            GetFunction(FunctionsImpl(after, None), None, name, params) == Ok(Some(FunctionImpl(f)))
  {
    FunctionResolvers.ResolveAfterRegister(m, QName(NULL_NS_URI, name), |params|, f, |params|);
  }

  /** With a NamespaceContextSupport table as namespace context, a function
      prefix is looked up in the table, and an unbound prefix means no
      namespace. */
  lemma FunctionPrefixThroughTable(res: FunctionResolver, b: map<string, string>, prefix: string, name: string,
                                   params: seq<RawValue>)
    ensures var r := GetFunction(FunctionsImpl(res, Some(NamespaceSupport.TableContext(b))), Some(prefix), name, params);
            var found := res.resolveFunction(QName(NamespaceSupport.UriOf(b, prefix), name), |params|);
            r.Ok? && (r.value.None? <==> found.None?) && (found.Some? ==> r.value == Some(FunctionImpl(found.value)))
  {
  }

  // ---------------------------------------------------------------------
  // The JXPath engine

  /** A JXPath CompiledExpression, known only by identity. */
  datatype CompiledExpression = CompiledExpression(id: nat)

  /** A JXPath Pointer, by the node `getNode()` returns. */
  datatype Pointer = Pointer(node: RawValue)

  /** The JXPath calls the adapter makes, each of which may throw:
      `JXPathContext.compile`, `selectSingleNode` and `selectNodes` on a
      context, and `getPointer` (null when nothing is found) and
      `iteratePointers` on a compiled expression. */
  datatype Engine = Engine(
    compile: string -> Result<CompiledExpression>,
    selectSingleNode: (EvalContext, string) -> Result<RawValue>,
    selectNodes: (EvalContext, string) -> Result<seq<RawValue>>,
    getPointer: (CompiledExpression, EvalContext, string) -> Result<Option<Pointer>>,
    iteratePointers: (CompiledExpression, EvalContext) -> Result<seq<Pointer>>)

  // ---------------------------------------------------------------------
  // The factory

  class JXPathXPathFactory {
    var variableResolver: Option<VariableResolver>
    var functionResolver: Option<FunctionResolver>
    var secure: bool

    constructor ()
      ensures variableResolver == None && functionResolver == None && !secure
    {
      variableResolver := None;
      functionResolver := None;
      secure := false;
    }

    /** `getFeature(name)`: only secure processing is known; any other
        name raises XPathFactoryConfigurationException. */
    function GetFeature(name: Option<string>): (r: Result<bool>)
      reads this
      ensures name.None? ==> r == Err(NullPointer)
      ensures r.Ok? <==> name == Some(FEATURE_SECURE_PROCESSING)
      ensures r.Ok? ==> r.value == secure
      ensures name.Some? && name.value != FEATURE_SECURE_PROCESSING ==> r == Err(FactoryConfiguration)
    {
      match name
      case None => Err(NullPointer)
      case Some(n) => if n == FEATURE_SECURE_PROCESSING then Ok(secure) else Err(FactoryConfiguration)
    }

    /** `setFeature(name, value)`: sets secure processing; any other name
        raises and nothing changes. */
    method SetFeature(name: Option<string>, value: bool) returns (r: Outcome)
      modifies this
      ensures variableResolver == old(variableResolver) && functionResolver == old(functionResolver)
      ensures r.Done? <==> name == Some(FEATURE_SECURE_PROCESSING)
      ensures r.Done? ==> secure == value && GetFeature(name) == Ok(value)
      ensures r.Raised? ==> secure == old(secure) && r.error == GetFeature(name).error
    {
      if name.None? {
        return Raised(NullPointer);
      }
      if name.value == FEATURE_SECURE_PROCESSING {
        secure := value;
        r := Done;
      } else {
        r := Raised(FactoryConfiguration);
      }
    }

    /** `isObjectModelSupported(uri)`: the JXPath and the DOM object models,
        and no other. */
    function IsObjectModelSupported(uri: Option<string>): (r: Result<bool>)
      ensures uri.None? <==> r == Err(NullPointer)
      ensures r.Ok? ==> (r.value <==> uri.value == URI || uri.value == DEFAULT_OBJECT_MODEL_URI)
    {
      match uri
      case None => Err(NullPointer)
      case Some(u) => Ok(u == URI || u == DEFAULT_OBJECT_MODEL_URI)
    }

    /** `setXPathFunctionResolver(obj)`: the default for later evaluators;
        null is accepted. */
    method SetXPathFunctionResolver(obj: Option<FunctionResolver>)
      modifies this
      ensures functionResolver == obj
      ensures variableResolver == old(variableResolver) && secure == old(secure)
    {
      functionResolver := obj;
    }

    /** `setXPathVariableResolver(obj)`: the default for later evaluators;
        null is accepted. */
    method SetXPathVariableResolver(obj: Option<VariableResolver>)
      modifies this
      ensures variableResolver == obj
      ensures functionResolver == old(functionResolver) && secure == old(secure)
    {
      variableResolver := obj;
    }

    /** `newXPath()`: a fresh evaluator with the factory's current resolvers
        and secure flag, and no namespace context. */
    method NewXPath() returns (x: XPathImpl)
      ensures fresh(x)
      ensures x.State() == Resolvers(variableResolver, functionResolver, None, secure)
      ensures x.origVariableResolver == variableResolver && x.origFunctionResolver == functionResolver
    {
      x := new XPathImpl(variableResolver, functionResolver, secure);
    }
  }

  /** The object models the test suite asks about. */
  lemma ObjectModelExamples(f: JXPathXPathFactory)
    ensures f.IsObjectModelSupported(Some(URI)) == Ok(true)
    ensures f.IsObjectModelSupported(Some(DEFAULT_OBJECT_MODEL_URI)) == Ok(true)
    ensures f.IsObjectModelSupported(Some("kjhkhskhdkjsd")) == Ok(false)
  {
  }

  // ---------------------------------------------------------------------
  // XPathImpl

  class XPathImpl {
    var variableResolver: Option<VariableResolver>
    var functionResolver: Option<FunctionResolver>
    var nsContext: Option<NamespaceContext>
    const secure: bool
    const origVariableResolver: Option<VariableResolver>
    const origFunctionResolver: Option<FunctionResolver>

    constructor (vr: Option<VariableResolver>, fr: Option<FunctionResolver>, secure: bool)
      ensures variableResolver == vr && functionResolver == fr && nsContext == None && this.secure == secure
      ensures origVariableResolver == vr && origFunctionResolver == fr
    {
      variableResolver := vr;
      functionResolver := fr;
      nsContext := None;
      this.secure := secure;
      origVariableResolver := vr;
      origFunctionResolver := fr;
    }

    /** The ResolversSupport state as it stands now. */
    function State(): Resolvers
      reads this
    {
      Resolvers(variableResolver, functionResolver, nsContext, secure)
    }

    function GetNamespaceContext(): Option<NamespaceContext>
      reads this
    {
      nsContext
    }

    function GetXPathFunctionResolver(): Option<FunctionResolver>
      reads this
    {
      functionResolver
    }

    function GetXPathVariableResolver(): Option<VariableResolver>
      reads this
    {
      variableResolver
    }

    /** `setNamespaceContext(ns)`: null raises NullPointerException and
        nothing changes; otherwise the getter returns it. */
    method SetNamespaceContext(ns: Option<NamespaceContext>) returns (r: Outcome)
      modifies this
      ensures ns.None? ==> r == Raised(NullPointer) && State() == old(State())
      ensures ns.Some? ==> r == Done && GetNamespaceContext() == ns
      ensures variableResolver == old(variableResolver) && functionResolver == old(functionResolver)
    {
      if ns.None? {
        return Raised(NullPointer);
      }
      nsContext := ns;
      r := Done;
    }

    /** `setXPathFunctionResolver(resolver)`: null raises and nothing
        changes; otherwise the getter returns it. */
    method SetXPathFunctionResolver(resolver: Option<FunctionResolver>) returns (r: Outcome)
      modifies this
      ensures resolver.None? ==> r == Raised(NullPointer) && State() == old(State())
      ensures resolver.Some? ==> r == Done && GetXPathFunctionResolver() == resolver
      ensures variableResolver == old(variableResolver) && nsContext == old(nsContext)
    {
      if resolver.None? {
        return Raised(NullPointer);
      }
      functionResolver := resolver;
      r := Done;
    }

    /** `setXPathVariableResolver(resolver)`: null raises and nothing
        changes; otherwise the getter returns it. */
    method SetXPathVariableResolver(resolver: Option<VariableResolver>) returns (r: Outcome)
      modifies this
      ensures resolver.None? ==> r == Raised(NullPointer) && State() == old(State())
      ensures resolver.Some? ==> r == Done && GetXPathVariableResolver() == resolver
      ensures functionResolver == old(functionResolver) && nsContext == old(nsContext)
    {
      if resolver.None? {
        return Raised(NullPointer);
      }
      variableResolver := resolver;
      r := Done;
    }

    /** `reset()`: back to the resolvers the evaluator was created with,
        whatever was set since, and no namespace context. */
    method Reset()
      modifies this
      ensures State() == Resolvers(origVariableResolver, origFunctionResolver, None, secure)
    {
      variableResolver := origVariableResolver;
      functionResolver := origFunctionResolver;
      nsContext := None;
    }

    /** `compile(expression)`: a JXPathException from the compiler becomes
        XPathExpressionException; on success the expression carries the
        evaluator's current resolvers, namespace context and secure flag. */
    function Compile(engine: Engine, expression: string): (r: Result<XPathExpressionImpl>)
      reads this
      ensures engine.compile(expression).Ok? <==> r.Ok?
      ensures r.Ok? ==> r.value == XPathExpressionImpl(engine.compile(expression).value, expression, State())
      ensures r.Err? && engine.compile(expression).error.JXPathError? ==>
                r.error == XPathExpressionError(Some(engine.compile(expression).error))
      ensures r.Err? ==> !r.error.JXPathError?
    {
      match engine.compile(expression)
      case Ok(ce) => Ok(XPathExpressionImpl(ce, expression, State()))
      case Err(e) => Err(if e.JXPathError? then XPathExpressionError(Some(e)) else e)
    }

    /** `evaluate(expression, item, returnType)`: NODE gives the engine's
        single node unconverted, NODESET wraps the engine's node list in a
        NodeListImpl, any other type converts the single node; JXPath's
        exceptions are translated and never reach the caller. */
    function Evaluate(engine: Engine, p: Platform, expression: string, item: RawValue, t: ReturnType)
      : (r: Result<RawValue>)
      reads this
      ensures var c := NewContext(State(), item);
              t.NODE? && engine.selectSingleNode(c, expression).Ok? ==> r == engine.selectSingleNode(c, expression)
      ensures var c := NewContext(State(), item);
              t.NODESET? && engine.selectNodes(c, expression).Ok? ==>
                r == Ok(NodeListV(NodeList(engine.selectNodes(c, expression).value)))
      ensures var c := NewContext(State(), item);
              !t.NODE? && !t.NODESET? && engine.selectSingleNode(c, expression).Ok? ==>
                r == ConvertValue(engine.selectSingleNode(c, expression).value, t, p)
      ensures var c := NewContext(State(), item);
              t.NODESET? && engine.selectNodes(c, expression).Err? ==>
                r == Err(Translate(engine.selectNodes(c, expression).error))
      ensures var c := NewContext(State(), item);
              !t.NODESET? && engine.selectSingleNode(c, expression).Err? ==>
                r == Err(Translate(engine.selectSingleNode(c, expression).error))
      ensures r.Err? ==> !r.error.SecureFunctionError? && !r.error.JXPathError?
    {
      var c := NewContext(State(), item);
      if t.NODE? then
        match engine.selectSingleNode(c, expression)
        case Ok(v) => Ok(v)
        case Err(e) => Err(Translate(e))
      else if t.NODESET? then
        match engine.selectNodes(c, expression)
        case Ok(nodes) => Ok(NodeListV(NodeLists.Create(CollectionV(nodes, true)).value))
        case Err(e) => Err(Translate(e))
      else
        match engine.selectSingleNode(c, expression)
        case Ok(v) => ConvertValue(v, t, p)
        case Err(e) => Err(Translate(e))
    }

    /** `evaluate(expression, item)`: the STRING evaluation, as a string. */
    function EvaluateToString(engine: Engine, p: Platform, expression: string, item: RawValue)
      : (r: Result<string>)
      reads this
      ensures r.Ok? <==> Evaluate(engine, p, expression, item, STRING).Ok?
      ensures r.Ok? ==> Evaluate(engine, p, expression, item, STRING) == Ok(Str(r.value))
      ensures r.Err? ==> r.error == Evaluate(engine, p, expression, item, STRING).error
    {
      match Evaluate(engine, p, expression, item, STRING)
      case Ok(v) => Ok(v.s)
      case Err(e) => Err(e)
    }
  }

  /** An expression whose evaluation calls a function in secure mode fails
      with XPathFunctionException, never with a JXPath exception. */
  lemma SecureFailureReachesCaller(x: XPathImpl, engine: Engine, p: Platform, expression: string, item: RawValue,
                                   t: ReturnType)
    requires engine.selectSingleNode(NewContext(x.State(), item), expression) == Err(SecureFunctionError)
    requires engine.selectNodes(NewContext(x.State(), item), expression) == Err(SecureFunctionError)
    ensures x.Evaluate(engine, p, expression, item, t) == Err(XPathFunctionError(Some(SecureFunctionError)))
  {
  }

  // ---------------------------------------------------------------------
  // XPathExpressionImpl

  /** The nodes of a sequence of pointers, in order. */
  function PointerNodes(ps: seq<Pointer>): (nodes: seq<RawValue>)
    ensures |nodes| == |ps|
    ensures forall i :: 0 <= i < |ps| ==> nodes[i] == ps[i].node
  {
    seq(|ps|, i requires 0 <= i < |ps| => ps[i].node)
  }

  /** The node a pointer gives, null for no pointer. */
  function NodeOf(p: Option<Pointer>): RawValue
  {
    if p.Some? then p.value.node else Null
  }

  /** A compiled expression: the compiled form, its text (which JXPath uses
      only in messages) and the resolvers its XPath had when it was
      compiled. It is never changed afterwards. */
  datatype XPathExpressionImpl = XPathExpressionImpl(compiled: CompiledExpression, xpathString: string, resolvers: Resolvers)
  {
    /** `evaluate(obj, returnType)` as a value: a null object raises
        NullPointerException; NODE gives the node of the first pointer (null
        when there is none), NODESET the nodes of all pointers in a
        NodeListImpl, any other type converts the first pointer's node; JXPath's
        exceptions are translated and never reach the caller. */
    function EvaluationResult(engine: Engine, p: Platform, obj: RawValue, t: ReturnType): (r: Result<RawValue>)
      ensures obj.Null? ==> r == Err(NullPointer)
      ensures var c := NewContext(resolvers, obj);
              !obj.Null? && t.NODE? && engine.getPointer(compiled, c, xpathString).Ok? ==>
                r == Ok(NodeOf(engine.getPointer(compiled, c, xpathString).value))
      ensures var c := NewContext(resolvers, obj);
              !obj.Null? && t.NODESET? && engine.iteratePointers(compiled, c).Ok? ==>
                r == Ok(NodeListV(NodeList(PointerNodes(engine.iteratePointers(compiled, c).value))))
      ensures var c := NewContext(resolvers, obj);
              !obj.Null? && t.NODESET? && engine.iteratePointers(compiled, c).Err? ==>
                r == Err(Translate(engine.iteratePointers(compiled, c).error))
      ensures var c := NewContext(resolvers, obj);
              !obj.Null? && !t.NODESET? && engine.getPointer(compiled, c, xpathString).Err? ==>
                r == Err(Translate(engine.getPointer(compiled, c, xpathString).error))
      ensures var c := NewContext(resolvers, obj);
              !obj.Null? && !t.NODE? && !t.NODESET? && engine.getPointer(compiled, c, xpathString).Ok? ==>
                r == ConvertValue(NodeOf(engine.getPointer(compiled, c, xpathString).value), t, p)
      ensures r.Err? ==> !r.error.SecureFunctionError? && !r.error.JXPathError?
    {
      if obj.Null? then Err(NullPointer)
      else
        var c := NewContext(resolvers, obj);
        if t.NODE? then
          match engine.getPointer(compiled, c, xpathString)
          case Ok(ptr) => Ok(NodeOf(ptr))
          case Err(e) => Err(Translate(e))
        else if t.NODESET? then
          match engine.iteratePointers(compiled, c)
          case Ok(ps) => Ok(NodeListV(NodeList(PointerNodes(ps))))
          case Err(e) => Err(Translate(e))
        else
          match engine.getPointer(compiled, c, xpathString)
          case Ok(ptr) => ConvertValue(NodeOf(ptr), t, p)
          case Err(e) => Err(Translate(e))
    }

    /** `evaluate(obj)`: the STRING evaluation, as a string. */
    function EvaluationString(engine: Engine, p: Platform, obj: RawValue): (r: Result<string>)
      ensures r.Ok? <==> EvaluationResult(engine, p, obj, STRING).Ok?
      ensures r.Ok? ==> EvaluationResult(engine, p, obj, STRING) == Ok(Str(r.value))
      ensures r.Err? ==> r.error == EvaluationResult(engine, p, obj, STRING).error
    {
      match EvaluationResult(engine, p, obj, STRING)
      case Ok(v) => Ok(v.s)
      case Err(e) => Err(e)
    }

    /** `evaluate(obj, returnType)`, collecting the pointers' nodes one by
        one for NODESET. */
    method Evaluate(engine: Engine, p: Platform, obj: RawValue, t: ReturnType) returns (r: Result<RawValue>)
      ensures r == EvaluationResult(engine, p, obj, t)
    {
      if obj.Null? {
        return Err(NullPointer);
      }
      var c := NewContext(resolvers, obj);
      if t.NODESET? {
        var it := engine.iteratePointers(compiled, c);
        if it.Err? {
          return Err(Translate(it.error));
        }
        var ps := it.value;
        var list: seq<RawValue> := [];
        var i := 0;
        while i < |ps|
          invariant 0 <= i <= |ps|
          invariant list == PointerNodes(ps[..i])
        {
          list := list + [ps[i].node];
          i := i + 1;
        }
        assert ps[..|ps|] == ps;
        var l := NodeLists.Create(CollectionV(list, true));
        return Ok(NodeListV(l.value));
      }
      var ptr := engine.getPointer(compiled, c, xpathString);
      if ptr.Err? {
        return Err(Translate(ptr.error));
      }
      if t.NODE? {
        r := Ok(NodeOf(ptr.value));
      } else {
        r := ConvertValue(NodeOf(ptr.value), t, p);
      }
    }
  }

  /** A compiled expression keeps the resolvers, namespace context and
      secure flag its XPath had at compile time: after the XPath is given a
      new namespace context and new resolvers, it evaluates exactly as before
      and in the compile-time context, while an expression compiled afresh
      sees the new settings. */
  method CompiledIgnoresLaterSetters(x: XPathImpl, engine: Engine, p: Platform, expression: string, obj: RawValue,
                                     t: ReturnType, ns: NamespaceContext, fr: FunctionResolver, vr: VariableResolver)
    returns (before: Result<RawValue>, after: Result<RawValue>, recompiled: Result<XPathExpressionImpl>)
    requires engine.compile(expression).Ok?
    modifies x
    ensures before == after
    ensures after == XPathExpressionImpl(engine.compile(expression).value, expression, old(x.State()))
                       .EvaluationResult(engine, p, obj, t)
    ensures x.State() == Resolvers(Some(vr), Some(fr), Some(ns), x.secure)
    ensures recompiled.Ok? && recompiled.value.resolvers == x.State()
  {
    var compiled := x.Compile(engine, expression);
    var e := compiled.value;
    before := e.EvaluationResult(engine, p, obj, t);
    var _ := x.SetNamespaceContext(Some(ns));
    var _ := x.SetXPathFunctionResolver(Some(fr));
    var _ := x.SetXPathVariableResolver(Some(vr));
    after := e.EvaluationResult(engine, p, obj, t);
    recompiled := x.Compile(engine, expression);
  }

  // ---------------------------------------------------------------------
  // Document parsing

  /** How the DocumentBuilderFactory is configured before parsing an
      InputSource. */
  datatype BuilderConfig = BuilderConfig(
    validating: bool, namespaceAware: bool, coalescing: bool, expandEntityReferences: bool)

  /** `getDocumentBuilder(secure)`: non-validating, namespace aware,
      coalescing, and entity references are expanded only outside secure
      mode. */
  function DocumentBuilderConfig(secure: bool): (c: BuilderConfig)
    ensures !c.validating && c.namespaceAware && c.coalescing
    ensures c.expandEntityReferences <==> !secure
  {
    BuilderConfig(false, true, true, !secure)
  }
}
