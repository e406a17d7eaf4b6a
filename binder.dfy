/** The controller/route binder of src/index.js: a registry of named controller
    instances and a registry of routes keyed by URL, both insertion-ordered, in
    front of an external router. */
module Binder {
  import opened Optional
  import opened Errors
  import opened JsMap
  import opened PathTemplate

  // ---------------------------------------------------------------------------
  // Entities

  /** A controller class as `register` receives it: its `name` ("" for an anonymous
      class) and the property names whose values are truthy on an instance. */
  datatype ControllerClass = ControllerClass(name: string, members: set<string>)

  /** The instance `new controller()` creates; object identity is the instance's identity. */
  class ControllerInstance {
    const members: set<string>

    constructor (cls: ControllerClass)
      ensures members == cls.members
    {
      members := cls.members;
    }
  }

  /** A value of `controllerBindings`. */
  datatype ControllerBinding = ControllerBinding(name: string, alias: string, controller: ControllerInstance)

  /** A value of `routeBinding`. `actionName` is absent when the action string has no '.'. */
  datatype RouteRecord = RouteRecord(httpMethod: string, url: string, action: string,
                                     controllerName: string, actionName: Option<string>)

  /** What is handed to the router: `controller[actionName]`. */
  datatype Handler = Handler(controller: ControllerInstance, member: string)

  /** One `router[method](url, handler)` call. */
  datatype RouterCall = RouterCall(httpMethod: string, url: string, handler: Handler)

  /** What an operation throws: one of the binding errors (see ErrorOf), the TypeError of
      calling `split` on a non-string action, or the TypeError path-to-regexp raises for a
      parameter without a value. */
  datatype Failure = Raised(thrown: Thrown) | TypeError | MissingParameter(name: string)

  datatype Result<T> = Ok(value: T) | Err(failure: Failure)

  type Bindings = OrderedMap<string, ControllerBinding>
  type Routes = OrderedMap<string, RouteRecord>

  // ---------------------------------------------------------------------------
  // Errors raised by the binder

  /** The binding errors the binder throws, with the values their messages mention. */
  datatype Thrown =
    | NoName
    | AlreadyBound(name: string)
    | InvalidMethod(httpMethod: string)
    | ControllerNotFound(controllerName: string, known: seq<string>)
    | ActionNotFound(actionName: Option<string>, controllerName: string)
    | NotFound

  /** Names joined with ',' as `Array.prototype.join` does. */
  function JoinNames(names: seq<string>): (r: string) {
    if names == [] then "" else if |names| == 1 then names[0] else names[0] + "," + JoinNames(names[1..])
  }

  function ClassOf(t: Thrown): (c: ErrorClass) {
    match t
    case NoName | AlreadyBound(_) | NotFound => ControllerBindingError
    case _ => RouterBindingError
  }

  /** The static property of the class the code is read from. */
  function ConstantOf(t: Thrown): (name: string) {
    match t
    case NoName => "NO_NAME"
    case AlreadyBound(_) => "NAME_ALREADY_BOUND"
    case InvalidMethod(_) => "INVALID_METHOD"
    case ControllerNotFound(_, _) => "CONTROLLER_NOT_FOUND"
    case ActionNotFound(_, _) => "CONTROLLER_ACTION_NOT_FOUND"
    case NotFound => "NOT_FOUND"
  }

  /** The message text. The not-found message is a plain string, not a template literal,
      so it keeps the text `${controllerName}`. */
  function MessageOf(t: Thrown): (m: string) {
    match t
    case NoName =>
      "A name for the controller wasn't provided, please provide a named class instance "
        + "or provide a name in the `options.name` for the `register` call"
    case AlreadyBound(name) => name + " is already bound to a controller"
    case InvalidMethod(httpMethod) => httpMethod + " method doesn't exist on router"
    case ControllerNotFound(controllerName, known) =>
      "Controller with the name " + controllerName + " was not found.\n       Available Names: "
        + JoinNames(known) + "\n       "
    case ActionNotFound(actionName, controllerName) =>
      "Action with the name " + MemberKey(actionName) + " was not found on the controller " + controllerName
    case NotFound => "Cannot find the controller with the name ${controllerName}"
  }

  /** Text followed by the same tail can be read back from the whole. */
  lemma {:induction false} SameTail(a: string, b: string, tail: string)
    ensures a + tail == b + tail ==> a == b
  {
    if a + tail == b + tail {
      assert |a| == |b|;
      assert a == (a + tail)[..|a|] && b == (b + tail)[..|b|];
    }
  }

  /** The already-bound and invalid-method messages determine the name or method they report. */
  lemma {:induction false} MessageDeterminesSubject(a: string, b: string)
    ensures MessageOf(AlreadyBound(a)) == MessageOf(AlreadyBound(b)) ==> a == b
    ensures MessageOf(InvalidMethod(a)) == MessageOf(InvalidMethod(b)) ==> a == b
  {
    var bound := " is already bound to a controller";
    assert MessageOf(AlreadyBound(a)) == a + bound && MessageOf(AlreadyBound(b)) == b + bound;
    SameTail(a, b, bound);
    var missing := " method doesn't exist on router";
    assert MessageOf(InvalidMethod(a)) == a + missing && MessageOf(InvalidMethod(b)) == b + missing;
    SameTail(a, b, missing);
  }

  /** The code the error is constructed with, `<class>.<constant>`: every binder error
      carries a number except the not-found error, whose class defines no NOT_FOUND. */
  function CodeOf(t: Thrown): (c: Code)
    ensures c.Num? <==> !t.NotFound?
  {
    StaticCode(ClassOf(t), ConstantOf(t))
  }

  /** The error object thrown: `new <class>(message, <class>.<constant>)`. */
  function ErrorOf(t: Thrown): (e: BindingError)
    ensures e.cls == ControllerBindingError <==> t.NoName? || t.AlreadyBound? || t.NotFound?
    ensures e.errorCode.Num? <==> !t.NotFound?
  {
    BindingError(ClassOf(t), MessageOf(t), CodeOf(t))
  }

  /** The error was raised with the given class and the code its static constant holds
      (the class and code of ErrorOf(r.failure.thrown)). */
  predicate RaisedWith<T>(r: Result<T>, cls: ErrorClass, constant: string) {
    r.Err? && r.failure.Raised? && ClassOf(r.failure.thrown) == cls
    && StaticCode(cls, ConstantOf(r.failure.thrown)) == StaticCode(cls, constant)
  }

  // ---------------------------------------------------------------------------
  // Action strings: `const [controllerName, actionName] = action.split('.')`

  /** Index of the first '.' in s at or after position k, or |s| when there is none. */
  function DotFrom(s: string, k: nat): (i: nat)
    requires k <= |s|
    ensures k <= i <= |s|
    ensures forall j :: k <= j < i ==> s[j] != '.'
    ensures i < |s| ==> s[i] == '.'
    decreases |s| - k
  {
    if k == |s| || s[k] == '.' then k else DotFrom(s, k + 1)
  }

  /** The first two pieces of `action.split('.')`; the second is absent without a '.'. */
  function SplitAction(action: string): (r: (string, Option<string>))
    ensures '.' !in r.0 && r.0 <= action
    ensures r.1.None? <==> '.' !in action
    ensures r.1.None? ==> r.0 == action
    ensures r.1.Some? ==> '.' !in r.1.value && r.0 + "." + r.1.value <= action
    ensures r.1.Some? ==> var end := |r.0| + 1 + |r.1.value|; end == |action| || action[end] == '.'
  {
    var i := DotFrom(action, 0);
    if i == |action| then (action, None)
    else (action[..i], Some(action[i + 1..DotFrom(action, i + 1)]))
  }

  /** The property key `controller[actionName]` reads: an absent name reads "undefined". */
  function MemberKey(actionName: Option<string>): (key: string) {
    match actionName
    case Some(a) => a
    case None => "undefined"
  }

  /** The scan from k stops at j when no '.' lies in between and j ends the string or holds a '.'. */
  lemma {:induction false} DotFromOf(s: string, k: nat, j: nat)
    requires k <= j <= |s|
    requires forall i :: k <= i < j ==> s[i] != '.'
    requires j == |s| || s[j] == '.'
    ensures DotFrom(s, k) == j
    decreases j - k
  {
    if k < j {
      DotFromOf(s, k + 1, j);
    }
  }

  /** Splitting recovers the pieces of "controller.action", whatever follows a further '.',
      and an action without '.' is all controller name. */
  lemma {:induction false} SplitActionJoin(c: string, a: string, more: string)
    requires '.' !in c && '.' !in a && (more == [] || more[0] == '.')
    ensures SplitAction(c + "." + a + more) == (c, Some(a))
    ensures SplitAction(c) == (c, None)
  {
    var s := c + "." + a + more;
    var j := |c| + 1 + |a|;
    forall i | 0 <= i < |c| ensures s[i] != '.' {
      assert s[i] == c[i];
    }
    DotFromOf(s, 0, |c|);
    forall i | |c| + 1 <= i < j ensures s[i] != '.' {
      assert s[i] == a[i - |c| - 1];
    }
    DotFromOf(s, |c| + 1, j);
    assert s[..|c|] == c;
    assert s[|c| + 1..j] == a;
    DotFromOf(c, 0, |c|);
  }

  // ---------------------------------------------------------------------------
  // register

  /** `options.name || controller.name`. */
  function ResolveName(name: string, cls: ControllerClass): (n: string) {
    if name != "" then name else cls.name
  }

  /** The checks of `register`, in their order: the name it will bind, or what it throws. */
  function CheckRegister(bindings: Bindings, cls: ControllerClass, name: string): (r: Result<string>)
    ensures r.Ok? ==> r.value != "" && r.value !in bindings.entries
  {
    var n := ResolveName(name, cls);
    if n == "" then Err(Raised(NoName))
    else if n in bindings.entries then Err(Raised(AlreadyBound(n)))
    else Ok(n)
  }

  /** `register` fails with NO_NAME exactly when neither the option nor the class gives a
      name, with NAME_ALREADY_BOUND exactly when that name is a key already (an alias key
      included), and otherwise binds the resolved name. */
  lemma {:induction false} RegisterChecks(bindings: Bindings, cls: ControllerClass, name: string)
    ensures var r := CheckRegister(bindings, cls, name);
      var n := if name != "" then name else cls.name;
      && (RaisedWith(r, ControllerBindingError, "NO_NAME") <==> n == "")
      && (RaisedWith(r, ControllerBindingError, "NAME_ALREADY_BOUND") <==> n != "" && n in bindings.entries)
      && (r.Ok? <==> n != "" && n !in bindings.entries)
      && (r.Ok? ==> r.value == n)
  {
    RouterCodesDistinct();
  }

  /** The registry after a successful `register`: the alias entry is set first, then the
      canonical entry, both holding the one new instance. */
  function Bind(m: Bindings, name: string, alias: string, inst: ControllerInstance): (r: Bindings)
    requires m.Valid()
    ensures r.Valid()
    ensures name in r.entries && (alias != "" ==> alias in r.entries)
  {
    var withAlias := if alias != "" then m.Set(alias, ControllerBinding(alias, name, inst)) else m;
    withAlias.Set(name, ControllerBinding(name, name, inst))
  }

  /** After binding, the canonical key holds {name, alias: name} and the alias key holds
      {name: alias, alias: name}, both with the same instance; every other key is untouched,
      and the earlier insertion order is kept. The alias is not checked: if it was already a
      key, its binding is replaced. */
  lemma {:induction false} BindLookups(m: Bindings, name: string, alias: string, inst: ControllerInstance)
    requires m.Valid()
    ensures Bind(m, name, alias, inst).entries[name] == ControllerBinding(name, name, inst)
    ensures alias != "" && alias != name ==>
              Bind(m, name, alias, inst).entries[alias] == ControllerBinding(alias, name, inst)
    ensures alias != "" ==> Bind(m, name, alias, inst).entries[alias].controller == inst
    ensures forall k :: k in m.entries && k != name && k != alias ==> Bind(m, name, alias, inst).entries[k] == m.entries[k]
  {
    var withAlias := if alias != "" then m.Set(alias, ControllerBinding(alias, name, inst)) else m;
    assert Bind(m, name, alias, inst).entries == withAlias.entries[name := ControllerBinding(name, name, inst)];
  }

  /** Binding appends keys: the earlier insertion order is a prefix of the new one. */
  lemma {:induction false} BindKeepsOrder(m: Bindings, name: string, alias: string, inst: ControllerInstance)
    requires m.Valid()
    ensures m.keys <= Bind(m, name, alias, inst).keys
  {
    var withAlias := if alias != "" then m.Set(alias, ControllerBinding(alias, name, inst)) else m;
    if alias != "" {
      SetKeepsOrder(m, alias, ControllerBinding(alias, name, inst));
    }
    SetKeepsOrder(withAlias, name, ControllerBinding(name, name, inst));
  }

  // ---------------------------------------------------------------------------
  // addRoute

  /** The checks of `addRoute`, in their order, and the record it stores on success. */
  function CheckRoute(router: set<string>, bindings: Bindings, httpMethod: string, url: string, action: string)
    : (r: Result<RouteRecord>)
    requires bindings.Valid()
    ensures r.Ok? ==> r.value.url == url && r.value.controllerName in bindings.entries
  {
    if httpMethod !in router then Err(Raised(InvalidMethod(httpMethod)))
    else
      var (c, a) := SplitAction(action);
      if c !in bindings.entries then Err(Raised(ControllerNotFound(c, bindings.keys)))
      else if MemberKey(a) !in bindings.entries[c].controller.members then Err(Raised(ActionNotFound(a, c)))
      else Ok(RouteRecord(httpMethod, url, action, c, a))
  }

  /** Each error of `addRoute` happens exactly when its check is the first to fail,
      and success stores all five fields. */
  lemma {:induction false} AddRouteChecks(router: set<string>, bindings: Bindings, httpMethod: string, url: string, action: string)
    requires bindings.Valid()
    ensures var r := CheckRoute(router, bindings, httpMethod, url, action);
      var (c, a) := SplitAction(action);
      && (RaisedWith(r, RouterBindingError, "INVALID_METHOD") <==> httpMethod !in router)
      && (RaisedWith(r, RouterBindingError, "CONTROLLER_NOT_FOUND") <==>
            httpMethod in router && c !in bindings.entries)
      && (RaisedWith(r, RouterBindingError, "CONTROLLER_ACTION_NOT_FOUND") <==>
            httpMethod in router && c in bindings.entries && MemberKey(a) !in bindings.entries[c].controller.members)
      && (r.Ok? <==> httpMethod in router && c in bindings.entries && MemberKey(a) in bindings.entries[c].controller.members)
      && (r.Ok? ==> r.value == RouteRecord(httpMethod, url, action, c, a))
  {
    RouterCodesDistinct();
  }

  /** The handler `addRoute` passes to the router. */
  function HandlerFor(bindings: Bindings, route: RouteRecord): (h: Handler)
    requires route.controllerName in bindings.entries
  {
    Handler(bindings.entries[route.controllerName].controller, MemberKey(route.actionName))
  }

  // ---------------------------------------------------------------------------
  // routeForAction

  /** The route belongs to the binding's `name` or `alias` and names the action. */
  predicate Matches(route: RouteRecord, binding: ControllerBinding, actionName: Option<string>) {
    (route.controllerName == binding.name || route.controllerName == binding.alias)
    && route.actionName == actionName
  }

  /** Position of the first matching route. */
  function FirstMatch(routes: seq<RouteRecord>, binding: ControllerBinding, actionName: Option<string>)
    : (r: Option<nat>)
    ensures r.Some? ==> r.value < |routes| && Matches(routes[r.value], binding, actionName)
    ensures r.Some? ==> forall j :: 0 <= j < r.value ==> !Matches(routes[j], binding, actionName)
    ensures r.None? ==> forall j :: 0 <= j < |routes| ==> !Matches(routes[j], binding, actionName)
  {
    if routes == [] then None
    else if Matches(routes[0], binding, actionName) then Some(0)
    else
      match FirstMatch(routes[1..], binding, actionName)
      case None => None
      case Some(k) => Some(k + 1)
  }

  /** Compiling a url: the path, or the missing parameter. */
  function CompileUrl(url: string, params: map<string, string>): (r: Result<Option<string>>) {
    match Compile(url, params)
    case Path(p) => Ok(Some(p))
    case ParamError(n) => Err(MissingParameter(n))
  }

  /** `routeForAction` over a registry and the routes in insertion order. */
  function ReverseRoute(bindings: Bindings, routes: seq<RouteRecord>, action: string, params: map<string, string>)
    : (r: Result<Option<string>>)
    ensures var (c, a) := SplitAction(action);
      && (r == Err(Raised(NotFound)) <==> c !in bindings.entries)
      && (c in bindings.entries ==>
            (r == Ok(None) <==> forall j :: 0 <= j < |routes| ==> !Matches(routes[j], bindings.entries[c], a)))
  {
    var (c, a) := SplitAction(action);
    if c !in bindings.entries then Err(Raised(NotFound))
    else
      match FirstMatch(routes, bindings.entries[c], a)
      case None => Ok(None)
      case Some(k) => CompileUrl(routes[k].url, params)
  }

  /** The loop of `routeForAction`: the routes are visited in insertion order, those of
      another controller or another action are skipped, and the first one left is taken. */
  method ScanRoutes(routes: seq<RouteRecord>, binding: ControllerBinding, actionName: Option<string>)
    returns (found: Option<nat>)
    ensures found == FirstMatch(routes, binding, actionName)
  {
    var i := 0;
    while i < |routes|
      invariant 0 <= i <= |routes|
      invariant forall j :: 0 <= j < i ==> !Matches(routes[j], binding, actionName)
    {
      var route := routes[i];
      if route.controllerName != binding.name && route.controllerName != binding.alias {
        i := i + 1;
        continue;
      }
      if route.actionName != actionName {
        i := i + 1;
        continue;
      }
      return Some(i);
    }
    return None;
  }

  /** Two bindings that accept the same routes find the same first route. */
  lemma {:induction false} FirstMatchAgrees(routes: seq<RouteRecord>, b1: ControllerBinding, b2: ControllerBinding,
                                            actionName: Option<string>)
    requires forall j :: 0 <= j < |routes| ==> (Matches(routes[j], b1, actionName) <==> Matches(routes[j], b2, actionName))
    ensures FirstMatch(routes, b1, actionName) == FirstMatch(routes, b2, actionName)
  {
    if routes != [] {
      FirstMatchAgrees(routes[1..], b1, b2, actionName);
    }
  }

  /** With a single route, reverse routing "c.a" compiles that route's url when it matches. */
  lemma {:induction false} ReverseSingleRoute(bindings: Bindings, route: RouteRecord, c: string, a: string,
                                              params: map<string, string>)
    requires '.' !in c && '.' !in a && c in bindings.entries && Matches(route, bindings.entries[c], Some(a))
    ensures ReverseRoute(bindings, [route], c + "." + a, params) == CompileUrl(route.url, params)
  {
    ReverseRouteOf(bindings, [route], c, a, params);
    assert FirstMatch([route], bindings.entries[c], Some(a)) == Some(0);
  }

  /** Reverse routing through the alias gives what the canonical name gives, for routes
      declared under the canonical name (no route is declared under the alias itself). */
  lemma {:induction false} AliasResolvesLikeName(m: Bindings, name: string, alias: string, inst: ControllerInstance,
                              routes: seq<RouteRecord>, actionName: string, params: map<string, string>)
    requires m.Valid() && alias != "" && alias != name
    requires '.' !in name && '.' !in alias && '.' !in actionName
    requires forall j :: 0 <= j < |routes| ==> routes[j].controllerName != alias
    ensures var bindings := Bind(m, name, alias, inst);
      ReverseRoute(bindings, routes, alias + "." + actionName, params)
        == ReverseRoute(bindings, routes, name + "." + actionName, params)
  {
    var bindings := Bind(m, name, alias, inst);
    assert bindings.entries[alias] == ControllerBinding(alias, name, inst)
        && bindings.entries[name] == ControllerBinding(name, name, inst) by {
      BindLookups(m, name, alias, inst);
    }
    ReverseRouteOf(bindings, routes, alias, actionName, params);
    ReverseRouteOf(bindings, routes, name, actionName, params);
    FirstMatchAgrees(routes, bindings.entries[alias], bindings.entries[name], Some(actionName));
  }

  /** The canonical entry's alias is the name itself, so a route declared under the alias
      is found through the alias but not through the canonical name. */
  lemma {:induction false} CanonicalNameMissesAliasRoutes(m: Bindings, name: string, alias: string, inst: ControllerInstance,
                                       url: string, actionName: string, params: map<string, string>)
    requires m.Valid() && alias != "" && alias != name
    requires '.' !in name && '.' !in alias && '.' !in actionName && ':' !in url
    ensures var bindings := Bind(m, name, alias, inst);
      var routes := [RouteRecord("get", url, alias + "." + actionName, alias, Some(actionName))];
      && ReverseRoute(bindings, routes, alias + "." + actionName, params) == Ok(Some(url))
      && ReverseRoute(bindings, routes, name + "." + actionName, params) == Ok(None)
  {
    var bindings := Bind(m, name, alias, inst);
    var routes := [RouteRecord("get", url, alias + "." + actionName, alias, Some(actionName))];
    assert bindings.entries[alias] == ControllerBinding(alias, name, inst)
        && bindings.entries[name] == ControllerBinding(name, name, inst) by {
      BindLookups(m, name, alias, inst);
    }
    assert ReverseRoute(bindings, routes, alias + "." + actionName, params) == Ok(Some(url)) by {
      ReverseRouteOf(bindings, routes, alias, actionName, params);
      assert FirstMatch(routes, bindings.entries[alias], Some(actionName)) == Some(0);
      CompileLiteral(url, params);
    }
    assert ReverseRoute(bindings, routes, name + "." + actionName, params) == Ok(None) by {
      ReverseRouteOf(bindings, routes, name, actionName, params);
      assert FirstMatch(routes, bindings.entries[name], Some(actionName)) == None;
    }
  }

  /** Reverse routing "c.a" for a bound controller c is the first route of c's binding for a. */
  lemma {:induction false} ReverseRouteOf(bindings: Bindings, routes: seq<RouteRecord>, c: string, a: string, params: map<string, string>)
    requires '.' !in c && '.' !in a && c in bindings.entries
    ensures ReverseRoute(bindings, routes, c + "." + a, params) ==
            match FirstMatch(routes, bindings.entries[c], Some(a))
            case None => Ok(None)
            case Some(k) => CompileUrl(routes[k].url, params)
  {
    SplitActionJoin(c, a, []);
    assert c + "." + a + [] == c + "." + a;
  }

  // ---------------------------------------------------------------------------
  // resource: base-path normalisation

  function DropLast(s: string): (r: string) {
    if s == [] then [] else s[..|s| - 1]
  }

  function WithLeadingSlash(base: string): (r: string)
    ensures |r| > 0 && r[0] == '/'
  {
    if |base| > 0 && base[0] == '/' then base else "/" + base
  }

  /** The normalisation as src/index.js writes it: the trailing '/' is cut from the
      ORIGINAL base, losing the '/' that was just prepended. */
  function NormalizeBaseAsWritten(base: string): (r: string)
    ensures base == "" ==> r == ""
    ensures base != "" && base[|base| - 1] == '/' ==> r + "/" == base
    ensures base != "" && base[|base| - 1] != '/' ==> r == WithLeadingSlash(base)
  {
    var normalized := WithLeadingSlash(base);
    if normalized[|normalized| - 1] == '/' then DropLast(base) else normalized
  }

  /** "items/" loses its leading slash, so it and "/items/" normalise differently. */
  lemma NormalizeBaseAsWrittenLosesSlash()
    ensures NormalizeBaseAsWritten("items/") == "items"
    ensures NormalizeBaseAsWritten("/items/") == "/items"
  {
  }

  /** The normalisation as intended: a leading '/' is ensured, then one trailing '/' is cut. */
  function NormalizeBase(base: string): (r: string)
    ensures r == "" || r[0] == '/'
    ensures var w := WithLeadingSlash(base);
      && (w[|w| - 1] == '/' ==> w == r + "/")
      && (w[|w| - 1] != '/' ==> r == w)
  {
    var normalized := WithLeadingSlash(base);
    if normalized[|normalized| - 1] == '/' then DropLast(normalized) else normalized
  }

  /** Whether the base was written with a leading '/' does not matter. */
  lemma {:induction false} NormalizeBaseIgnoresLeadingSlash(base: string)
    requires base == [] || base[0] != '/'
    ensures NormalizeBase(base) == NormalizeBase("/" + base)
  {
    assert WithLeadingSlash("/" + base) == "/" + base;
  }

  /** Each route is stored under its own url and names a controller key of the registry. */
  ghost predicate RoutesBound(routes: Routes, bindings: Bindings) {
    forall u | u in routes.entries ::
      routes.entries[u].url == u && routes.entries[u].controllerName in bindings.entries
  }

  /** Keys are never removed from the registry, so routes stay bound as it grows. */
  lemma RoutesBoundGrow(routes: Routes, b1: Bindings, b2: Bindings)
    requires RoutesBound(routes, b1) && b1.entries.Keys <= b2.entries.Keys
    ensures RoutesBound(routes, b2)
  {
  }

  /** Storing a route under its own url, for a controller key of the registry, keeps routes bound. */
  lemma {:induction false} RoutesBoundSet(routes: Routes, bindings: Bindings, route: RouteRecord)
    requires routes.Valid() && RoutesBound(routes, bindings)
    requires route.controllerName in bindings.entries
    ensures RoutesBound(routes.Set(route.url, route), bindings)
  {
  }

  // ---------------------------------------------------------------------------
  // The binder object

  /** The object `createControllerBinder(router)` returns, with the two Maps it closes over.
      The router is the set of its method names that are truthy; `routerCalls` logs the
      registrations made on it. */
  class ControllerBinder {
    const router: set<string>
    var controllerBindings: Bindings
    var routeBinding: Routes
    var routerCalls: seq<RouterCall>

    /** Both tables are well-formed Maps, each route is stored under its own url, and
        names a controller key (keys are never removed). */
    ghost predicate Valid()
      reads this
    {
      controllerBindings.Valid() && routeBinding.Valid() && RoutesBound(routeBinding, controllerBindings)
    }

    /** `createControllerBinder(router)`. */
    constructor (router: set<string>)
      ensures Valid()
      ensures this.router == router
      ensures controllerBindings.keys == [] && routeBinding.keys == [] && routerCalls == []
    {
      this.router := router;
      controllerBindings := Empty();
      routeBinding := Empty();
      routerCalls := [];
    }

    /** `getController(name)`; an unknown name makes the source crash, hence the requirement. */
    function GetController(name: string): (c: ControllerInstance)
      reads this
      requires name in controllerBindings.entries
    {
      controllerBindings.entries[name].controller
    }

    /** `register(controller, {name, alias})`. */
    method Register(cls: ControllerClass, name: string, alias: string) returns (r: Result<()>)
      requires Valid()
      modifies this
      ensures Valid()
      ensures routeBinding == old(routeBinding) && routerCalls == old(routerCalls)
      ensures var check := CheckRegister(old(controllerBindings), cls, name);
        check.Err? ==> r == Err(check.failure) && controllerBindings == old(controllerBindings)
      ensures var check := CheckRegister(old(controllerBindings), cls, name);
        check.Ok? ==>
          && r == Ok(())
          && check.value in controllerBindings.entries
          && fresh(GetController(check.value))
          && GetController(check.value).members == cls.members
          && controllerBindings == Bind(old(controllerBindings), check.value, alias, GetController(check.value))
      ensures var check := CheckRegister(old(controllerBindings), cls, name);
        check.Ok? && alias != "" ==>
          alias in controllerBindings.entries && GetController(alias) == GetController(check.value)
    {
      var n := ResolveName(name, cls);
      if n == "" {
        return Err(Raised(NoName));
      }
      if controllerBindings.Has(n) {
        return Err(Raised(AlreadyBound(n)));
      }
      var inst := new ControllerInstance(cls);
      var bindings := Bind(controllerBindings, n, alias, inst);
      BindLookups(controllerBindings, n, alias, inst);
      RoutesBoundGrow(routeBinding, controllerBindings, bindings);
      controllerBindings := bindings;
      r := Ok(());
    }

    /** `addRoute(method, url, action)`. */
    method AddRoute(httpMethod: string, url: string, action: string) returns (r: Result<()>)
      requires Valid()
      modifies this
      ensures Valid()
      ensures controllerBindings == old(controllerBindings)
      ensures var check := CheckRoute(router, old(controllerBindings), httpMethod, url, action);
        && (check.Err? ==>
              r == Err(check.failure) && routeBinding == old(routeBinding) && routerCalls == old(routerCalls))
        && (check.Ok? ==>
              && r == Ok(())
              && routeBinding == old(routeBinding).Set(url, check.value)
              && routerCalls == old(routerCalls) + [RouterCall(httpMethod, url, HandlerFor(old(controllerBindings), check.value))])
    {
      if httpMethod !in router {
        return Err(Raised(InvalidMethod(httpMethod)));
      }
      var (controllerName, actionName) := SplitAction(action);
      if controllerName !in controllerBindings.entries {
        return Err(Raised(ControllerNotFound(controllerName, controllerBindings.keys)));
      }
      var controller := controllerBindings.entries[controllerName].controller;
      if MemberKey(actionName) !in controller.members {
        return Err(Raised(ActionNotFound(actionName, controllerName)));
      }
      var route := RouteRecord(httpMethod, url, action, controllerName, actionName);
      RoutesBoundSet(routeBinding, controllerBindings, route);
      routerCalls := routerCalls + [RouterCall(httpMethod, url, Handler(controller, MemberKey(actionName)))];
      routeBinding := routeBinding.Set(url, route);
      r := Ok(());
    }

    /** `get(url, action)`: `addRoute('get', url, action)`. */
    method Get(url: string, action: string) returns (r: Result<()>)
      requires Valid()
      modifies this
      ensures Valid()
      ensures controllerBindings == old(controllerBindings)
      ensures var check := CheckRoute(router, old(controllerBindings), "get", url, action);
        && (check.Err? ==>
              r == Err(check.failure) && routeBinding == old(routeBinding) && routerCalls == old(routerCalls))
        && (check.Ok? ==>
              && r == Ok(())
              && routeBinding == old(routeBinding).Set(url, check.value)
              && routerCalls == old(routerCalls) + [RouterCall("get", url, HandlerFor(old(controllerBindings), check.value))])
    {
      r := AddRoute("get", url, action);
    }

    /** `post(url, action)`: `addRoute('post', url, action)`. */
    method Post(url: string, action: string) returns (r: Result<()>)
      requires Valid()
      modifies this
      ensures Valid()
      ensures controllerBindings == old(controllerBindings)
      ensures var check := CheckRoute(router, old(controllerBindings), "post", url, action);
        && (check.Err? ==>
              r == Err(check.failure) && routeBinding == old(routeBinding) && routerCalls == old(routerCalls))
        && (check.Ok? ==>
              && r == Ok(())
              && routeBinding == old(routeBinding).Set(url, check.value)
              && routerCalls == old(routerCalls) + [RouterCall("post", url, HandlerFor(old(controllerBindings), check.value))])
    {
      r := AddRoute("post", url, action);
    }

    /** `put(url, action)`: `addRoute('put', url, action)`. */
    method Put(url: string, action: string) returns (r: Result<()>)
      requires Valid()
      modifies this
      ensures Valid()
      ensures controllerBindings == old(controllerBindings)
      ensures var check := CheckRoute(router, old(controllerBindings), "put", url, action);
        && (check.Err? ==>
              r == Err(check.failure) && routeBinding == old(routeBinding) && routerCalls == old(routerCalls))
        && (check.Ok? ==>
              && r == Ok(())
              && routeBinding == old(routeBinding).Set(url, check.value)
              && routerCalls == old(routerCalls) + [RouterCall("put", url, HandlerFor(old(controllerBindings), check.value))])
    {
      r := AddRoute("put", url, action);
    }

    /** `delete(url, action)`: `addRoute('delete', url, action)`. */
    method Delete(url: string, action: string) returns (r: Result<()>)
      requires Valid()
      modifies this
      ensures Valid()
      ensures controllerBindings == old(controllerBindings)
      ensures var check := CheckRoute(router, old(controllerBindings), "delete", url, action);
        && (check.Err? ==>
              r == Err(check.failure) && routeBinding == old(routeBinding) && routerCalls == old(routerCalls))
        && (check.Ok? ==>
              && r == Ok(())
              && routeBinding == old(routeBinding).Set(url, check.value)
              && routerCalls == old(routerCalls) + [RouterCall("delete", url, HandlerFor(old(controllerBindings), check.value))])
    {
      r := AddRoute("delete", url, action);
    }

    /** `resource(base, controllerName)` up to its first route declaration. An unknown
        controller fails before the base is looked at. Otherwise the first `this.get` is
        given `controller.index` as its action, a method or undefined (controller members
        are taken to be methods): it fails with INVALID_METHOD when the router has no
        `get`, and else with a TypeError at `action.split`. Either way nothing is stored; `attempted` is the base it used. */
    method Resource(base: string, controllerName: string) returns (attempted: Option<string>, failure: Failure)
      requires Valid()
      ensures controllerName !in controllerBindings.entries ==>
                attempted == None && failure == Raised(NotFound)
      ensures controllerName in controllerBindings.entries ==>
                && attempted == Some(NormalizeBaseAsWritten(base))
                && failure == if "get" in router then TypeError else Raised(InvalidMethod("get"))
    {
      if controllerName !in controllerBindings.entries {
        return None, Raised(NotFound);
      }
      var normalized := NormalizeBaseAsWritten(base);
      attempted := Some(normalized);
      if "get" !in router {
        failure := Raised(InvalidMethod("get"));
      } else {
        failure := TypeError;
      }
    }

    /** `listRoutes()`: one entry per stored url, in insertion order. */
    function ListRoutes(): (routes: seq<RouteRecord>)
      reads this
      requires Valid()
      ensures |routes| == |routeBinding.keys|
      ensures forall i :: 0 <= i < |routes| ==>
                routes[i].url == routeBinding.keys[i] && routes[i] == routeBinding.entries[routeBinding.keys[i]]
    {
      ValuesOf(routeBinding.keys, routeBinding.entries)
    }

    /** `routeForAction(action, params)`: a scan of the routes in insertion order that
        compiles the url of the first match. */
    method RouteForAction(action: string, params: map<string, string>) returns (r: Result<Option<string>>)
      requires Valid()
      ensures r == ReverseRoute(controllerBindings, ListRoutes(), action, params)
    {
      var (controllerName, actionName) := SplitAction(action);
      if controllerName !in controllerBindings.entries {
        return Err(Raised(NotFound));
      }
      var binding := controllerBindings.entries[controllerName];
      var routes := ListRoutes();
      var found := ScanRoutes(routes, binding, actionName);
      match found
      case None => return Ok(None);
      case Some(k) => return CompileUrl(routes[k].url, params);
    }
  }

  /** `listRoutes()` lists each url once: routes are keyed by url. */
  lemma {:induction false} ListedUrlsDistinct(binder: ControllerBinder)
    requires binder.Valid()
    ensures var routes := binder.ListRoutes();
      forall i, j :: 0 <= i < j < |routes| ==> routes[i].url != routes[j].url
  {
    KeysDistinct(binder.routeBinding);
  }

  /** A fresh binder over `router` with `cls` registered under its class name and an alias. */
  method NamedController(router: set<string>, cls: ControllerClass, alias: string) returns (binder: ControllerBinder)
    requires cls.name != "" && alias != "" && alias != cls.name
    ensures fresh(binder) && binder.Valid() && binder.router == router
    ensures binder.routeBinding.keys == [] && binder.routeBinding.entries == map[]
    ensures cls.name in binder.controllerBindings.entries && alias in binder.controllerBindings.entries
    ensures binder.controllerBindings.entries[cls.name].name == cls.name
    ensures binder.controllerBindings.entries[cls.name].controller.members == cls.members
    ensures binder.controllerBindings.entries[alias].alias == cls.name
  {
    var name := cls.name;
    binder := new ControllerBinder(router);
    ghost var empty := binder.controllerBindings;
    var registered := binder.Register(cls, "", alias);
    assert !empty.Has(name);
    BindLookups(empty, name, alias, binder.GetController(name));
  }

  /** The setting of the binder's reverse-routing tests (there with "NamedController", the
      alias "named" and the url "/get/:id"): a router with `get`, a controller class with an
      `index` action registered under its class name and an alias, and `get(url, name + '.index')`. */
  method NamedControllerWithRoute(router: set<string>, cls: ControllerClass, alias: string, url: string)
    returns (binder: ControllerBinder, route: RouteRecord)
    requires "get" in router && "index" in cls.members
    requires cls.name != "" && alias != "" && alias != cls.name && '.' !in cls.name && '.' !in alias
    ensures fresh(binder) && binder.Valid()
    ensures cls.name in binder.controllerBindings.entries && alias in binder.controllerBindings.entries
    ensures binder.controllerBindings.entries[cls.name].name == cls.name
    ensures binder.controllerBindings.entries[alias].alias == cls.name
    ensures route.controllerName == cls.name && route.actionName == Some("index") && route.url == url
    ensures binder.ListRoutes() == [route]
  {
    var name := cls.name;
    binder := NamedController(router, cls, alias);
    var action := name + "." + "index";
    route := RouteRecord("get", url, action, name, Some("index"));
    assert CheckRoute(binder.router, binder.controllerBindings, "get", url, action) == Ok(route) by {
      SplitActionJoin(name, "index", []);
      assert action + [] == action;
    }
    var added := binder.Get(url, action);
    assert binder.ListRoutes() == [route] by {
      assert binder.routeBinding.keys == [url] && binder.routeBinding.entries[url] == route;
      var routes := binder.ListRoutes();
      assert |routes| == 1 && routes[0] == route;
    }
  }

  /** `routeForAction(name + '.index', params)` and the same through the alias both compile
      the one route's url (with the tests' "/get/:id" and id 1, "/get/1": see CompileExample). */
  method ReverseRouteScenario(router: set<string>, cls: ControllerClass, alias: string, url: string,
                              params: map<string, string>)
    returns (viaName: Result<Option<string>>, viaAlias: Result<Option<string>>)
    requires "get" in router && "index" in cls.members
    requires cls.name != "" && alias != "" && alias != cls.name && '.' !in cls.name && '.' !in alias
    ensures viaName == CompileUrl(url, params) && viaAlias == CompileUrl(url, params)
  {
    var binder, route := NamedControllerWithRoute(router, cls, alias, url);
    viaName := binder.RouteForAction(cls.name + "." + "index", params);
    ReverseSingleRoute(binder.controllerBindings, route, cls.name, "index", params);
    viaAlias := binder.RouteForAction(alias + "." + "index", params);
    ReverseSingleRoute(binder.controllerBindings, route, alias, "index", params);
  }
}
