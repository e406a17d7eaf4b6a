# conrou controller binder, modelled in Dafny

This project models the controller/route binder of conrou, the object that
`createControllerBinder(router)` returns. The binder keeps two JavaScript `Map`s, both
ordered by insertion:

- `controllerBindings` maps a controller name or alias to `{name, alias, controller}`.
- `routeBinding` maps a url to `{method, url, action, controllerName, actionName}`.

Its operations are:

- `register` resolves a name, rejects duplicates and also stores the entry under an alias;
- `addRoute` and its `get`/`post`/`put`/`delete` wrappers check the method, the controller and the action in that order, tell the router, and store the route under its url;
- `getController`;
- `resource`, covering its lookup and base-path normalisation;
- `routeForAction`, a first-match scan in insertion order that reverse-routes an action;
- `listRoutes`.

The project also models the two error classes the binder throws, and `lazyIterator`. That
generator shifts values off an array until it shifts a falsy one.

Modules:

- `Errors` (errors.dfy): the error classes, their code constants, the stored fields, and `toString` together with a parser that reads it back.
- `JsMap` (jsmap.dfy): a `Map` with insertion order, modelled as a key sequence plus a Dafny `map`.
- `PathTemplate` (pathtemplate.dfy): `:name` substitution, standing in for path-to-regexp's `compile`.
- `Binder` (binder.dfy): the binder is the class `ControllerBinder`. Its fields are the two tables and a log of the calls made on the router. `Valid()` is its invariant: both tables are well-formed, each route is stored under its own url, and each route names a registered controller key. Every mutating method preserves `Valid()`. Each method's result and new state are tied to specification functions (`CheckRegister`, `Bind`, `CheckRoute`, `FirstMatch`, `ReverseRoute`), and the lemmas prove what the source promises about those functions.
- `LazyArray` (lazyarray.dfy): the caller's array is the class `JsArray` with `Shift`. The generator is the class `LazyIterator` with `Next`. Ghost fields record what has been yielded, so that the state after exhaustion can be related to the original array.

Behaviour of the code worth knowing:

- `register` does not check the alias for uniqueness. An alias can silently replace an existing key.
- The canonical entry is `{name, alias: name}`. It does not carry the alias.
- The binder has no middleware hooks and no `patch` wrapper.
- For a controller whose members are methods, `resource` never stores a route. Its first `this.get` passes a method, or `undefined`, where a string action is expected.

## Model

| member | source | states |
|---|---|---|
| Errors.StaticCode | src/errors.js:4-23 | among the static names the binder reads (the five code constants and NOT_FOUND) and `length`: a class's static property is a number exactly for the code constants that class defines and for `length`, which is 2 (the constructor's two parameters); the other names read `undefined` |
| Errors.RouterCodesDistinct | src/errors.js:4-6 | INVALID_METHOD, CONTROLLER_NOT_FOUND and CONTROLLER_ACTION_NOT_FOUND are pairwise distinct, and so are NO_NAME and NAME_ALREADY_BOUND |
| Errors.CodesCollideAcrossClasses | src/errors.js:22-23 | NAME_ALREADY_BOUND equals INVALID_METHOD, so two errors of different classes with the same message are different errors yet print the same |
| Errors.NotFoundCodeIsUndefined | src/errors.js:19-24 | ControllerBindingError has no NOT_FOUND constant, so a not-found error carries an undefined code and prints as "undefined - " followed by its message |
| Errors.ToString | src/errors.js:14-16 | the printed form is the code's text, then " - ", then the message, for both classes (the same method at lines 31-33) |
| Errors.ToStringRoundTrip | src/errors.js:8-16 | the constructor keeps message and code unchanged, and `toString` prints `code - message` in a form from which the code and the message can be parsed back unchanged |
| Errors.DecimalRoundTrip | src/errors.js:15 | the decimal text of a code reads back as the same number |
| JsMap.OrderedMap.Set | src/index.js:40-50 | `map.set(k, v)` (here and at line 90) stores v under k, appends a new key at the end, leaves an existing key in its place, and keeps the map well-formed |
| JsMap.KeysDistinct | src/index.js:8-9 | no key occurs twice in a Map's insertion order |
| JsMap.SetSize | src/index.js:90-96 | setting a key that is present keeps the size and every key's position and replaces only its value; setting a new key grows the table by one |
| JsMap.SetKeepsOrder | src/index.js:40-50 | `set` never moves a key that was already there |
| PathTemplate.Compile | src/index.js:193-194 | a failure of `compile(url)(params)` names a parameter that has no value (or the empty name of a ':' with no name after it) |
| PathTemplate.CompileLiteral | src/index.js:192-194 | a url template without parameters compiles to itself |
| PathTemplate.CompileSubstitutes | src/index.js:192-194 | a `:name` parameter is replaced by its value, and the literal text around it is kept |
| PathTemplate.CompileMissing | src/index.js:192-194 | a template whose parameter has no value fails, naming that parameter |
| PathTemplate.CompileExample | tests/index.test.js:114-116 | "/get/:id" with id 1 compiles to "/get/1" |
| Binder.ErrorOf | src/index.js:24-35 | at each throw of the binder (here and at lines 60-63, 69-76, 82-85, 115-118, 174-177), the no-name, already-bound and not-found errors are ControllerBindingErrors and the others RouterBindingErrors; every thrown error carries a numeric code except the not-found errors, whose code is undefined |
| Binder.CodeOf | src/index.js:114-118 | the code read from `<class>.<constant>` at each throw is a number except for NOT_FOUND, read here and at line 176 |
| Binder.MessageDeterminesSubject | src/index.js:31-34 | the already-bound message determines the name it reports, and the invalid-method message (lines 60-61) determines the method: two names with the same message are the same name |
| Binder.SplitAction | src/index.js:66 | the controller name is the text before the first '.', and is the whole action when there is no '.'; the action name is absent exactly when there is no '.', and is otherwise the dot-free text after the first '.', up to the next one (the same split at line 170) |
| Binder.SplitActionJoin | src/index.js:66 | `split('.')` of "c.a", even with more pieces after it, gives c and a; an action without '.' gives the whole string and an absent action name |
| Binder.CheckRegister | src/index.js:21-35 | a successful check yields a non-empty name that is not yet a key |
| Binder.RegisterChecks | src/index.js:22-35 | NO_NAME is raised exactly when neither `options.name` nor the class name is given; NAME_ALREADY_BOUND is raised exactly when the resolved name is already a key (an alias key counts); otherwise the resolved name is bound |
| Binder.Bind | src/index.js:39-50 | after binding, both the canonical name and the alias are keys of a well-formed table |
| Binder.BindLookups | src/index.js:37-50 | the canonical key holds `{name, alias: name}`, the alias key holds `{name: alias, alias: name}` and replaces whatever it held before, both keys hold the one new instance, and every other key is untouched |
| Binder.BindKeepsOrder | src/index.js:39-50 | binding keeps the earlier insertion order as a prefix |
| Binder.CheckRoute | src/index.js:59-86 | a route that passes the checks is stored under its own url and names a registered controller |
| Binder.AddRouteChecks | src/index.js:59-96 | INVALID_METHOD, CONTROLLER_NOT_FOUND and CONTROLLER_ACTION_NOT_FOUND are each raised exactly when their check is the first one to fail, in that order; otherwise the check succeeds and the record holds method, url, action, controller name and action name |
| Binder.FirstMatch | src/index.js:180-191 | the position found is the first route whose controller is the binding's name or alias and whose action matches; with no position, no route matches |
| Binder.ScanRoutes | src/index.js:180-195 | the loop, with its two `continue` tests, returns exactly the first matching position |
| Binder.FirstMatchAgrees | src/index.js:180-191 | two bindings that accept the same routes find the same first route |
| Binder.ReverseRoute | src/index.js:169-196 | `routeForAction` throws the not-found error exactly when the controller key is unknown; for a known key it returns undefined exactly when no route matches the binding's name or alias and the action |
| Binder.ReverseRouteOf | src/index.js:169-195 | for a known controller c, `routeForAction("c.a")` compiles the url of the first route matching c's binding, and is undefined when there is none |
| Binder.ReverseSingleRoute | src/index.js:169-195 | with one matching route, reverse routing gives that route's compiled url |
| Binder.AliasResolvesLikeName | src/index.js:40-50 | the alias entry names the canonical controller, so for routes declared under the canonical name, reverse routing through the alias gives what the canonical name gives |
| Binder.CanonicalNameMissesAliasRoutes | src/index.js:46-50 | the canonical entry's alias is the name itself, so a route declared through the alias is found through the alias but not through the canonical name |
| Binder.NormalizeBaseAsWritten | src/index.js:121-127 | as written: a base ending in '/' loses that '/' and gets no leading '/'; another non-empty base gets a leading '/' if it has none; the empty base gives "" |
| Binder.NormalizeBaseAsWrittenLosesSlash | src/index.js:121-127 | as written, "items/" normalises to "items", losing the prepended '/', while "/items/" gives "/items" |
| Binder.NormalizeBase | src/index.js:121-127 | the corrected normalisation ensures a leading '/', then strips one trailing '/' when there is one and otherwise changes nothing; the result starts with '/' or is empty |
| Binder.NormalizeBaseIgnoresLeadingSlash | src/index.js:121-127 | with the correction, a base normalises the same with or without a leading '/' |
| Binder.ListedUrlsDistinct | src/index.js:197-202 | `listRoutes()` lists each url once |
| Binder.ControllerBinder.constructor | src/index.js:7-9 | a new binder over `router` starts with both tables empty, no calls on the router, and its invariant established |
| Binder.ControllerBinder.Register | src/index.js:21-51 | on failure it raises the checked error and leaves the registry unchanged; on success it binds a fresh instance of the class under the resolved name, and `getController` (lines 102-104) gives that instance for the name and, when an alias is given, the same instance for the alias; routes and router calls are untouched, and the invariant holds |
| Binder.ControllerBinder.AddRoute | src/index.js:58-97 | on failure it raises the checked error and stores nothing; on success it makes one router call with `controller[actionName]`, then sets the record under its url (a url seen before keeps its place and is replaced); the invariant holds |
| Binder.ControllerBinder.Get | src/index.js:145-147 | behaves as `addRoute` with "get" |
| Binder.ControllerBinder.Post | src/index.js:152-154 | behaves as `addRoute` with "post" |
| Binder.ControllerBinder.Put | src/index.js:159-161 | behaves as `addRoute` with "put" |
| Binder.ControllerBinder.Delete | src/index.js:166-168 | behaves as `addRoute` with "delete" |
| Binder.ControllerBinder.Resource | src/index.js:110-131 | an unknown controller fails with the not-found error before the base is used; otherwise the base normalised as written is used, and the first `get` fails with INVALID_METHOD when the router has no `get`, or else with a TypeError, storing nothing |
| Binder.ControllerBinder.ListRoutes | src/index.js:197-202 | one entry per stored url, in insertion order, each with `url` equal to its key and the stored fields |
| Binder.ControllerBinder.RouteForAction | src/index.js:169-196 | the result is the not-found error for an unknown controller; otherwise it is the compiled url of the first route, in insertion order, matching the binding's name or alias and the action, or undefined when none matches |
| Binder.NamedController | tests/index.test.js:119-131 | registering a named class with an alias on a fresh binder gives both keys, the canonical entry and an instance with the class's members |
| Binder.NamedControllerWithRoute | tests/index.test.js:119-133 | after `get(url, name + ".index")`, `listRoutes()` is exactly that one route |
| Binder.ReverseRouteScenario | tests/index.test.js:103-136 | `routeForAction` by canonical name and by alias both give the compiled url of the route declared under the canonical name |
| LazyArray.Truthy | src/lib/array.js:4 | the loop test `(val = data.shift())` is false exactly on undefined, null, false, 0 and "" (numbers as integers, see "## Left out") |
| LazyArray.TakeTruthy | src/lib/array.js:4-5 | a full run yields the longest truthy prefix of the array, in the array's order, and stops just before the first falsy value |
| LazyArray.TruthyPrefixUnique | src/lib/array.js:4-6 | any split of the array into truthy values, then nothing or a falsy value, then the rest, yields exactly TakeTruthy |
| LazyArray.JsArray.Shift | src/lib/array.js:4 | `shift()` removes and returns the first element, and returns undefined when the array is empty |
| LazyArray.LazyIterator.constructor | src/lib/array.js:1-2 | creating the generator leaves the array untouched |
| LazyArray.LazyIterator.Next | src/lib/array.js:3-8 | each advance removes exactly one front element; a truthy one is yielded, while a falsy one (removed as well) or an empty array ends iteration; after the end the array is left alone. When iteration ends, what was yielded is the truthy prefix and the original array is yielded ++ stopper ++ remaining data |

## Left out

- `getRouter()` is the binder's `router` field. The router is modelled as the set of its method names whose values are truthy. The call `router[method](url, handler)` is recorded in `routerCalls` and not executed.
- Controller classes are modelled as a name plus the set of property names that are truthy on an instance. The constructor's side effects are not modelled.
- Actions and options must be strings. A non-string `action` (the TypeError of `split`) is modelled only for `resource`, and `options` objects other than `{name, alias}` strings are not modelled.
- path-to-regexp's `compile` is modelled only as substitution of `:name` parameters with plain string values. Modifiers, custom patterns, and `encodeURIComponent` on the values are not modelled. A missing value gives `MissingParameter`.
- Binder.ControllerBinder.Resource: modelled up to the first `this.get`. Controller members are taken to be methods, so that call always throws. A controller with a string-valued `index` field would get past `action.split` and could store a route before a later declaration throws; this is not modelled. The remaining route declarations and the call to the nonexistent `this.patch` are not modelled.
- Errors.StaticCode: only the static names the binder reads and `length` are modelled. The class `name` (a string) and the `stackTraceLimit` a V8 engine puts on `Error` are not.
- Binder.ControllerBinder.GetController: an unknown name makes the source crash on `binding.controller`. This is modelled as a precondition.
- Error messages are modelled by the `Thrown` datatype together with `MessageOf`. The inherited `Error` fields (`name`, `stack`) are not modelled.
- LazyArray.JsValue: JavaScript numbers are modelled as integers. NaN and fractions are not modelled.
- LazyArray.LazyIterator.Next: the ghost record ties the iterator to the array only while nobody else mutates the array between calls. Concurrent mutation by the caller is not modelled.
- `src/types/types.d.ts` and `tsup.config.js` hold no logic and are not part of this model.

## Findings

| source | as written | input that shows it | evidently intended | confidence | as-written member | corrected member |
|---|---|---|---|---|---|---|
| src/index.js:126 | `normalizedBase = base.slice(0, -1)` cuts the trailing '/' from the original base, dropping the '/' that line 122 just prepended | `resource("items/", c)` normalises to "items" and not "/items" | `normalizedBase.slice(0, -1)`, giving "/items" | high, not executed | Binder.NormalizeBaseAsWrittenLosesSlash | Binder.NormalizeBaseIgnoresLeadingSlash |
