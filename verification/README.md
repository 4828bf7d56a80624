# react-proxy class proxies, modelled in Dafny

This project models `createClassProxy.js` from react-proxy: the per-class
handle `proxyClass(InitialClass)` returns. The handle owns one stable
constructor, `ProxyClass`. That constructor delegates to whichever class
definition `update` was given last (`CurrentClass`). The class-level
(static) properties of every definition are reconciled onto the constructor
as accessors. Values assigned through those accessors are kept in an
overlay, `dynamicStatics`, so they survive later updates.

- `static_names.dfy` (module `StaticNames`) is the name arithmetic of
  `updateStatics`:
  - the ignore list `ignoreSpecialStatics`;
  - `Array.prototype.filter` and lodash `difference` on name lists;
  - the set of newly seen names.
- `class_proxy.dfy` (module `ClassProxy`) covers the rest:
  - JavaScript values, property descriptors and class definitions, as data;
  - the shape of the synthesized accessor;
  - strict-mode assignment to a static;
  - the cycle guard;
  - the `Handle` class, whose fields are the state the source keeps in
    closures (`CurrentClass`, `dynamicStatics`, the own properties of
    `ProxyClass`, `ProxyClass.displayName`);
  - `proxyClass` itself, as `CreateClassProxy`.

How JavaScript is represented:

- A class definition is a `ClassDef` value:
  - its identity;
  - its own property names in `getOwnPropertyNames` order;
  - a descriptor for each name;
  - `marker`, the own `__reactPatchProxy` back-reference that only proxy
    constructors carry.
- `typeof x === 'function'` holds exactly for `Value.Func`.
- `update` throwing `Error('Expected a constructor.')` becomes
  `Failure(NotAConstructor)`, and the state is left unchanged.
- The prototype registry (`createPrototypeProxy`) becomes a function
  parameter, `registry`. It maps the new definition's `prototype` to the
  mounted instances that `update` returns.

## Model

| member | source | states |
|---|---|---|
| StaticNames.IgnoreSpecialStatics | src/createClassProxy.js:7-10 | a name may be reconciled iff it is none of `__reactPatchProxy`, `type` and `displayName` |
| StaticNames.FilterAppend | src/createClassProxy.js:32-33 | filtering keeps the list's order: the filter of a concatenation is the concatenation of the filters |
| StaticNames.FilterSingle | src/createClassProxy.js:32-33 | a one-name list keeps its name iff the name passes; with `FilterAppend` this fixes the filter's result completely |
| StaticNames.DifferenceAppend | src/createClassProxy.js:35 | lodash `difference` keeps the order of its first list: the difference of a concatenation is the concatenation of the differences |
| StaticNames.Filter | src/createClassProxy.js:32-33 | a name is kept iff it is in the list and passes the predicate; the result is no longer than the list and stays repetition-free; its order is that of the list (`FilterAppend`) |
| StaticNames.Difference | src/createClassProxy.js:35 | lodash `difference`: a name is in the result iff it is in the first list and not in the second; stays repetition-free; its order is that of the first list (`DifferenceAppend`) |
| StaticNames.AddedNames | src/createClassProxy.js:7-35 | a name is newly added iff it is an own name of the next definition, not an own name of the proxy constructor, and not special |
| StaticNames.NothingAddedTwice | src/createClassProxy.js:32-35 | once the added names have become own names of the proxy constructor, reconciling the same names again adds none |
| ClassProxy.PutStatic | src/createClassProxy.js:61 | `CurrentClass[name] = val` in strict mode throws iff the static is a non-writable data property or an accessor without a setter; otherwise it is read-after-write for data statics, every other static reads as before, and a missing name is appended to the own names |
| ClassProxy.Synthesize | src/createClassProxy.js:38-64 | `enumerable` is copied, defaulting to false; `configurable` is copied, defaulting to true; a data static gets a getter iff its value is truthy and a setter iff it is writable; an accessor static gets a getter iff it has a getter and a setter iff it has a setter |
| ClassProxy.PlanForSpec | src/createClassProxy.js:37-67 | defining accessors for a list of names defines one per listed name, shaped from that name's descriptor |
| ClassProxy.InstallPlanSpec | src/createClassProxy.js:31-67 | reconciliation defines an accessor for exactly the own statics of the next definition that are neither special nor already own, each shaped from the static's own descriptor |
| ClassProxy.ReloadInstallsNothing | src/createClassProxy.js:31-67 | reconciling the same definition a second time defines nothing |
| ClassProxy.FalsyStaticHasNoGetter | src/createClassProxy.js:45-57 | a newly seen data static with a falsy value (`0`, `''`, `false`, ...) is given an accessor without a getter |
| ClassProxy.DisplayNameOf | src/createClassProxy.js:96 | `NextClass.name \|\| NextClass.displayName`: a truthy `name` (a non-empty string, a function, an object) wins, a falsy `name` yields the `displayName` static, and the label is truthy iff either one is |
| ClassProxy.ProxyName | src/createClassProxy.js:23-27 | the generated constructor is named after a non-empty string `name` of the initial class, otherwise `ProxyClass`, so the name is never empty |
| ClassProxy.Resolve | src/createClassProxy.js:78-81 | the cycle guard replaces a proxy constructor by the `CurrentClass` of the handle its marker names, which is never itself a proxy constructor; a plain class passes unchanged |
| ClassProxy.ReconcileKeepsConsistent | src/createClassProxy.js:31-67 | a whole reconciliation keeps the own names consistent with the installed accessors |
| ClassProxy.ReconcileKeepsInstalled | src/createClassProxy.js:31-67 | a reconciliation never redefines an accessor it installed before |
| ClassProxy.LabelKeepsConsistent | src/createClassProxy.js:96 | assigning `displayName` on the proxy constructor keeps its own names consistent |
| ClassProxy.Labelled | src/createClassProxy.js:96 | after `ProxyClass.displayName` is assigned, `displayName` is an own name of the proxy constructor, and the own names are otherwise the same |
| ClassProxy.Handle.SyntheticGet | src/createClassProxy.js:54-56 | the synthesized getter returns the overlay's value when the name has been assigned through the proxy constructor, else the current definition's static |
| ClassProxy.Handle.OwnDescriptor | src/createClassProxy.js:48-66 | an installed static's own descriptor copies the accessor's `enumerable` and `configurable`, has a setter iff the accessor does, reads through the synthesized getter when it has one and reads `undefined` otherwise; `name`, `length`, `prototype` and `displayName` hold the generated name, 0, the shared prototype and the assigned label |
| ClassProxy.Handle.Get | src/createClassProxy.js:108-110 | `get()` is a function whose identity is the handle's fixed constructor identity, whose marker points back to this handle, and whose own names are the handle's own names |
| ClassProxy.Handle.GetCurrent | src/createClassProxy.js:112-114 | `getCurrent()` is a well-formed definition that is never a proxy constructor |
| ClassProxy.Handle.ReadStatic | src/createClassProxy.js:53-57 | reading a static through the proxy constructor: the overlay value when one was assigned and the accessor has a getter; otherwise the current definition's static; `undefined` when the accessor has no getter; names that are not own fall through to the current definition |
| ClassProxy.Handle.constructor | src/createClassProxy.js:19-116 | lines 19-29, 71 and 116: a fresh handle is named after the initial class, points at the shared prototype, delegates to it, and has an empty overlay; its own names and accessors are those of the first update |
| ClassProxy.Handle.Update | src/createClassProxy.js:73-106 | a non-function is rejected and nothing changes; a proxy constructor is replaced by its current definition (recursion depth at most one); otherwise `CurrentClass` becomes the resolved class, `displayName` becomes `name \|\| displayName`, newly seen statics get accessors, earlier accessors and the overlay stay as they were, overlaid statics read the same value, the identity of `get()` is unchanged, and the result is the registry's instance list |
| ClassProxy.Handle.Reload | src/createClassProxy.js:83-105 | the body of `update` for a plain class: the same new state as `update`, and no accessor installed before is redefined |
| ClassProxy.Handle.UpdateStatics | src/createClassProxy.js:31-68 | the own names gain exactly the added names, and the accessors gain exactly the install plan; the handle's invariant is kept |
| ClassProxy.Handle.DefineAccessors | src/createClassProxy.js:37-67 | defining accessors one name at a time, in order, appends the names and adds one synthesized accessor per name |
| ClassProxy.Handle.SyntheticSet | src/createClassProxy.js:59-64 | the synthesized setter writes through to `CurrentClass`; when that throws, the overlay is untouched; otherwise the overlay records the value and a gettable static reads it back |
| ClassProxy.CreateClassProxy | src/createClassProxy.js:12-134 | wrapping a proxy constructor returns the handle already managing it; a non-function is rejected; otherwise the result is a new, valid handle delegating to the class, with an empty overlay, the generated name, the given prototype, the label `name \|\| displayName`, and the own names and accessors of the first `update` |

## Left out

- `createPrototypeProxy`, `bindAutoBindMethods` and `deleteUnknownAutoBindMethods` are not part of this model. The prototype registry is the `registry` parameter. The two auto-bind passes over the mounted instances (lines 101-102) are not modelled, because they only touch instances.
- The `new Function` code generation and the delegation of calls from `ProxyClass` to `CurrentClass` (lines 23-27) are not modelled. Only the generated constructor's name is.
- The prototype rewiring `ProxyClass.prototype = ...`, `prototype.constructor = ProxyClass` and `__proto__ = NextClass` (lines 71, 90, 93) is reduced to this: a static that is not an own name of the proxy constructor is read from the current definition. Statics inherited along a class's own prototype chain are not modelled.
- Getters of class definitions and setters of accessor statics are foreign code. A getter is modelled as the constant value it returns. A setter is modelled as succeeding and leaving the definition unchanged.
- The assignment `ProxyClass.displayName = ...` (line 96) is modelled as an ordinary own data write. Until `ProxyClass` owns `displayName` (after the first update, unless that update called a setter of the definition instead), the assignment goes through the current definition's `displayName`, which line 93 has made inherited: a non-writable data `displayName` or an accessor without a setter (`static get displayName()`) makes it throw, and an accessor with a setter has that setter called instead, so `ProxyClass` still gets no own `displayName`. In that setter case the throw can happen on any later update, after lines 84 and 87 have already changed `CurrentClass` and the registry. None of this is modelled.
- Own names that some engines give non-strict functions (`arguments`, `caller`) are not among the proxy constructor's built-in own names. Statics with those names are therefore reconciled in this model.
- `CreateClassProxy`: `new Function` (lines 23-27) throws a SyntaxError when the initial class's `name` is not a valid function name, for example `default` (the name of an anonymous `export default class`). The model returns a handle instead.
- Assignments to the proxy constructor that do not go through a synthesized setter (`ProxyClass.foo = 1` for a name it does not own) create an own data property through the inherited [[Set]]. Such a name is then never reconciled (line 33). The model has no such operation, and `ClassProxy.OwnNamesConsistent` assumes nothing else writes to `ProxyClass`.
- `ProxyName`: a `name` that is a non-string truthy value (for example an object from a static getter, or a static method named `name`) is converted to a string by the source: `[object Object]`, a method's source text, a number or `true`. None of these is a valid function name, so `new Function` (lines 23-27) throws a SyntaxError, as for `default` above. The model falls back to `ProxyClass` and returns a handle.
- `proxyClass(null)` and `proxyClass(undefined)` throw a TypeError while the source reads their properties. For a non-function object that carries an own `__reactPatchProxy`, line 16 returns the value of that property. Neither case is modelled: a non-function argument always yields `NotAConstructor`.
- `DefineAccessors` records the installed accessors in a map, so the order in which `Object.defineProperty` defines them is kept only in `ownKeys`.
- Class definitions are values. Aliasing between a definition shared by two handles is not modelled: a write through one handle's setter is not seen by the other.
- The overlay's `hasOwnProperty` test (line 55) is modelled as map membership. A static named `hasOwnProperty` that shadows the method on `dynamicStatics` is not modelled.

## Notes on the code

- Line 45 tests the truthiness of `originalDesc.value`, not its presence, so `static count = 0` is installed without a getter and reads as `undefined` through the proxy constructor. See `ClassProxy.Synthesize` and `ClassProxy.FalsyStaticHasNoGetter`.
