/**
  The per-class proxy handle of react-proxy: one stable constructor identity
  that delegates to whichever class definition was given last, with the
  class-level (static) properties of every definition reconciled onto it.

  The JavaScript object model is replaced by explicit data: a class
  definition is a value listing its own property names and descriptors, and
  the state the source keeps in closures (`CurrentClass`, `dynamicStatics`,
  the own properties of `ProxyClass`) is the state of a `Handle` object.
 */
module ClassProxy {
  import opened StaticNames

  datatype Option<+T> = None | Some(value: T) {
    function GetOr(default: T): T {
      match this
      case Some(v) => v
      case None => default
    }
  }

  datatype Error =
    | NotAConstructor  // `update` given a value that is not a function: "Expected a constructor."
    | ReadOnlyStatic   // strict-mode TypeError: assignment to a read-only or getter-only static

  datatype Result<+T> = Success(value: T) | Failure(error: Error)

  datatype Outcome = Pass | Fail(error: Error)

  /** A mounted instance, as reported by the prototype registry. */
  type Instance = nat

  /** A JavaScript value, as far as the proxy inspects it. */
  datatype Value =
    | Undefined
    | Null
    | Bool(b: bool)
    | Num(x: real)
    | NaN
    | Str(s: string)
    | Object(ref: nat)     // any other object, or a symbol
    | Func(cls: ClassDef)  // exactly the values whose `typeof` is 'function'

  /** ToBoolean. */
  predicate Truthy(v: Value) {
    match v
    case Undefined => false
    case Null => false
    case Bool(b) => b
    case Num(x) => x != 0.0
    case NaN => false
    case Str(s) => s != ""
    case Object(_) => true
    case Func(_) => true
  }

  /** The value of `a || b`. */
  function Or(a: Value, b: Value): Value {
    if Truthy(a) then a else b
  }

  /**
    A property descriptor (ECMA-262 2015, section 6.2.4). A data property has
    a `value`; an accessor property has `get` when it has a getter (holding
    what the getter returns: getters of class definitions are foreign code
    the model does not run) and `hasSet` when it has a setter. `enumerable`
    and `configurable` are absent only in the empty descriptor `{}`.
   */
  datatype Descriptor = Descriptor(
    value: Option<Value>,
    get: Option<Value>,
    hasSet: bool,
    writable: bool,
    enumerable: Option<bool>,
    configurable: Option<bool>)

  /** The `{}` that `getOwnPropertyDescriptor(...) || {}` falls back on. */
  const NoDescriptor := Descriptor(None, None, false, false, None, None)

  /**
    A class definition: a function object with its identity, its own
    property names in `getOwnPropertyNames` order and their descriptors.
    The own `__reactPatchProxy` property of a proxy constructor is not among
    them: it is `marker`, the back-reference to the handle managing it.
   */
  datatype ClassDef = ClassDef(
    id: nat,
    keys: seq<string>,
    props: map<string, Descriptor>,
    marker: Option<Handle>)

  /** What every function object satisfies: each own name listed once, and described. */
  ghost predicate WellFormed(c: ClassDef) {
    && Distinct(c.keys)
    && (forall n :: n in c.keys ==> n in c.props)
    && (forall n :: n in c.props ==> n in c.keys)
    && MarkerName !in c.props
  }

  /** What reading an own property with descriptor `d` yields. */
  function ReadOwn(d: Descriptor): Value {
    if d.value.Some? then d.value.value else d.get.GetOr(Undefined)
  }

  /** `c[name]` for a static of a class definition (inherited statics are not modelled). */
  function Read(c: ClassDef, name: string): Value {
    if name in c.props then ReadOwn(c.props[name]) else Undefined
  }

  /** `getOwnPropertyDescriptor(c, name) || {}`. */
  function DescriptorOf(c: ClassDef, name: string): Descriptor {
    if name in c.props then c.props[name] else NoDescriptor
  }

  /** Whether an assignment to an existing own property succeeds in strict-mode code. */
  predicate Assignable(d: Descriptor) {
    if d.value.Some? then d.writable else d.hasSet
  }

  /**
    `c[name] = v` in strict-mode code, on a class definition. A writable data
    static takes the new value; a missing static is created as an ordinary
    data property at the end of the own names; an accessor with a setter runs
    that setter, which is foreign code and leaves the definition as the model
    sees it; anything else throws.
   */
  function PutStatic(c: ClassDef, name: string, v: Value): (r: Result<ClassDef>)
    requires WellFormed(c) && name != MarkerName
    ensures r.Failure? <==> name in c.props && !Assignable(c.props[name])
    ensures r.Failure? ==> r.error == ReadOnlyStatic
    ensures r.Success? ==> WellFormed(r.value) && r.value.id == c.id && r.value.marker == c.marker
    ensures r.Success? && (name !in c.props || c.props[name].value.Some?) ==> Read(r.value, name) == v
    ensures r.Success? ==> forall n :: n != name ==> Read(r.value, n) == Read(c, n)
    ensures r.Success? ==> r.value.keys == if name in c.props then c.keys else c.keys + [name]
  {
    if name in c.props then
      var d := c.props[name];
      if !Assignable(d) then Failure(ReadOnlyStatic)
      else if d.value.Some? then Success(c.(props := c.props[name := d.(value := Some(v))]))
      else Success(c)
    else
      assert forall n :: n in c.keys ==> n != name;
      DistinctConcat(c.keys, [name]);
      var added := Descriptor(Some(v), None, false, true, Some(true), Some(true));
      Success(c.(keys := c.keys + [name], props := c.props[name := added]))
  }

  /** The accessor descriptor `updateStatics` defines on the proxy constructor (the closures are implied by the name). */
  datatype Accessor = Accessor(hasGet: bool, hasSet: bool, enumerable: bool, configurable: bool)

  /**
    The shape of the synthesized accessor, derived from the original static's
    descriptor: a getter when the original had a getter or a TRUTHY value, a
    setter when it had a setter or was writable, `enumerable` copied with
    default false, `configurable` copied with default true.
   */
  function Synthesize(d: Descriptor): (a: Accessor)
    ensures a.enumerable <==> d.enumerable == Some(true)
    ensures a.configurable <==> d.configurable != Some(false)
    ensures d.value.Some? && d.get.None? && !d.hasSet ==>
              (a.hasGet <==> Truthy(d.value.value)) && (a.hasSet <==> d.writable)
    ensures d.value.None? && !d.writable ==> (a.hasGet <==> d.get.Some?) && (a.hasSet <==> d.hasSet)
  {
    var gettable := d.get.Some? || (d.value.Some? && Truthy(d.value.value));
    var settable := d.hasSet || d.writable;
    Accessor(gettable, settable, d.enumerable.GetOr(false), d.configurable.GetOr(true))
  }

  /**
    The accessors defined for `names`, in order: one per name, shaped from
    the definition's descriptor for it.
   */
  function PlanFor(c: ClassDef, names: seq<string>): map<string, Accessor> {
    if names == [] then map[]
    else
      var last := names[|names| - 1];
      PlanFor(c, names[..|names| - 1])[last := Synthesize(DescriptorOf(c, last))]
  }

  /** Defining the accessors for `names` one by one defines one per name, each shaped from its descriptor. */
  lemma {:induction false} PlanForSpec(c: ClassDef, names: seq<string>)
    ensures forall n :: n in PlanFor(c, names) <==> n in names
    ensures forall n :: n in PlanFor(c, names) ==> PlanFor(c, names)[n] == Synthesize(DescriptorOf(c, n))
  {
    if names != [] {
      var prefix := names[..|names| - 1];
      PlanForSpec(c, prefix);
      assert names == prefix + [names[|names| - 1]];
    }
  }

  /** One more name extends the accessors defined by exactly that name's accessor. */
  lemma PlanForSnoc(c: ClassDef, names: seq<string>, n: string)
    ensures PlanFor(c, names + [n]) == PlanFor(c, names)[n := Synthesize(DescriptorOf(c, n))]
  {
    assert (names + [n])[..|names|] == names;
  }

  /** Overriding one key of the right operand of a map union overrides it in the union. */
  lemma MergeSnoc(a: map<string, Accessor>, m: map<string, Accessor>, k: string, v: Accessor)
    ensures a + m[k := v] == (a + m)[k := v]
  {
  }

  /** Merging accessors into none yields just those accessors. */
  lemma MergeIntoEmpty(m: map<string, Accessor>)
    ensures map[] + m == m
  {
  }

  /**
    The accessors that reconciling definition `c` against a proxy
    constructor whose own names are `own` defines.
   */
  function InstallPlan(c: ClassDef, own: seq<string>): map<string, Accessor> {
    PlanFor(c, AddedNames(c.keys, own))
  }

  /**
    Reconciliation defines an accessor for exactly the own statics of `c`
    that are neither special nor already own, each shaped from the static's
    own descriptor (the `{}` fallback never applies).
   */
  lemma InstallPlanSpec(c: ClassDef, own: seq<string>)
    requires WellFormed(c)
    ensures forall n :: n in InstallPlan(c, own) <==> n in c.props && n !in own && IgnoreSpecialStatics(n)
    ensures forall n :: n in InstallPlan(c, own) ==> InstallPlan(c, own)[n] == Synthesize(c.props[n])
  {
    PlanForSpec(c, AddedNames(c.keys, own));
  }

  /** Reconciling the same definition again, once its names are own, installs nothing. */
  lemma {:induction false} ReloadInstallsNothing(c: ClassDef, own: seq<string>, later: seq<string>)
    requires WellFormed(c)
    requires forall n :: n in own + AddedNames(c.keys, own) ==> n in later
    ensures InstallPlan(c, later) == map[]
  {
    NothingAddedTwice(c.keys, own, later);
    PlanForSpec(c, []);
  }

  /**
    A newly seen data static whose value is falsy (`0`, `''`, `false`, `null`,
    `undefined`, NaN) gets an accessor without a getter, so reading it through
    the proxy constructor yields `undefined`.
   */
  lemma FalsyStaticHasNoGetter(c: ClassDef, own: seq<string>, n: string)
    requires WellFormed(c) && n in c.props && n !in own && IgnoreSpecialStatics(n)
    requires c.props[n].value.Some? && c.props[n].get.None? && !Truthy(c.props[n].value.value)
    ensures n in InstallPlan(c, own) && !InstallPlan(c, own)[n].hasGet
  {
    InstallPlanSpec(c, own);
  }

  /**
    The label published as `ProxyClass.displayName`: the definition's
    `name` when truthy, else its `displayName` static.
   */
  function DisplayNameOf(c: ClassDef): (r: Value)
    ensures Truthy(Read(c, "name")) ==> r == Read(c, "name")
    ensures !Truthy(Read(c, "name")) ==> r == Read(c, "displayName")
    ensures Truthy(r) <==> Truthy(Read(c, "name")) || Truthy(Read(c, "displayName"))
  {
    Or(Read(c, "name"), Read(c, "displayName"))
  }

  /** The function name of the generated constructor: `InitialClass.name || 'ProxyClass'`. */
  function ProxyName(c: ClassDef): (r: string)
    ensures r != ""
    ensures Read(c, "name").Str? && Read(c, "name").s != "" ==> r == Read(c, "name").s
    ensures !Truthy(Read(c, "name")) ==> r == "ProxyClass"
  {
    match Read(c, "name")
    case Str(s) => if s != "" then s else "ProxyClass"
    case _ => "ProxyClass"
  }

  /**
    The cycle guard: a definition that is itself a proxy constructor stands
    for the current definition of the handle managing it. The result is never
    a proxy constructor, so the guard's recursion stops after one step.
   */
  function Resolve(c: ClassDef): (r: ClassDef)
    reads if c.marker.Some? then {c.marker.value} else {}
    requires c.marker.Some? ==> c.marker.value.Valid()
    ensures r.marker.None?
    ensures c.marker.None? ==> r == c
    ensures c.marker.Some? ==> r == c.marker.value.current
    ensures WellFormed(c) ==> WellFormed(r)
  {
    if c.marker.Some? then c.marker.value.GetCurrent() else c
  }

  /** The own names every generated function starts with (ECMA-262 2015, section 9.2). */
  const BuiltinNames: seq<string> := ["length", "name", "prototype"]

  /** `names` after the first `ProxyClass.displayName = ...` has made `displayName` an own name. */
  function Labelled(names: seq<string>): (r: seq<string>)
    ensures "displayName" in r
    ensures forall n :: n in r <==> n in names || n == "displayName"
  {
    if "displayName" in names then names else names + ["displayName"]
  }

  /**
    The own names of the proxy constructor: listed once each, the built-in
    ones always there, and apart from those and `displayName` exactly the
    installed statics, none of them special.
   */
  ghost predicate OwnNamesConsistent(ownKeys: seq<string>, installed: map<string, Accessor>) {
    && Distinct(ownKeys)
    && (forall n :: n in BuiltinNames ==> n in ownKeys)
    && (forall n :: n in ownKeys ==> n in BuiltinNames || n == "displayName" || n in installed)
    && (forall n :: n in installed ==> n in ownKeys && IgnoreSpecialStatics(n) && n !in BuiltinNames)
  }

  /** A freshly generated function has just its built-in own names, and no accessors. */
  lemma InitiallyConsistent()
    ensures OwnNamesConsistent(BuiltinNames, map[])
  {
  }

  /** A whole reconciliation keeps the own names consistent. */
  lemma ReconcileKeepsConsistent(ownKeys: seq<string>, installed: map<string, Accessor>, c: ClassDef)
    requires OwnNamesConsistent(ownKeys, installed) && WellFormed(c)
    ensures OwnNamesConsistent(ownKeys + AddedNames(c.keys, ownKeys), installed + InstallPlan(c, ownKeys))
  {
    var added := AddedNames(c.keys, ownKeys);
    InstallPlanSpec(c, ownKeys);
    DistinctConcat(ownKeys, added);
  }

  /** A reconciliation never redefines a static it installed before. */
  lemma ReconcileKeepsInstalled(ownKeys: seq<string>, installed: map<string, Accessor>, c: ClassDef)
    requires OwnNamesConsistent(ownKeys, installed) && WellFormed(c)
    ensures forall n :: n in installed ==> n !in InstallPlan(c, ownKeys)
    ensures forall n :: n in installed ==> (installed + InstallPlan(c, ownKeys))[n] == installed[n]
  {
    InstallPlanSpec(c, ownKeys);
  }

  /** Assigning `displayName` keeps the own names consistent. */
  lemma LabelKeepsConsistent(ownKeys: seq<string>, installed: map<string, Accessor>)
    requires OwnNamesConsistent(ownKeys, installed)
    ensures OwnNamesConsistent(Labelled(ownKeys), installed)
  {
    if "displayName" !in ownKeys {
      DistinctConcat(ownKeys, ["displayName"]);
    }
  }

  /** The data descriptor of an installed accessor, as `getOwnPropertyDescriptor` reports it. */
  function AccessorDescriptor(a: Accessor, read: Value): Descriptor {
    if !a.hasGet && !a.hasSet then
      // a descriptor with neither `get` nor `set` defines a read-only data property holding `undefined`
      Descriptor(Some(Undefined), None, false, false, Some(a.enumerable), Some(a.configurable))
    else
      Descriptor(None, if a.hasGet then Some(read) else None, a.hasSet, false, Some(a.enumerable), Some(a.configurable))
  }

  /**
    The state `proxyClass` keeps for one proxied class: the stable
    constructor `ProxyClass` (its identity, name and own properties), the
    definition it currently delegates to, and the overlay of statics assigned
    through it.
   */
  class Handle {
    /** Identity of the stable constructor `ProxyClass`. */
    const proxyId: nat
    /** Its function name, fixed when it is generated. */
    const proxyName: string
    /** Identity of the shared prototype `prototypeProxy.get()`. */
    const prototypeId: nat

    /** `CurrentClass`. */
    var current: ClassDef
    /** `dynamicStatics`: values assigned to statics through the proxy constructor. */
    var dynamicStatics: map<string, Value>
    /** `Object.getOwnPropertyNames(ProxyClass)`, leaving out `__reactPatchProxy`. */
    var ownKeys: seq<string>
    /** The accessors `updateStatics` has defined on `ProxyClass`. */
    var installed: map<string, Accessor>
    /** `ProxyClass.displayName`, once assigned. */
    var displayName: Value

    ghost predicate Valid()
      reads this
    {
      && current.marker.None?
      && WellFormed(current)
      && OwnNamesConsistent(ownKeys, installed)
    }

    /** The synthesized getter: the overlay's value if one was assigned, else the current definition's. */
    function SyntheticGet(name: string): (r: Value)
      reads this
      ensures name in dynamicStatics ==> r == dynamicStatics[name]
      ensures name !in dynamicStatics ==> r == Read(current, name)
    {
      if name in dynamicStatics then dynamicStatics[name] else Read(current, name)
    }

    /** The descriptor of an own property of `ProxyClass`. */
    function OwnDescriptor(name: string): (r: Descriptor)
      reads this
      ensures name in installed ==>
        && r.enumerable == Some(installed[name].enumerable)
        && r.configurable == Some(installed[name].configurable)
        && r.writable == false
        && (installed[name].hasGet ==> ReadOwn(r) == SyntheticGet(name))
        && (!installed[name].hasGet ==> ReadOwn(r) == Undefined)
        && (r.hasSet <==> installed[name].hasSet)
      ensures name !in installed && name == "name" ==> ReadOwn(r) == Str(proxyName) && !r.writable
      ensures name !in installed && name == "length" ==> ReadOwn(r) == Num(0.0) && !r.writable
      ensures name !in installed && name == "prototype" ==> ReadOwn(r) == Object(prototypeId)
      ensures name !in installed && name == "displayName" ==> ReadOwn(r) == displayName && r.writable
    {
      if name in installed then AccessorDescriptor(installed[name], SyntheticGet(name))
      else if name == "length" then Descriptor(Some(Num(0.0)), None, false, false, Some(false), Some(true))
      else if name == "name" then Descriptor(Some(Str(proxyName)), None, false, false, Some(false), Some(true))
      else if name == "prototype" then Descriptor(Some(Object(prototypeId)), None, false, true, Some(false), Some(false))
      else Descriptor(Some(displayName), None, false, true, Some(true), Some(true))
    }

    /**
      `get()`: the stable constructor. Its identity is fixed when the handle
      is created and it carries the marker back to this handle, whatever
      updates have happened.
     */
    function Get(): (r: Value)
      reads this
      ensures r.Func? && r.cls.id == proxyId && r.cls.marker == Some(this)
      ensures r.cls.keys == ownKeys && r.cls.props.Keys == set n | n in ownKeys
    {
      Func(ClassDef(proxyId, ownKeys, map n | n in ownKeys :: OwnDescriptor(n), Some(this)))
    }

    /** `getCurrent()`: the definition delegated to, which is never itself a proxy constructor. */
    function GetCurrent(): (r: ClassDef)
      reads this
      requires Valid()
      ensures r.marker.None? && WellFormed(r)
    {
      current
    }

    /**
      `ProxyClass[name]`: an own property of the stable constructor, else
      the current definition's static, reached through `__proto__`.
     */
    function ReadStatic(name: string): (r: Value)
      reads this
      requires Valid() && name != MarkerName
      ensures name in installed && installed[name].hasGet && name in dynamicStatics ==> r == dynamicStatics[name]
      ensures name in installed && installed[name].hasGet && name !in dynamicStatics ==> r == Read(current, name)
      ensures name in installed && !installed[name].hasGet ==> r == Undefined
      ensures name !in ownKeys ==> r == Read(current, name)
    {
      if name in ownKeys then ReadOwn(OwnDescriptor(name)) else Read(current, name)
    }

    /**
      `proxyClass(InitialClass)` for a class that is not yet proxied: a fresh
      constructor named after the class, then `update(InitialClass)`.
     */
    constructor (initial: ClassDef, registry: Value -> seq<Instance>, id: nat, prototype: nat)
      requires WellFormed(initial) && initial.marker.None?
      ensures Valid()
      ensures proxyId == id && prototypeId == prototype && proxyName == ProxyName(initial)
      ensures current == initial && dynamicStatics == map[] && displayName == DisplayNameOf(initial)
      ensures ownKeys == Labelled(BuiltinNames) + AddedNames(initial.keys, Labelled(BuiltinNames))
      ensures installed == InstallPlan(initial, Labelled(BuiltinNames))
    {
      proxyId, proxyName, prototypeId := id, ProxyName(initial), prototype;
      // `CurrentClass` is unset until the first update, which assigns it
      current := initial;
      dynamicStatics := map[];
      ownKeys := BuiltinNames;
      installed := map[];
      displayName := Undefined;
      new;
      InitiallyConsistent();
      var mounted := Reload(initial, registry);
      MergeIntoEmpty(InstallPlan(initial, Labelled(BuiltinNames)));
    }

    /**
      `update(NextClass)`. `registry` stands for the prototype registry's
      `update`: it receives the new definition's `prototype` and reports the
      mounted instances.
     */
    method Update(next: Value, registry: Value -> seq<Instance>) returns (r: Result<seq<Instance>>)
      requires Valid()
      requires next.Func? ==> WellFormed(next.cls)
      requires next.Func? && next.cls.marker.Some? ==> next.cls.marker.value.Valid()
      modifies this
      decreases if next.Func? && next.cls.marker.Some? then 1 else 0
      ensures Valid()
      ensures Get().cls.id == old(Get().cls.id) && Get().cls.marker == old(Get().cls.marker)
      ensures !next.Func? ==> r == Failure(NotAConstructor) && unchanged(this)
      ensures next.Func? ==>
        var c := old(Resolve(next.cls));
        && r == Success(registry(Read(c, "prototype")))
        && current == c
        && displayName == DisplayNameOf(c)
        && dynamicStatics == old(dynamicStatics)
        && ownKeys == Labelled(old(ownKeys)) + AddedNames(c.keys, Labelled(old(ownKeys)))
        && installed == old(installed) + InstallPlan(c, Labelled(old(ownKeys)))
      ensures forall n :: n in old(installed) ==> n in installed && installed[n] == old(installed[n])
      ensures forall n :: n in old(installed) && old(installed[n]).hasGet && n in old(dynamicStatics) ==>
                ReadStatic(n) == old(ReadStatic(n))
    {
      if !next.Func? {
        return Failure(NotAConstructor);
      }
      var cls := next.cls;
      if cls.marker.Some? {
        var other := cls.marker.value;
        r := Update(Func(other.GetCurrent()), registry);
        return;
      }
      var mounted := Reload(cls, registry);
      r := Success(mounted);
    }

    /** The body of `update` once `NextClass` is known to be a class that is not a proxy constructor. */
    method Reload(cls: ClassDef, registry: Value -> seq<Instance>) returns (mounted: seq<Instance>)
      requires Valid() && WellFormed(cls) && cls.marker.None?
      modifies this
      ensures Valid()
      ensures mounted == registry(Read(cls, "prototype"))
      ensures current == cls && displayName == DisplayNameOf(cls) && dynamicStatics == old(dynamicStatics)
      ensures ownKeys == Labelled(old(ownKeys)) + AddedNames(cls.keys, Labelled(old(ownKeys)))
      ensures installed == old(installed) + InstallPlan(cls, Labelled(old(ownKeys)))
      ensures forall n :: n in old(installed) ==> n in installed && installed[n] == old(installed[n])
    {
      current := cls;
      mounted := registry(Read(cls, "prototype"));
      displayName := DisplayNameOf(cls);
      LabelKeepsConsistent(ownKeys, installed);
      ReconcileKeepsInstalled(Labelled(ownKeys), installed, cls);
      ownKeys := Labelled(ownKeys);
      UpdateStatics(cls);
    }

    /** `updateStatics(NextClass)`: define an accessor for every newly seen static name. */
    method UpdateStatics(next: ClassDef)
      requires Valid() && WellFormed(next)
      modifies this`ownKeys, this`installed
      ensures Valid()
      ensures ownKeys == old(ownKeys) + AddedNames(next.keys, old(ownKeys))
      ensures installed == old(installed) + InstallPlan(next, old(ownKeys))
    {
      ReconcileKeepsConsistent(ownKeys, installed, next);
      DefineAccessors(next, AddedNames(next.keys, ownKeys));
    }

    /** The loop of `updateStatics`: one `Object.defineProperty` per name, in order. */
    method DefineAccessors(next: ClassDef, added: seq<string>)
      modifies this`ownKeys, this`installed
      ensures ownKeys == old(ownKeys) + added
      ensures installed == old(installed) + PlanFor(next, added)
    {
      ghost var keys0, installed0 := ownKeys, installed;
      var i := 0;
      while i < |added|
        invariant 0 <= i <= |added|
        invariant ownKeys == keys0 + added[..i]
        invariant installed == installed0 + PlanFor(next, added[..i])
      {
        var name := added[i];
        var accessor := Synthesize(DescriptorOf(next, name));
        PlanForSnoc(next, added[..i], name);
        MergeSnoc(installed0, PlanFor(next, added[..i]), name, accessor);
        assert added[..i + 1] == added[..i] + [name];
        installed := installed[name := accessor];
        ownKeys := ownKeys + [name];
        i := i + 1;
      }
      assert added[..i] == added;
    }

    /**
      The synthesized setter: write through to the current definition, then
      record the value in the overlay. When the write throws, the overlay is
      left as it was.
     */
    method SyntheticSet(name: string, v: Value) returns (r: Outcome)
      requires Valid() && name in installed && installed[name].hasSet
      modifies this`current, this`dynamicStatics
      ensures Valid()
      ensures var put := PutStatic(old(current), name, v);
        && (put.Failure? ==> r == Fail(put.error) && current == old(current) && dynamicStatics == old(dynamicStatics))
        && (put.Success? ==> r == Pass && current == put.value && dynamicStatics == old(dynamicStatics)[name := v])
      ensures r.Pass? && installed[name].hasGet ==> ReadStatic(name) == v
    {
      var put := PutStatic(current, name, v);
      if put.Failure? {
        return Fail(put.error);
      }
      current := put.value;
      dynamicStatics := dynamicStatics[name := v];
      r := Pass;
    }
  }

  /**
    `proxyClass(InitialClass)`: the handle already managing a proxy
    constructor, a new handle for a class, or the failure of the first
    update for anything that is not a function.
   */
  method CreateClassProxy(initial: Value, registry: Value -> seq<Instance>, id: nat, prototype: nat)
    returns (r: Result<Handle>)
    requires initial.Func? ==> WellFormed(initial.cls)
    requires initial.Func? && initial.cls.marker.Some? ==> initial.cls.marker.value.Valid()
    ensures initial.Func? && initial.cls.marker.Some? ==> r == Success(initial.cls.marker.value)
    ensures !initial.Func? ==> r == Failure(NotAConstructor)
    ensures initial.Func? && initial.cls.marker.None? ==>
      && r.Success? && fresh(r.value) && r.value.Valid()
      && r.value.proxyId == id && r.value.prototypeId == prototype && r.value.proxyName == ProxyName(initial.cls)
      && r.value.current == initial.cls && r.value.dynamicStatics == map[]
      && r.value.displayName == DisplayNameOf(initial.cls)
      && r.value.ownKeys == Labelled(BuiltinNames) + AddedNames(initial.cls.keys, Labelled(BuiltinNames))
      && r.value.installed == InstallPlan(initial.cls, Labelled(BuiltinNames))
  {
    if initial.Func? && initial.cls.marker.Some? {
      return Success(initial.cls.marker.value);
    }
    if !initial.Func? {
      return Failure(NotAConstructor);
    }
    var h := new Handle(initial.cls, registry, id, prototype);
    r := Success(h);
  }
}
