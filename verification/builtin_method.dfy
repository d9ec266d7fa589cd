/** `method_descriptor`: a native function installed in a class, which binds
    to the instance it is looked up through (the `__get__` descriptor
    protocol of section 3.3.2.2 of the Python Language Reference,
    "Implementing Descriptors"). It carries no module.
 */
module BuiltinMethods {
  import opened Runtime
  import FuncDefs

  datatype BuiltinMethod = BuiltinMethod(value: FuncDefs.FuncDef)

  /** Text of the debug rendering of every method descriptor. */
  const DebugText: string := "method descriptor"

  /** What one attribute access through the descriptor yields: the check's
      own result, the descriptor itself, or a bound method of the descriptor
      and a target. */
  datatype Access = EarlyExit(result: PyResult) | Unbound(descr: Obj) | Bound(callable: Obj, target: Obj)
  {
    /** The interpreter-level result: a bound method is built by the machine's
        constructor, the other two outcomes are returned as they are. */
    function ToResult(vm: Vm): PyResult {
      match this
      case EarlyExit(r) => r
      case Unbound(d) => Ok(d)
      case Bound(c, t) => Ok(vm.newBoundMethod(c, t))
    }
  }

  /** Wrapping a definition keeps it whole. */
  function FromDef(d: FuncDefs.FuncDef): (m: BuiltinMethod)
    ensures m.value == d
  {
    BuiltinMethod(d)
  }

  /** A descriptor with a given name and no doc. */
  function NewWithName(func: NativeFunc, name: string): (m: BuiltinMethod)
    ensures m.value.func == func
    ensures m.value.name == Some(name)
    ensures m.value.doc == None
  {
    BuiltinMethod(FuncDefs.FuncDef(func, Some(name), None))
  }

  /** The entry point the descriptor forwards to. */
  function AsFunc(m: BuiltinMethod): NativeFunc {
    m.value.func
  }

  /** Calling the descriptor directly: the stored entry point applied to the
      machine and the arguments, its result returned as is. */
  function Call(vm: Vm, m: BuiltinMethod, args: FuncArgs): PyResult {
    m.value.func(vm, args)
  }

  /** `__name__`. */
  function GetName(m: BuiltinMethod): Option<string> {
    m.value.name
  }

  /** `__doc__`. */
  function GetDoc(m: BuiltinMethod): Option<string> {
    m.value.doc
  }

  /** The debug rendering. */
  function Debug(m: BuiltinMethod): string {
    DebugText
  }

  /** True when `cls` was given and is the very class object `klass`. */
  predicate ClsIs(cls: Option<Obj>, klass: Obj) {
    match cls
    case Some(c) => c == klass
    case None => false
  }

  /** `__get__` of a method descriptor `zelf` looked up through `obj` with
      requested class `cls`. The shared check may settle the access on its
      own; otherwise it hands back a descriptor and a resolved target, and
      that descriptor (not necessarily `zelf` itself) stays unbound exactly
      when the target is the None object and `cls` is not None's class. In
      every other case it binds to the resolved target. */
  function DescrGet(vm: Vm, zelf: Obj, obj: Option<Obj>, cls: Option<Obj>): (r: Access)
    ensures vm.check(zelf, obj).Exit? ==> r == EarlyExit(vm.check(zelf, obj).result)
    ensures vm.check(zelf, obj).Proceed? ==>
              var checked := vm.check(zelf, obj);
              && !r.EarlyExit?
              && (r.Unbound? <==> checked.obj == vm.noneObject && cls != Some(vm.classOf(checked.obj)))
              && (r.Unbound? ==> r.descr == checked.zelf)
              && (r.Bound? ==> r.callable == checked.zelf && r.target == checked.obj)
  {
    match vm.check(zelf, obj)
    case Exit(result) => EarlyExit(result)
    case Proceed(z, o) =>
      if IsNone(vm, o) && !ClsIs(cls, vm.classOf(o)) then Unbound(z) else Bound(z, o)
  }

  /** A descriptor renders the same whatever definition it wraps. */
  lemma DebugIgnoresDefinition(m: BuiltinMethod, n: BuiltinMethod)
    ensures Debug(m) == Debug(n) == "method descriptor"
  {
  }

  /** Once the check lets an access through, `__get__` cannot fail: it
      returns the descriptor or a bound method. */
  lemma AfterCheckNeverFails(vm: Vm, zelf: Obj, obj: Option<Obj>, cls: Option<Obj>)
    requires vm.check(zelf, obj).Proceed?
    ensures DescrGet(vm, zelf, obj, cls).ToResult(vm).Ok?
    ensures var v := DescrGet(vm, zelf, obj, cls).ToResult(vm).value;
            v == vm.check(zelf, obj).zelf
            || v == vm.newBoundMethod(vm.check(zelf, obj).zelf, vm.check(zelf, obj).obj)
  {
  }

  /** An access the check settles is returned verbatim: no bound method is
      built for it. */
  lemma EarlyExitVerbatim(vm: Vm, zelf: Obj, obj: Option<Obj>, cls: Option<Obj>)
    requires vm.check(zelf, obj).Exit?
    ensures DescrGet(vm, zelf, obj, cls).ToResult(vm) == vm.check(zelf, obj).result
  {
  }

  /** When the check resolves the target to the None object and the
      requested class is None's own class, the descriptor binds to None. */
  lemma NoneThroughNoneTypeBinds(vm: Vm, zelf: Obj, obj: Option<Obj>)
    requires vm.check(zelf, obj).Proceed? && vm.check(zelf, obj).obj == vm.noneObject
    ensures DescrGet(vm, zelf, obj, Some(vm.classOf(vm.noneObject)))
            == Bound(vm.check(zelf, obj).zelf, vm.noneObject)
  {
  }

  /** When the check resolves the target to any object other than None, the
      descriptor binds to that object, whatever class is requested. */
  lemma InstanceAccessBinds(vm: Vm, zelf: Obj, obj: Option<Obj>, cls: Option<Obj>)
    requires vm.check(zelf, obj).Proceed? && vm.check(zelf, obj).obj != vm.noneObject
    ensures DescrGet(vm, zelf, obj, cls) == Bound(vm.check(zelf, obj).zelf, vm.check(zelf, obj).obj)
  {
  }

  /** A simpler rule, used as a reference: the descriptor stays unbound
      whenever the check resolves the target to the None object. */
  function UnboundWhenNone(vm: Vm, zelf: Obj, obj: Option<Obj>): Access {
    match vm.check(zelf, obj)
    case Exit(result) => EarlyExit(result)
    case Proceed(z, o) => if o == vm.noneObject then Unbound(z) else Bound(z, o)
  }

  /** The simpler rule disagrees with `DescrGet` on exactly one kind of
      access: the check resolves the target to the None object and the
      requested class is None's own class. */
  lemma UnboundWhenNoneDiffersOnlyForNoneType(vm: Vm, zelf: Obj, obj: Option<Obj>, cls: Option<Obj>)
    ensures DescrGet(vm, zelf, obj, cls) != UnboundWhenNone(vm, zelf, obj) <==>
              && vm.check(zelf, obj).Proceed?
              && vm.check(zelf, obj).obj == vm.noneObject
              && cls == Some(vm.classOf(vm.noneObject))
  {
  }
}
