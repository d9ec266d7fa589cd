/** `builtin_function_or_method`: a native function exposed as an ordinary,
    non-binding callable, optionally tagged with the module defining it.
 */
module BuiltinFunctions {
  import opened Runtime
  import FuncDefs

  datatype BuiltinFunction = BuiltinFunction(value: FuncDefs.FuncDef, definingModule: Option<Obj>)

  /** Name shown by the debug rendering when the definition has none. */
  const UnknownName: string := "<unknown name>"

  /** Text that opens the debug rendering of every builtin function. */
  const DebugPrefix: string := "builtin function "

  /** Wrapping a definition: the definition is kept whole, no module is set. */
  function FromDef(d: FuncDefs.FuncDef): (f: BuiltinFunction)
    ensures f.value == d
    ensures f.definingModule == None
  {
    BuiltinFunction(d, None)
  }

  /** Wrapping a bare entry point goes through a fresh definition. */
  function FromNative(func: NativeFunc): (f: BuiltinFunction)
    ensures f.value.func == func
    ensures f.value.name == None && f.value.doc == None
    ensures f.definingModule == None
  {
    FromDef(FuncDefs.FromNative(func))
  }

  /** Builder step attaching the defining module; the definition is untouched. */
  function WithModule(f: BuiltinFunction, m: Obj): (r: BuiltinFunction)
    ensures r.definingModule == Some(m)
    ensures r.value == f.value
  {
    f.(definingModule := Some(m))
  }

  /** Attaching two modules in a row is the same as attaching the second. */
  lemma WithModuleLastWins(f: BuiltinFunction, first: Obj, second: Obj)
    ensures WithModule(WithModule(f, first), second) == WithModule(f, second)
  {
  }

  /** The entry point the wrapper forwards to. */
  function AsFunc(f: BuiltinFunction): NativeFunc {
    f.value.func
  }

  /** Calling the wrapper: the stored entry point applied to the machine and
      the arguments, its result returned as is. */
  function Call(vm: Vm, f: BuiltinFunction, args: FuncArgs): PyResult {
    f.value.func(vm, args)
  }

  /** `__module__`: the attached module, or the None object. */
  function GetModule(vm: Vm, f: BuiltinFunction): Obj {
    UnwrapOrNone(vm, f.definingModule)
  }

  /** `__name__`. */
  function GetName(f: BuiltinFunction): Option<string> {
    f.value.name
  }

  /** `__doc__`. */
  function GetDoc(f: BuiltinFunction): Option<string> {
    f.value.doc
  }

  /** The name the debug rendering shows. */
  function DisplayName(f: BuiltinFunction): string {
    f.value.name.GetOr(UnknownName)
  }

  /** The debug rendering, "builtin function <name>". */
  function Debug(f: BuiltinFunction): string {
    DebugPrefix + DisplayName(f)
  }

  /** Reads the shown name back out of a debug rendering. */
  function DebugName(s: string): Option<string> {
    if DebugPrefix <= s then Some(s[|DebugPrefix|..]) else None
  }

  /** `__module__` reports what `with_module` attached, and the None object
      for a wrapper built without it. */
  lemma GetModuleReadsBack(vm: Vm, d: FuncDefs.FuncDef, m: Obj)
    ensures GetModule(vm, FromDef(d)) == vm.noneObject
    ensures GetModule(vm, WithModule(FromDef(d), m)) == m
  {
  }

  /** `__name__` and `__doc__` report the definition's name and doc, whatever
      module is attached. */
  lemma GetNameDocReadBack(d: FuncDefs.FuncDef, m: Option<Obj>)
    ensures GetName(BuiltinFunction(d, m)) == d.name
    ensures GetDoc(BuiltinFunction(d, m)) == d.doc
  {
  }

  /** The debug rendering can be parsed back to the name it shows. */
  lemma DebugRoundTrip(f: BuiltinFunction)
    ensures DebugName(Debug(f)) == Some(DisplayName(f))
  {
  }

  /** Two builtin functions render alike exactly when they have the same
      name, or when one is nameless and the other is literally named
      "<unknown name>". */
  lemma DebugDeterminesName(f: BuiltinFunction, g: BuiltinFunction)
    ensures Debug(f) == Debug(g) <==>
              || f.value.name == g.value.name
              || (f.value.name == None && g.value.name == Some(UnknownName))
              || (f.value.name == Some(UnknownName) && g.value.name == None)
  {
    if Debug(f) == Debug(g) {
      DebugRoundTrip(f);
      DebugRoundTrip(g);
      assert DisplayName(f) == DisplayName(g);
    }
  }
}
