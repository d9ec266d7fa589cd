/** Facts that tie the definition record to both wrappers: one entry point is
    shared by every wrapper built from a definition, and what the builders
    put in is what the attributes read back.
 */
module NativeCallables {
  import opened Runtime
  import FuncDefs
  import BuiltinFunctions
  import BuiltinMethods

  /** Both wrappers call the definition's entry point with exactly the
      machine and arguments they are given and return its result unchanged,
      success or error; attaching a module or a doc changes nothing. */
  lemma CallForwardsToEntryPoint(vm: Vm, d: FuncDefs.FuncDef, args: FuncArgs, m: Obj, text: string)
    ensures BuiltinFunctions.Call(vm, BuiltinFunctions.FromDef(d), args) == d.func(vm, args)
    ensures BuiltinFunctions.Call(vm, BuiltinFunctions.WithModule(BuiltinFunctions.FromDef(d), m), args)
            == d.func(vm, args)
    ensures BuiltinFunctions.Call(vm, BuiltinFunctions.FromDef(FuncDefs.WithDoc(d, text)), args)
            == d.func(vm, args)
    ensures BuiltinMethods.Call(vm, BuiltinMethods.FromDef(d), args) == d.func(vm, args)
    ensures BuiltinMethods.Call(vm, BuiltinMethods.FromDef(FuncDefs.WithDoc(d, text)), args)
            == d.func(vm, args)
  {
  }

  /** Both wrappers hand out the very entry point they were built from. */
  lemma AsFuncSharesEntryPoint(func: NativeFunc, d: FuncDefs.FuncDef, name: string)
    ensures BuiltinFunctions.AsFunc(BuiltinFunctions.FromNative(func)) == func
    ensures BuiltinFunctions.AsFunc(BuiltinFunctions.FromDef(d)) == d.func
    ensures BuiltinMethods.AsFunc(BuiltinMethods.FromDef(d)) == d.func
    ensures BuiltinMethods.AsFunc(BuiltinMethods.NewWithName(func, name)) == func
  {
  }

  /** `__name__` and `__doc__` agree on the two wrappers of one definition. */
  lemma NameDocAgreeAcrossWrappers(d: FuncDefs.FuncDef)
    ensures BuiltinMethods.GetName(BuiltinMethods.FromDef(d)) == BuiltinFunctions.GetName(BuiltinFunctions.FromDef(d)) == d.name
    ensures BuiltinMethods.GetDoc(BuiltinMethods.FromDef(d)) == BuiltinFunctions.GetDoc(BuiltinFunctions.FromDef(d)) == d.doc
  {
  }

  /** A descriptor made with a name reports that name and no doc. */
  lemma NewWithNameReadsBack(func: NativeFunc, name: string)
    ensures BuiltinMethods.GetName(BuiltinMethods.NewWithName(func, name)) == Some(name)
    ensures BuiltinMethods.GetDoc(BuiltinMethods.NewWithName(func, name)) == None
  {
  }

  /** A function built from a bare entry point has no name, no doc and no
      module, and renders with the placeholder name. */
  lemma FreshFunctionReadsBack(vm: Vm, func: NativeFunc)
    ensures BuiltinFunctions.GetName(BuiltinFunctions.FromNative(func)) == None
    ensures BuiltinFunctions.GetDoc(BuiltinFunctions.FromNative(func)) == None
    ensures BuiltinFunctions.GetModule(vm, BuiltinFunctions.FromNative(func)) == vm.noneObject
    ensures BuiltinFunctions.Debug(BuiltinFunctions.FromNative(func)) == "builtin function <unknown name>"
  {
  }

  /** A named function with a doc, wrapped with module `m`: every attribute
      reads back what was put in, and the debug text shows the name. */
  lemma NamedFunctionScenario(vm: Vm, func: NativeFunc, m: Obj, args: FuncArgs)
    ensures var f := BuiltinFunctions.WithModule(
                       BuiltinFunctions.FromDef(FuncDefs.WithDoc(FuncDefs.FuncDef(func, Some("len"), None), "return length")), m);
            && BuiltinFunctions.GetName(f) == Some("len")
            && BuiltinFunctions.GetDoc(f) == Some("return length")
            && BuiltinFunctions.GetModule(vm, f) == m
            && BuiltinFunctions.Call(vm, f, args) == func(vm, args)
            && BuiltinFunctions.Debug(f) == "builtin function len"
  {
  }

  /** The two wrappers' debug renderings never coincide. */
  lemma DebugTellsWrappersApart(f: BuiltinFunctions.BuiltinFunction, m: BuiltinMethods.BuiltinMethod)
    ensures BuiltinFunctions.Debug(f) != BuiltinMethods.Debug(m)
  {
    assert BuiltinFunctions.Debug(f)[0] == 'b';
    assert BuiltinMethods.Debug(m)[0] == 'm';
  }
}
