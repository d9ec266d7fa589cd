# Native callables of the RustPython object model

This project models `vm/src/obj/objbuiltinfunc.rs`. That file turns host-native (Rust) functions into interpreter objects. It has three parts:

- `PyFuncDef` is the definition record. It holds the native entry point, an optional name and an optional doc. `FuncDefs` models it, with its `From` constructor and its `with_doc` builder.
- `PyBuiltinFunction` (`builtin_function_or_method`) is a plain, non-binding callable. It carries an optional defining module. `BuiltinFunctions` models its constructors, `with_module`, `call`, `as_func`, the `__module__`/`__name__`/`__doc__` properties and its `Debug` text.
- `PyBuiltinMethod` (`method_descriptor`) is a callable that also implements `__get__`, the descriptor protocol (section 3.3.2.2 of the Python Language Reference, "Implementing Descriptors"). `BuiltinMethods` models its constructors, `new_with_name`, `call`, `as_func`, `__name__`/`__doc__`, `Debug` and `descr_get`.

`Runtime` holds the small part of the virtual machine these operations touch:

- objects are bare identities (`Obj`);
- `PyResult` is a value or a raised exception;
- a `Vm` value carries the None singleton, the class of each object, the shared descriptor check `_check` and the bound-method constructor `new_bound_method`. The check and the constructor are function values, so nothing is assumed about them beyond their signatures.

A native function is a total function value from `(Vm, FuncArgs)` to `PyResult`.

`NativeCallables` ties the definition to both wrappers. Every wrapper built from one definition forwards to the same entry point. What the builders put in is what the properties read back.

The descriptor decision of `descr_get`, line by line:

1. If the check `_check` settles the access, its result is returned verbatim.
2. Otherwise the check hands back a descriptor and a resolved target. "The descriptor" below means the one the check returns, not the object `descr_get` was called with; line 182 rebinds `zelf` to it.
3. The descriptor is returned unbound exactly when the resolved target is the None object and the requested class is not the None object's class.
4. Otherwise a bound method of the descriptor and the target is built.

So when the check resolves the target to the None object and the requested class is `NoneType`, the method binds to `None`. `BuiltinMethods.UnboundWhenNone` is a simpler reference rule: "unbound whenever the check resolves the target to the None object". `BuiltinMethods.UnboundWhenNoneDiffersOnlyForNoneType` proves the two rules differ on exactly that one case.

How access through a class (no instance, line 178) behaves depends on what `_check` does with an absent `obj`. It may settle the access itself, or hand on the None object. `_check` is not part of this model, so the model makes no claim about class-level access.

Three helpers from elsewhere in the virtual machine are given their evident meaning:

- `_cls_is(&cls, &class)` is taken to be an identity test of the optional requested class against the object's class. This follows its name and its call site; its body is not part of this model.
- `vm.is_none` is identity with the None singleton.
- `vm.unwrap_or_none` replaces an absent object with the None singleton.

## Model

| member | source | states |
|---|---|---|
| FuncDefs.FromNative | vm/src/obj/objbuiltinfunc.rs:20-28 | a definition built from an entry point keeps that entry point and has neither name nor doc |
| FuncDefs.WithDoc | vm/src/obj/objbuiltinfunc.rs:31-34 | `with_doc` makes the doc `Some(text)` and leaves the entry point and the name as they were |
| FuncDefs.WithDocLastWins | vm/src/obj/objbuiltinfunc.rs:31-34 | two `with_doc` calls in a row equal the second one alone |
| FuncDefs.WithDocs | vm/src/obj/objbuiltinfunc.rs:31-34 | after any chain of `with_doc` calls, only the last doc survives, the entry point and name are unchanged, and an empty chain changes nothing |
| FuncDefs.WithDocsIsLastWithDoc | vm/src/obj/objbuiltinfunc.rs:31-34 | a non-empty chain of `with_doc` calls equals the single last call |
| BuiltinFunctions.FromDef | vm/src/obj/objbuiltinfunc.rs:86-93 | wrapping a definition as a builtin function keeps the whole definition and attaches no module |
| BuiltinFunctions.FromNative | vm/src/obj/objbuiltinfunc.rs:81-85 | a builtin function made from a bare entry point has that entry point, no name, no doc and no module |
| BuiltinFunctions.WithModule | vm/src/obj/objbuiltinfunc.rs:96-99 | `with_module` makes the module `Some(m)` and leaves the definition untouched |
| BuiltinFunctions.WithModuleLastWins | vm/src/obj/objbuiltinfunc.rs:96-99 | two `with_module` calls in a row equal the second one alone |
| BuiltinFunctions.GetModuleReadsBack | vm/src/obj/objbuiltinfunc.rs:122-125 | `__module__` is the None object when no module was attached and is `m` after `with_module(m)` |
| BuiltinFunctions.GetNameDocReadBack | vm/src/obj/objbuiltinfunc.rs:126-133 | `__name__` and `__doc__` are the definition's name and doc, whatever module is attached |
| BuiltinFunctions.DebugRoundTrip | vm/src/obj/objbuiltinfunc.rs:71-79 | the debug text is "builtin function " followed by the name, or "<unknown name>" when there is none; stripping the prefix recovers that shown name |
| BuiltinFunctions.DebugDeterminesName | vm/src/obj/objbuiltinfunc.rs:71-79 | two builtin functions have the same debug text exactly when they have the same name, or when one has no name and the other is named "<unknown name>" |
| BuiltinMethods.FromDef | vm/src/obj/objbuiltinfunc.rs:153-157 | wrapping a definition as a method descriptor keeps the whole definition |
| BuiltinMethods.NewWithName | vm/src/obj/objbuiltinfunc.rs:160-168 | `new_with_name` gives a descriptor with that entry point, name `Some(n)` and no doc |
| BuiltinMethods.DebugIgnoresDefinition | vm/src/obj/objbuiltinfunc.rs:147-151 | every method descriptor renders as "method descriptor", whatever its definition |
| BuiltinMethods.DescrGet | vm/src/obj/objbuiltinfunc.rs:176-191 | an early exit from the check is returned as is; otherwise the result is never an early exit, it is the descriptor returned by the check, unbound, exactly when the resolved target is the None object and `cls` is not its class, and otherwise a binding of that descriptor to the target |
| BuiltinMethods.EarlyExitVerbatim | vm/src/obj/objbuiltinfunc.rs:182-185 | when the check exits early, `descr_get` returns that result unchanged, success or error, and builds no bound method |
| BuiltinMethods.AfterCheckNeverFails | vm/src/obj/objbuiltinfunc.rs:186-190 | after a passed check, `descr_get` succeeds with either the descriptor or the bound method of descriptor and target |
| BuiltinMethods.NoneThroughNoneTypeBinds | vm/src/obj/objbuiltinfunc.rs:186-190 | when the check resolves the target to the None object and `cls` is None's class, the descriptor binds to None |
| BuiltinMethods.InstanceAccessBinds | vm/src/obj/objbuiltinfunc.rs:186-190 | when the check resolves the target to any object other than None, the descriptor binds to that object, whatever `cls` is |
| BuiltinMethods.UnboundWhenNoneDiffersOnlyForNoneType | vm/src/obj/objbuiltinfunc.rs:186-190 | the reference rule "unbound whenever the check resolves the target to the None object" differs from `descr_get` exactly when the check resolves the target to None and `cls` is None's class |
| NativeCallables.CallForwardsToEntryPoint | vm/src/obj/objbuiltinfunc.rs:114-118 | calling a builtin function, or a method descriptor (lines 194-198), applies the definition's entry point to exactly the given machine and arguments and returns its result unchanged; `with_module` and `with_doc` do not alter this |
| NativeCallables.AsFuncSharesEntryPoint | vm/src/obj/objbuiltinfunc.rs:109-111 | `as_func` of either wrapper (the method's at lines 170-172) is the entry point it was built from |
| NativeCallables.NameDocAgreeAcrossWrappers | vm/src/obj/objbuiltinfunc.rs:202-209 | the method descriptor's `__name__` and `__doc__` equal those of the builtin function wrapping the same definition, and both are the definition's |
| NativeCallables.NewWithNameReadsBack | vm/src/obj/objbuiltinfunc.rs:160-168 | a descriptor from `new_with_name` reports that name and no doc |
| NativeCallables.FreshFunctionReadsBack | vm/src/obj/objbuiltinfunc.rs:81-85 | a builtin function from a bare entry point reports no name, no doc, the None object as module, and "builtin function <unknown name>" as debug text |
| NativeCallables.NamedFunctionScenario | vm/src/obj/objbuiltinfunc.rs:86-133 | a definition named "len" with doc "return length", wrapped with module `m`, reports that name, doc and module, calls its entry point, and renders as "builtin function len" |
| NativeCallables.DebugTellsWrappersApart | vm/src/obj/objbuiltinfunc.rs:71-79 | a builtin function's debug text never equals a method descriptor's (lines 147-151) |

## Left out

- Object allocation and type registration are not modelled: `build`, `build_function`, `build_method`, `build_classmethod`, `init`, `PyValue::class`, the `pyclass`/`pyimpl` attributes and the `HAS_DICT` flag. They only wire values into the type registry.
- `build_classmethod` and `PyClassMethod` are not part of this model.
- The bodies of `_check` and `new_bound_method` are not part of this model. Both are fields of `Vm` with no assumed behaviour.
- Fresh allocation of bound methods is not modelled. In the model, `newBoundMethod` is a function of the descriptor and the target, so two lookups with the same descriptor and target return the same object. The source allocates a new bound method on every access (line 189).
- Invoking a bound method (with the target supplied as the first argument) is the bound-method type's behaviour and is not modelled.
- What a native function does is not modelled. It is an opaque function value.
- String interning (the `ctx` argument of `with_doc`) and reference counting are not modelled. Strings are plain values and objects are identities.
- `Call`, `AsFunc`, `GetModule`, `GetName` and `GetDoc` carry no contract of their own. What they promise is stated by the lemmas in the table, which relate them to the builders.
