/** The slice of the interpreter's object model that the native-callable
    wrappers rely on. Objects are bare identities; the helpers that live
    elsewhere in the virtual machine (the shared descriptor check, the
    bound-method constructor, the class of an object) are carried as
    function values of a `Vm`, so nothing is assumed about them beyond
    their signatures.
 */
module Runtime {

  /** Rust's `Option`: a value that may be missing. */
  datatype Option<+T> = None | Some(value: T) {

    /** The present value, falling back to `default` when it is missing. */
    function GetOr(default: T): T {
      if Some? then value else default
    }
  }

  /** An object reference. Two references denote the same object exactly
      when their identities are equal. */
  datatype Obj = Obj(id: nat)

  /** Outcome of an interpreter-level operation: a value, or the exception
      object that was raised. */
  datatype PyResult = Ok(value: Obj) | Err(exception: Obj)

  /** Positional and keyword arguments of a call, in order. The wrappers
      hand them on untouched. */
  datatype FuncArgs = FuncArgs(args: seq<Obj>, kwargs: seq<(string, Obj)>)

  /** What the descriptor check shared by every descriptor type hands back:
      either carry on with the resolved descriptor and target object, or stop
      with a finished result (which may itself be a success or an error). */
  datatype Checked = Proceed(zelf: Obj, obj: Obj) | Exit(result: PyResult)

  /** The virtual machine as seen from this component: the None singleton,
      the class of each object, the descriptor check and the bound-method
      constructor. */
  datatype Vm = Vm(
    noneObject: Obj,
    classOf: Obj -> Obj,
    check: (Obj, Option<Obj>) -> Checked,
    newBoundMethod: (Obj, Obj) -> Obj)

  /** A host-native function: applied to the machine and the call arguments,
      it yields a result or an error. */
  type NativeFunc = (Vm, FuncArgs) -> PyResult

  /** True when `o` is the None singleton (an identity test). */
  predicate IsNone(vm: Vm, o: Obj) {
    o == vm.noneObject
  }

  /** The object held, or the None singleton when there is none. */
  function UnwrapOrNone(vm: Vm, o: Option<Obj>): Obj {
    o.GetOr(vm.noneObject)
  }
}
