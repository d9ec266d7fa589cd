/** The definition record of a native function: the entry point together
    with an optional name and an optional docstring. Both wrappers own one.
 */
module FuncDefs {
  import opened Runtime

  datatype FuncDef = FuncDef(func: NativeFunc, name: Option<string>, doc: Option<string>)

  /** A definition built straight from an entry point: no name, no doc. */
  function FromNative(func: NativeFunc): (d: FuncDef)
    ensures d.func == func
    ensures d.name == None && d.doc == None
  {
    FuncDef(func, None, None)
  }

  /** Builder step attaching a docstring. It overwrites any earlier doc and
      leaves the entry point and the name alone. */
  function WithDoc(d: FuncDef, text: string): (r: FuncDef)
    ensures r.doc == Some(text)
    ensures r.func == d.func && r.name == d.name
  {
    d.(doc := Some(text))
  }

  /** Attaching two docstrings in a row is the same as attaching the second. */
  lemma WithDocLastWins(d: FuncDef, first: string, second: string)
    ensures WithDoc(WithDoc(d, first), second) == WithDoc(d, second)
  {
  }

  /** The definition after `with_doc` has been applied once per text, in
      order: only the last text survives, and nothing else changes. */
  function WithDocs(d: FuncDef, texts: seq<string>): (r: FuncDef)
    ensures r.func == d.func && r.name == d.name
    ensures |texts| == 0 ==> r == d
    ensures |texts| > 0 ==> r.doc == Some(texts[|texts| - 1])
    decreases |texts|
  {
    if |texts| == 0 then d else WithDocs(WithDoc(d, texts[0]), texts[1..])
  }

  /** A chain of builder calls collapses to the single last one. */
  lemma WithDocsIsLastWithDoc(d: FuncDef, texts: seq<string>)
    requires |texts| > 0
    ensures WithDocs(d, texts) == WithDoc(d, texts[|texts| - 1])
  {
  }
}
