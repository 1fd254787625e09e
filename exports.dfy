/** The engine's `Export` variant as the boundary handles it, the kind of an
    export (`wasmer_export_kind`), the signature of a function export, and
    the host-function constructor `wasmer_import_func_new`. */
module Exports {
  import opened Wrappers
  import opened Abi
  import opened Values

  /** `FuncSig`: parameter and return types of a function. */
  datatype FuncSig = FuncSig(params: seq<Type>, results: seq<Type>)

  /** Which half of a signature an accessor reads. */
  datatype SigPart = Params | Returns

  function TypesOf(sig: FuncSig, part: SigPart): seq<Type> {
    match part
    case Params => sig.params
    case Returns => sig.results
  }

  /** Opaque engine objects, identified by address; cloning a memory, table
      or global handle shares the object, so the clone has the same identity. */
  datatype FuncRef = FuncRef(address: nat)
  datatype MemoryRef = MemoryRef(id: nat)
  datatype TableRef = TableRef(id: nat)
  datatype GlobalRef = GlobalRef(id: nat)
  datatype Instance = Instance(id: nat)

  /** The calling context of a function export. */
  datatype Context = Internal | External(vmctx: nat)

  /** `Export`. */
  datatype Export =
    | Function(func: FuncRef, ctx: Context, signature: FuncSig)
    | Memory(memory: MemoryRef)
    | Table(table: TableRef)
    | Global(global: GlobalRef)

  /** `NamedExport`: an instance export with its name and a back-reference to
      the instance that owns it. */
  datatype NamedExport = NamedExport(name: Name, exported: Export, instance: Instance)

  /** `wasmer_export_kind`: the kind is determined by the variant alone. */
  function KindOf(e: Export): (k: ImportExportKind)
    ensures k == WasmFunction <==> e.Function?
    ensures k == WasmMemory <==> e.Memory?
    ensures k == WasmTable <==> e.Table?
    ensures k == WasmGlobal <==> e.Global?
  {
    match e
    case Table(_) => WasmTable
    case Function(_, _, _) => WasmFunction
    case Global(_) => WasmGlobal
    case Memory(_) => WasmMemory
  }

  /** The tags that the `*_params` / `*_returns` accessors copy out of an
      export: present exactly for a function export. */
  function SignatureTags(e: Export, part: SigPart): (r: Option<seq<ValueTag>>)
    ensures r.Some? <==> e.Function?
    ensures r.Some? ==> |r.value| == |TypesOf(e.signature, part)|
    ensures r.Some? ==> forall i :: 0 <= i < |r.value| ==> TagToType(r.value[i]) == TypesOf(e.signature, part)[i]
  {
    if e.Function? then Some(TypesToTags(TypesOf(e.signature, part))) else None
  }

  /** `wasmer_import_func_new`: a function export with an internal context
      whose signature is the given tags converted to types; reading its
      signature back yields exactly the tags that were supplied. */
  function ImportFuncNew(func: FuncRef, params: seq<ValueTag>, results: seq<ValueTag>): (e: Export)
    ensures KindOf(e) == WasmFunction && e.func == func && e.ctx == Internal
    ensures SignatureTags(e, Params) == Some(params)
    ensures SignatureTags(e, Returns) == Some(results)
  {
    TagsRoundTrip(params);
    TagsRoundTrip(results);
    Function(func, Internal, FuncSig(TagsToTypes(params), TagsToTypes(results)))
  }
}
