/** Import resolution in `wasmer_instantiate`: import records are grouped into
    one namespace per module name, each entry holding the `Export` the import's
    tag selects; every namespace is then registered into the import object
    handed to the engine. A name that is not valid UTF-8 aborts the whole
    operation before the engine is asked anything. */
module Imports {
  import opened Wrappers
  import opened Abi
  import opened Errors
  import opened Exports
  import opened Utf8

  /** `wasmer_import_export_value`, identified by the field the host set. */
  datatype ImportValue =
    | FuncValue(func: Export)
    | TableValue(table: TableRef)
    | MemoryValue(memory: MemoryRef)
    | GlobalValue(global: GlobalRef)

  /** `wasmer_import_t`. */
  datatype ImportRecord = ImportRecord(moduleName: Name, importName: Name, tag: ImportExportKind, value: ImportValue)

  /** The tag names the union field the host set; a function import's value
      is the export built by `wasmer_import_func_new`. */
  predicate WellTagged(imp: ImportRecord) {
    match imp.tag
    case WasmFunction => imp.value.FuncValue? && imp.value.func.Function?
    case WasmGlobal => imp.value.GlobalValue?
    case WasmMemory => imp.value.MemoryValue?
    case WasmTable => imp.value.TableValue?
  }

  predicate AllWellTagged(imports: seq<ImportRecord>) {
    forall i :: 0 <= i < |imports| ==> WellTagged(imports[i])
  }

  /** The `Export` an import contributes: a clone of the memory, global or
      table handle (sharing the object), or the supplied function export. */
  function ImportExport(imp: ImportRecord): (e: Export)
    requires WellTagged(imp)
    ensures KindOf(e) == imp.tag
    ensures imp.tag == WasmFunction ==> e == imp.value.func
    ensures imp.tag == WasmMemory ==> e == Memory(imp.value.memory)
    ensures imp.tag == WasmGlobal ==> e == Global(imp.value.global)
    ensures imp.tag == WasmTable ==> e == Table(imp.value.table)
  {
    match imp.tag
    case WasmMemory => Memory(imp.value.memory)
    case WasmFunction => imp.value.func
    case WasmGlobal => Global(imp.value.global)
    case WasmTable => Table(imp.value.table)
  }

  /** A namespace, as the ordered list of the `Namespace::insert` calls it
      received; what a repeated name means is up to `Namespace`. */
  type Namespace = seq<(Name, Export)>

  /** The namespaces being built, by module name; once registered, the
      import object passed to the engine. */
  type Namespaces = map<Name, Namespace>

  const NullBytesError: LastError := CApiError("wasm bytes ptr is null")
  const ModuleNameError: LastError := CApiError("error converting module name to string")
  const ImportNameError: LastError := CApiError("error converting import_name to string")
  const InstantiateError: LastError := CApiError("error instantiating")

  /** The error an import's names raise, module name first. */
  function NameError(imp: ImportRecord): (r: Option<LastError>)
    ensures r.None? <==> ValidUtf8(imp.moduleName) && ValidUtf8(imp.importName)
    ensures !ValidUtf8(imp.moduleName) ==> r == Some(ModuleNameError)
    ensures ValidUtf8(imp.moduleName) && !ValidUtf8(imp.importName) ==> r == Some(ImportNameError)
  {
    if !ValidUtf8(imp.moduleName) then Some(ModuleNameError)
    else if !ValidUtf8(imp.importName) then Some(ImportNameError)
    else None
  }

  function NamespaceOf(namespaces: Namespaces, moduleName: Name): Namespace {
    if moduleName in namespaces then namespaces[moduleName] else []
  }

  /** `namespaces.entry(module_name).or_insert_with(Namespace::new)` followed
      by `namespace.insert(import_name, export)`. */
  function Insert(namespaces: Namespaces, imp: ImportRecord): (r: Namespaces)
    requires WellTagged(imp)
    ensures r.Keys == namespaces.Keys + {imp.moduleName}
    ensures NamespaceOf(r, imp.moduleName) == NamespaceOf(namespaces, imp.moduleName) + [(imp.importName, ImportExport(imp))]
    ensures forall m :: m != imp.moduleName ==> NamespaceOf(r, m) == NamespaceOf(namespaces, m)
  {
    namespaces[imp.moduleName := NamespaceOf(namespaces, imp.moduleName) + [(imp.importName, ImportExport(imp))]]
  }

  /** The resolution loop run over `imports`: the namespaces built, or the
      error of the first import with an invalid name. */
  function Resolve(imports: seq<ImportRecord>): (r: Result<Namespaces, LastError>)
    requires AllWellTagged(imports)
    ensures r.Failure? ==> r.error == ModuleNameError || r.error == ImportNameError
    ensures r.Success? ==> r.value.Keys == ModuleNames(imports)
    decreases |imports|
  {
    if imports == [] then Success(map[])
    else
      var last := imports[|imports| - 1];
      match Resolve(imports[..|imports| - 1])
      case Failure(e) => Failure(e)
      case Success(namespaces) =>
        var err := NameError(last);
        if err.Some? then Failure(err.value)
        else
          ModuleNamesSnoc(imports);
          Success(Insert(namespaces, last))
  }

  /** The namespace entries a module name receives from `imports`, in order. */
  function EntriesFor(imports: seq<ImportRecord>, moduleName: Name): Namespace
    requires AllWellTagged(imports)
    decreases |imports|
  {
    if imports == [] then []
    else
      var last := imports[|imports| - 1];
      EntriesFor(imports[..|imports| - 1], moduleName)
      + (if last.moduleName == moduleName then [(last.importName, ImportExport(last))] else [])
  }

  /** The module names that occur in `imports`. */
  function ModuleNames(imports: seq<ImportRecord>): set<Name> {
    set i | 0 <= i < |imports| :: imports[i].moduleName
  }

  lemma ModuleNamesSnoc(imports: seq<ImportRecord>)
    requires imports != []
    ensures ModuleNames(imports) == ModuleNames(imports[..|imports| - 1]) + {imports[|imports| - 1].moduleName}
  {
    var init := imports[..|imports| - 1];
    forall x | x in ModuleNames(imports) ensures x in ModuleNames(init) + {imports[|imports| - 1].moduleName} {
      var i :| 0 <= i < |imports| && imports[i].moduleName == x;
      if i < |init| { assert init[i].moduleName == x; }
    }
    forall x | x in ModuleNames(init) ensures x in ModuleNames(imports) {
      var i :| 0 <= i < |init| && init[i].moduleName == x;
      assert imports[i].moduleName == x;
    }
  }

  predicate AllNamesValid(imports: seq<ImportRecord>) {
    forall i :: 0 <= i < |imports| ==> NameError(imports[i]).None?
  }

  /** Once the loop has failed on a prefix, it ends with that failure. */
  lemma {:induction false} FailureSticks(imports: seq<ImportRecord>, k: nat)
    requires AllWellTagged(imports) && k <= |imports|
    requires Resolve(imports[..k]).Failure?
    ensures Resolve(imports) == Resolve(imports[..k])
    decreases |imports|
  {
    if k < |imports| {
      var init := imports[..|imports| - 1];
      assert init[..k] == imports[..k];
      FailureSticks(init, k);
    } else {
      assert imports[..k] == imports;
    }
  }

  /** With all names valid, the loop groups every import under its module
      name: the namespaces are exactly the module names that occur, and each
      holds the entries of that module's imports in input order. */
  lemma {:induction false} ResolveGroups(imports: seq<ImportRecord>)
    requires AllWellTagged(imports) && AllNamesValid(imports)
    ensures Resolve(imports).Success?
    ensures Resolve(imports).value.Keys == ModuleNames(imports)
    ensures forall m :: NamespaceOf(Resolve(imports).value, m) == EntriesFor(imports, m)
    decreases |imports|
  {
    if imports != [] {
      var init := imports[..|imports| - 1];
      assert AllNamesValid(init) by {
        forall i | 0 <= i < |init| ensures NameError(init[i]).None? {
          assert init[i] == imports[i];
        }
      }
      ResolveGroups(init);
      assert NameError(imports[|imports| - 1]).None?;
      ModuleNamesSnoc(imports);
    }
  }

  /** The least index with an invalid name, given one at or before `k`. */
  function FirstBad(imports: seq<ImportRecord>, k: nat): (j: nat)
    requires k < |imports| && NameError(imports[k]).Some?
    ensures j <= k && NameError(imports[j]).Some?
    ensures forall i :: 0 <= i < j ==> NameError(imports[i]).None?
    decreases k
  {
    if exists i :: 0 <= i < k && NameError(imports[i]).Some? then
      var i :| 0 <= i < k && NameError(imports[i]).Some?;
      FirstBad(imports, i)
    else k
  }

  /** The first import with an invalid name stops resolution, and its error
      (the module name is checked before the import name) is the one reported. */
  lemma ResolveStopsAtFirstBadName(imports: seq<ImportRecord>, k: nat)
    requires AllWellTagged(imports) && k < |imports|
    requires NameError(imports[k]).Some?
    requires forall i :: 0 <= i < k ==> NameError(imports[i]).None?
    ensures Resolve(imports) == Failure(NameError(imports[k]).value)
  {
    var pre := imports[..k];
    assert AllNamesValid(pre) by {
      forall i | 0 <= i < |pre| ensures NameError(pre[i]).None? {
        assert pre[i] == imports[i];
      }
    }
    ResolveGroups(pre);
    StopAt(imports, k);
  }

  /** Import resolution succeeds exactly when every name is valid UTF-8;
      otherwise it reports the error of the first import with a bad name. */
  lemma ResolveSucceedsIffNamesValid(imports: seq<ImportRecord>)
    requires AllWellTagged(imports)
    ensures Resolve(imports).Success? <==> AllNamesValid(imports)
    ensures !AllNamesValid(imports) ==>
      exists k :: 0 <= k < |imports| && NameError(imports[k]).Some?
        && (forall i :: 0 <= i < k ==> NameError(imports[i]).None?)
        && Resolve(imports) == Failure(NameError(imports[k]).value)
  {
    if AllNamesValid(imports) {
      ResolveGroups(imports);
    } else {
      var k0 :| 0 <= k0 < |imports| && NameError(imports[k0]).Some?;
      var k := FirstBad(imports, k0);
      ResolveStopsAtFirstBadName(imports, k);
    }
  }

  /** What `wasmer_instantiate` does, given the engine's `instantiate`. */
  function InstantiateOutcome(
    wasmBytes: Option<seq<uint8>>,
    imports: seq<ImportRecord>,
    instantiate: (seq<uint8>, Namespaces) -> Result<Instance, EngineError>
  ): (o: Outcome<Instance>)
    requires AllWellTagged(imports)
    ensures o.status == WasmerOk <==> o.written.Some?
    ensures o.status == WasmerError <==> o.error.Some?
    ensures o.written.Some? ==>
              && wasmBytes.Some? && Resolve(imports).Success?
              && instantiate(wasmBytes.value, Resolve(imports).value) == Success(o.written.value)
    ensures wasmBytes.None? ==> o.error == Some(NullBytesError)
    ensures wasmBytes.Some? && Resolve(imports).Failure? ==> o.error == Some(Resolve(imports).error)
    ensures wasmBytes.Some? && Resolve(imports).Success? ==>
      var r := instantiate(wasmBytes.value, Resolve(imports).value);
      && (r.Success? ==> o == Outcome(WasmerOk, Some(r.value), None))
      && (r.Failure? ==> o == Outcome(WasmerError, None, Some(InstantiateError)))
  {
    if wasmBytes.None? then Outcome(WasmerError, None, Some(NullBytesError))
    else
      match Resolve(imports)
      case Failure(e) => Outcome(WasmerError, None, Some(e))
      case Success(namespaces) =>
        match instantiate(wasmBytes.value, namespaces)
        case Failure(_) => Outcome(WasmerError, None, Some(InstantiateError))
        case Success(instance) => Outcome(WasmerOk, Some(instance), None)
  }

  /** An invalid name makes `wasmer_instantiate` fail without writing the
      instance and without asking the engine; the error is the first bad
      import's. */
  lemma InstantiateRejectsBadName(
    wasmBytes: Option<seq<uint8>>,
    imports: seq<ImportRecord>,
    instantiate: (seq<uint8>, Namespaces) -> Result<Instance, EngineError>,
    k: nat)
    requires AllWellTagged(imports) && k < |imports| && NameError(imports[k]).Some?
    requires forall i :: 0 <= i < k ==> NameError(imports[i]).None?
    ensures wasmBytes.Some? ==>
      InstantiateOutcome(wasmBytes, imports, instantiate) == Outcome(WasmerError, None, NameError(imports[k]))
  {
    ResolveStopsAtFirstBadName(imports, k);
  }

  /** The loop's early return: the import at `i` has a bad name after a
      clean prefix, so the whole resolution fails with its error. */
  lemma {:induction false} StopAt(imports: seq<ImportRecord>, i: nat)
    requires AllWellTagged(imports) && i < |imports|
    requires Resolve(imports[..i]).Success? && NameError(imports[i]).Some?
    ensures Resolve(imports) == Failure(NameError(imports[i]).value)
    decreases |imports|
  {
    var init := imports[..|imports| - 1];
    if i < |imports| - 1 {
      assert init[..i] == imports[..i];
      StopAt(init, i);
    }
  }

  /** `for (module_name, namespace) in namespaces { import_object.register(..) }`:
      the map is visited in an unspecified order; every namespace ends up
      registered under its module name whatever that order is. */
  method Register(namespaces: Namespaces) returns (importObject: Namespaces)
    ensures importObject == namespaces
  {
    importObject := map[];
    var pending := namespaces.Keys;
    while pending != {}
      invariant pending <= namespaces.Keys
      invariant importObject.Keys == namespaces.Keys - pending
      invariant forall m :: m in importObject ==> importObject[m] == namespaces[m]
      decreases pending
    {
      var m :| m in pending;
      importObject := importObject[m := namespaces[m]];
      pending := pending - {m};
    }
  }

  /** `wasmer_instantiate`. */
  method Instantiate(
    channel: ErrorChannel,
    instance: Cell<Instance>,
    wasmBytes: Option<seq<uint8>>,
    imports: seq<ImportRecord>,
    instantiate: (seq<uint8>, Namespaces) -> Result<Instance, EngineError>
  ) returns (status: Status)
    requires AllWellTagged(imports)
    modifies channel, instance
    ensures var o := InstantiateOutcome(wasmBytes, imports, instantiate);
      && status == o.status
      && instance.value == GetOr(o.written, old(instance.value))
      && channel.last == OrElse(o.error, old(channel.last))
  {
    if wasmBytes.None? {
      channel.Update(NullBytesError);
      return WasmerError;
    }
    var namespaces: Namespaces := map[];
    var i := 0;
    while i < |imports|
      invariant i <= |imports|
      invariant Resolve(imports[..i]) == Success(namespaces)
      invariant unchanged(channel) && unchanged(instance)
    {
      var imp := imports[i];
      if !ValidUtf8(imp.moduleName) {
        channel.Update(ModuleNameError);
        StopAt(imports, i);
        return WasmerError;
      }
      if !ValidUtf8(imp.importName) {
        channel.Update(ImportNameError);
        StopAt(imports, i);
        return WasmerError;
      }
      var namespace := NamespaceOf(namespaces, imp.moduleName);
      namespaces := namespaces[imp.moduleName := namespace + [(imp.importName, ImportExport(imp))]];
      assert imports[..i + 1][..i] == imports[..i];
      i := i + 1;
    }
    assert imports[..i] == imports;
    var importObject := Register(namespaces);
    var result := instantiate(wasmBytes.value, importObject);
    if result.Failure? {
      channel.Update(InstantiateError);
      return WasmerError;
    }
    instance.value := result.value;
    status := WasmerOk;
  }
}
