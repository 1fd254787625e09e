/** Descriptor enumeration: the export and import listings of a module, built
    from the module's metadata without instantiating it, and the `_len` /
    `_get` accessors of the resulting collections. */
module Descriptors {
  import opened Wrappers
  import opened Abi

  /** `ExportIndex`: what a module export refers to. */
  datatype ExportIndex = FuncIndex(index: nat) | MemoryIndex(index: nat) | GlobalIndex(index: nat) | TableIndex(index: nat)

  /** `ImportName`: indices into the module's namespace and name tables. */
  datatype ImportName = ImportName(namespaceIndex: nat, nameIndex: nat)

  /** The part of `ModuleInfo` the enumerations read: the exports in
      declaration order, the four lists of imports, each in declaration order,
      and the string tables the import names point into. */
  datatype ModuleInfo = ModuleInfo(
    exports: seq<(Name, ExportIndex)>,
    importedFunctions: seq<ImportName>,
    importedTables: seq<ImportName>,
    importedGlobals: seq<ImportName>,
    importedMemories: seq<ImportName>,
    namespaceTable: seq<Name>,
    nameTable: seq<Name>)

  predicate NamesResolve(info: ModuleInfo, names: seq<ImportName>) {
    forall i :: 0 <= i < |names| ==>
      names[i].namespaceIndex < |info.namespaceTable| && names[i].nameIndex < |info.nameTable|
  }

  /** A compiled module's import names all point into its string tables. */
  predicate WellFormed(info: ModuleInfo) {
    && NamesResolve(info, info.importedFunctions)
    && NamesResolve(info, info.importedTables)
    && NamesResolve(info, info.importedGlobals)
    && NamesResolve(info, info.importedMemories)
  }

  /** `NamedExportDescriptor`. */
  datatype ExportDescriptor = ExportDescriptor(name: Name, kind: ImportExportKind)

  /** `NamedImportDescriptor`. */
  datatype ImportDescriptor = ImportDescriptor(moduleName: Name, name: Name, kind: ImportExportKind)

  /** The kind an export descriptor gets from its `ExportIndex` variant. */
  function IndexKind(ei: ExportIndex): (k: ImportExportKind)
    ensures k == WasmMemory <==> ei.MemoryIndex?
    ensures k == WasmGlobal <==> ei.GlobalIndex?
    ensures k == WasmTable <==> ei.TableIndex?
    ensures k == WasmFunction <==> ei.FuncIndex?
  {
    match ei
    case MemoryIndex(_) => WasmMemory
    case GlobalIndex(_) => WasmGlobal
    case TableIndex(_) => WasmTable
    case FuncIndex(_) => WasmFunction
  }

  /** `From<(&String, &ExportIndex)> for NamedExportDescriptor`. */
  function DescribeExport(name: Name, ei: ExportIndex): (d: ExportDescriptor)
    ensures d.name == name && d.kind == IndexKind(ei)
  {
    ExportDescriptor(name, IndexKind(ei))
  }

  /** `wasmer_export_descriptors`: one descriptor per export, in the module's
      export order, each with the export's name and the kind of its index. */
  function ExportDescriptors(info: ModuleInfo): (ds: seq<ExportDescriptor>)
    ensures |ds| == |info.exports|
    ensures forall i :: 0 <= i < |ds| ==>
              ds[i].name == info.exports[i].0 && ds[i].kind == IndexKind(info.exports[i].1)
  {
    seq(|info.exports|, i requires 0 <= i < |info.exports| => DescribeExport(info.exports[i].0, info.exports[i].1))
  }

  /** The descriptor of one import: its names looked up in the string tables. */
  function DescribeImport(info: ModuleInfo, n: ImportName, kind: ImportExportKind): (d: ImportDescriptor)
    requires n.namespaceIndex < |info.namespaceTable| && n.nameIndex < |info.nameTable|
    ensures d.moduleName == info.namespaceTable[n.namespaceIndex]
    ensures d.name == info.nameTable[n.nameIndex]
    ensures d.kind == kind
  {
    ImportDescriptor(info.namespaceTable[n.namespaceIndex], info.nameTable[n.nameIndex], kind)
  }

  /** What one of the four loops of `wasmer_import_descriptors` pushes: the
      descriptors of one import list, in order, all tagged with `kind`. */
  function DescribeGroup(info: ModuleInfo, names: seq<ImportName>, kind: ImportExportKind): (ds: seq<ImportDescriptor>)
    requires NamesResolve(info, names)
    ensures |ds| == |names|
    ensures forall i :: 0 <= i < |names| ==> ds[i] == DescribeImport(info, names[i], kind)
    decreases |names|
  {
    if names == [] then []
    else DescribeGroup(info, names[..|names| - 1], kind) + [DescribeImport(info, names[|names| - 1], kind)]
  }

  /** The import listing: kind-major, functions, then tables, then globals,
      then memories, each group in declaration order. */
  function ImportDescriptorsOf(info: ModuleInfo): (ds: seq<ImportDescriptor>)
    requires WellFormed(info)
    ensures |ds| == |info.importedFunctions| + |info.importedTables| + |info.importedGlobals| + |info.importedMemories|
  {
    DescribeGroup(info, info.importedFunctions, WasmFunction)
    + DescribeGroup(info, info.importedTables, WasmTable)
    + DescribeGroup(info, info.importedGlobals, WasmGlobal)
    + DescribeGroup(info, info.importedMemories, WasmMemory)
  }

  /** Describing one more import of a group appends its descriptor. */
  lemma DescribeGroupSnoc(info: ModuleInfo, names: seq<ImportName>, i: nat, kind: ImportExportKind)
    requires NamesResolve(info, names) && i < |names|
    ensures DescribeGroup(info, names[..i + 1], kind)
         == DescribeGroup(info, names[..i], kind) + [DescribeImport(info, names[i], kind)]
  {
    assert names[..i + 1][..i] == names[..i];
  }

  /** One of the four loops of `wasmer_import_descriptors`: pushes the
      descriptor of every import of a group, in order, onto `done`. */
  method PushGroup(info: ModuleInfo, names: seq<ImportName>, kind: ImportExportKind, done: seq<ImportDescriptor>)
    returns (descriptors: seq<ImportDescriptor>)
    requires NamesResolve(info, names)
    ensures descriptors == done + DescribeGroup(info, names, kind)
  {
    descriptors := done;
    var i := 0;
    while i < |names|
      invariant i <= |names|
      invariant descriptors == done + DescribeGroup(info, names[..i], kind)
    {
      DescribeGroupSnoc(info, names, i, kind);
      ghost var group := DescribeGroup(info, names[..i], kind);
      descriptors := descriptors + [DescribeImport(info, names[i], kind)];
      assert descriptors == done + (group + [DescribeImport(info, names[i], kind)]);
      i := i + 1;
    }
    assert names[..i] == names;
  }

  /** `wasmer_import_descriptors`: four loops pushing into one vector,
      functions, then tables, then globals, then memories. */
  method ImportDescriptors(info: ModuleInfo) returns (descriptors: seq<ImportDescriptor>)
    requires WellFormed(info)
    ensures descriptors == ImportDescriptorsOf(info)
  {
    ghost var fs := DescribeGroup(info, info.importedFunctions, WasmFunction);
    ghost var ts := DescribeGroup(info, info.importedTables, WasmTable);
    ghost var gs := DescribeGroup(info, info.importedGlobals, WasmGlobal);
    ghost var ms := DescribeGroup(info, info.importedMemories, WasmMemory);
    descriptors := PushGroup(info, info.importedFunctions, WasmFunction, []);
    assert descriptors == fs;
    descriptors := PushGroup(info, info.importedTables, WasmTable, descriptors);
    descriptors := PushGroup(info, info.importedGlobals, WasmGlobal, descriptors);
    descriptors := PushGroup(info, info.importedMemories, WasmMemory, descriptors);
    assert descriptors == fs + ts + gs + ms;
  }

  /** Where each import lands in the listing: the k-th function import at k,
      the k-th table import after all functions, and so on, each tagged with
      its group's kind. */
  lemma ImportDescriptorsAt(info: ModuleInfo, k: nat)
    requires WellFormed(info)
    ensures var ds, f, t, g := ImportDescriptorsOf(info),
                |info.importedFunctions|, |info.importedTables|, |info.importedGlobals|;
      && (k < f ==> ds[k] == DescribeImport(info, info.importedFunctions[k], WasmFunction))
      && (k < t ==> ds[f + k] == DescribeImport(info, info.importedTables[k], WasmTable))
      && (k < g ==> ds[f + t + k] == DescribeImport(info, info.importedGlobals[k], WasmGlobal))
      && (k < |info.importedMemories| ==>
            ds[f + t + g + k] == DescribeImport(info, info.importedMemories[k], WasmMemory))
  {
    var fs := DescribeGroup(info, info.importedFunctions, WasmFunction);
    var ts := DescribeGroup(info, info.importedTables, WasmTable);
    var gs := DescribeGroup(info, info.importedGlobals, WasmGlobal);
    var ms := DescribeGroup(info, info.importedMemories, WasmMemory);
    var ds := ImportDescriptorsOf(info);
    assert ds == fs + ts + gs + ms;
    IndexFourParts(fs, ts, gs, ms, k);
  }

  /** Where the `k`-th entry of each of four parts sits in their
      concatenation. */
  lemma IndexFourParts<T>(a: seq<T>, b: seq<T>, c: seq<T>, d: seq<T>, k: nat)
    ensures k < |a| ==> (a + b + c + d)[k] == a[k]
    ensures k < |b| ==> (a + b + c + d)[|a| + k] == b[k]
    ensures k < |c| ==> (a + b + c + d)[|a| + |b| + k] == c[k]
    ensures k < |d| ==> (a + b + c + d)[|a| + |b| + |c| + k] == d[k]
  {
  }

  /** The position of a kind in the import listing's order. */
  function KindRank(k: ImportExportKind): nat {
    match k
    case WasmFunction => 0
    case WasmTable => 1
    case WasmGlobal => 2
    case WasmMemory => 3
  }

  /** The listing is kind-major: an earlier entry never has a later kind. */
  lemma ImportDescriptorsKindMajor(info: ModuleInfo, i: nat, j: nat)
    requires WellFormed(info)
    requires i <= j < |ImportDescriptorsOf(info)|
    ensures KindRank(ImportDescriptorsOf(info)[i].kind) <= KindRank(ImportDescriptorsOf(info)[j].kind)
  {
  }

  /** The entries of one kind, in listing order. */
  function OfKind(ds: seq<ImportDescriptor>, kind: ImportExportKind): (r: seq<ImportDescriptor>)
    ensures |r| <= |ds|
    ensures forall i :: 0 <= i < |r| ==> r[i].kind == kind && r[i] in ds
    decreases |ds|
  {
    if ds == [] then []
    else OfKind(ds[..|ds| - 1], kind) + (if ds[|ds| - 1].kind == kind then [ds[|ds| - 1]] else [])
  }

  lemma {:induction false} OfKindAppend(a: seq<ImportDescriptor>, b: seq<ImportDescriptor>, kind: ImportExportKind)
    ensures OfKind(a + b, kind) == OfKind(a, kind) + OfKind(b, kind)
    decreases |b|
  {
    if b == [] {
      assert a + b == a;
    } else {
      assert (a + b)[..|a + b| - 1] == a + b[..|b| - 1];
      OfKindAppend(a, b[..|b| - 1], kind);
    }
  }

  lemma {:induction false} OfKindGroup(info: ModuleInfo, names: seq<ImportName>, group: ImportExportKind, kind: ImportExportKind)
    requires NamesResolve(info, names)
    ensures OfKind(DescribeGroup(info, names, group), kind) == if group == kind then DescribeGroup(info, names, group) else []
    decreases |names|
  {
    if names != [] {
      var init := names[..|names| - 1];
      assert DescribeGroup(info, names, group) == DescribeGroup(info, init, group) + [DescribeImport(info, names[|names| - 1], group)];
      OfKindAppend(DescribeGroup(info, init, group), [DescribeImport(info, names[|names| - 1], group)], kind);
      OfKindGroup(info, init, group, kind);
      assert OfKind([DescribeImport(info, names[|names| - 1], group)], kind)
          == if group == kind then [DescribeImport(info, names[|names| - 1], group)] else [];
    }
  }

  /** The module's imports of one kind, in declaration order. */
  function ImportsOfKind(info: ModuleInfo, kind: ImportExportKind): seq<ImportName> {
    match kind
    case WasmFunction => info.importedFunctions
    case WasmTable => info.importedTables
    case WasmGlobal => info.importedGlobals
    case WasmMemory => info.importedMemories
  }

  lemma EmptyPartsVanish<T>(a: seq<T>)
    ensures a + [] + [] + [] == a && [] + a + [] + [] == a && [] + [] + a + [] == a && [] + [] + [] + a == a
  {
  }

  /** Selecting by kind from the listing selects from each of its groups. */
  lemma OfKindListing(info: ModuleInfo, kind: ImportExportKind)
    requires WellFormed(info)
    ensures OfKind(ImportDescriptorsOf(info), kind)
         == OfKind(DescribeGroup(info, info.importedFunctions, WasmFunction), kind)
          + OfKind(DescribeGroup(info, info.importedTables, WasmTable), kind)
          + OfKind(DescribeGroup(info, info.importedGlobals, WasmGlobal), kind)
          + OfKind(DescribeGroup(info, info.importedMemories, WasmMemory), kind)
  {
    var fs := DescribeGroup(info, info.importedFunctions, WasmFunction);
    var ts := DescribeGroup(info, info.importedTables, WasmTable);
    var gs := DescribeGroup(info, info.importedGlobals, WasmGlobal);
    var ms := DescribeGroup(info, info.importedMemories, WasmMemory);
    OfKindAppend(fs + ts + gs, ms, kind);
    OfKindAppend(fs + ts, gs, kind);
    OfKindAppend(fs, ts, kind);
  }

  /** Picking the entries of one kind out of the listing gives exactly the
      imports of that kind in declaration order: grouping loses, adds and
      reorders nothing within a kind. */
  lemma ImportDescriptorsOfKind(info: ModuleInfo, kind: ImportExportKind)
    requires WellFormed(info)
    ensures OfKind(ImportDescriptorsOf(info), kind) == DescribeGroup(info, ImportsOfKind(info, kind), kind)
  {
    OfKindListing(info, kind);
    var fs := DescribeGroup(info, info.importedFunctions, WasmFunction);
    var ts := DescribeGroup(info, info.importedTables, WasmTable);
    var gs := DescribeGroup(info, info.importedGlobals, WasmGlobal);
    var ms := DescribeGroup(info, info.importedMemories, WasmMemory);
    OfKindGroup(info, info.importedFunctions, WasmFunction, kind);
    OfKindGroup(info, info.importedTables, WasmTable, kind);
    OfKindGroup(info, info.importedGlobals, WasmGlobal, kind);
    OfKindGroup(info, info.importedMemories, WasmMemory, kind);
    var pf, pt, pg, pm := OfKind(fs, kind), OfKind(ts, kind), OfKind(gs, kind), OfKind(ms, kind);
    match kind {
      case WasmFunction =>
        assert pf == fs && pt == [] && pg == [] && pm == [];
        EmptyPartsVanish(fs);
      case WasmTable =>
        assert pf == [] && pt == ts && pg == [] && pm == [];
        EmptyPartsVanish(ts);
      case WasmGlobal =>
        assert pf == [] && pt == [] && pg == gs && pm == [];
        EmptyPartsVanish(gs);
      case WasmMemory =>
        assert pf == [] && pt == [] && pg == [] && pm == ms;
        EmptyPartsVanish(ms);
    }
  }

  /** `wasmer_export_descriptors_len` / `wasmer_import_descriptors_len`:
      0 on a null handle, otherwise the collection's length as a `c_int`. */
  function DescriptorsLen<D>(handle: Option<seq<D>>): (n: int)
    ensures handle.None? ==> n == 0
    ensures handle.Some? && |handle.value| < 0x8000_0000 ==> n == |handle.value|
  {
    if handle.None? then 0 else AsCInt(|handle.value|)
  }

  /** `wasmer_export_descriptors_get` / `wasmer_import_descriptors_get`: null
      on a null handle, otherwise the entry at `idx`; an index outside the
      collection is a Rust index panic. */
  function DescriptorsGet<D>(handle: Option<seq<D>>, idx: int): (d: Option<D>)
    requires handle.Some? ==> 0 <= idx < |handle.value|
    ensures d.None? <==> handle.None?
    ensures d.Some? ==> d.value == handle.value[idx]
  {
    if handle.None? then None else Some(handle.value[idx])
  }

  /** Enumerating a collection through its accessors, index 0 up to the
      reported length, yields the collection itself. */
  lemma EnumerateByIndex<D>(ds: seq<D>)
    requires |ds| < 0x8000_0000
    ensures DescriptorsLen(Some(ds)) == |ds|
    ensures seq(|ds|, i requires 0 <= i < |ds| => DescriptorsGet(Some(ds), i).value) == ds
  {
  }
}
