# Wasmer C API boundary and typed memory views, in Dafny

This project models two parts of the Wasmer WebAssembly runtime.

- **The boundary logic of the C embedding API** (`lib/runtime-c-api/src/lib.rs`):
  - conversion of tagged `wasmer_value_t` values and `wasmer_value_tag` tags to and from the engine's `Value` and `Type`;
  - enumeration of a module's export and import descriptors, and their `_len` / `_get` accessors;
  - the grouping of host imports into per-module namespaces in `wasmer_instantiate`;
  - the two call paths, `wasmer_instance_call` and `wasmer_export_func_call`;
  - `wasmer_export_kind`, and the signature accessors (`*_params`, `*_returns`, `*_arity`) for export and import functions;
  - `wasmer_import_func_new` and `wasmer_export_to_memory`.
- **The typed memory view** (`lib/types/src/memory_view.rs`). This is a window `(ptr, length)` into a linear memory. It supports:
  - sub-views;
  - an equal-length bulk copy;
  - an atomic view of the same cells;
  - the mapping from element types to atomic types.

Conventions the model uses throughout:

- The engine is a function-typed parameter. This covers `wasmer_runtime::instantiate`, `Instance::call` and the module's `ModuleInfo` (passed as plain data).
- The thread-local last-error slot written by `update_last_error` is the object `Errors.ErrorChannel`. Its error module is not part of this model. The `Update` method stands in for each call.
- An out-pointer (`*mut *mut wasmer_instance_t`, `*mut uint32_t`, ...) is an `Errors.Cell`.
- A caller buffer is an `array`.
- A null pointer is `None`.
- Each boundary function has a pure specification function. That function returns an `Outcome`: the status, the value written through the out-pointer (if any), and the last error set (if any). The method is proved against it: its status is the outcome's, its out-pointer and the error slot change exactly as the outcome says, and nothing else changes.
- Names are byte strings. A Rust `&str` is a byte string that `std::str::from_utf8` accepted. `Utf8.ValidUtf8` states that check as the well-formedness table of RFC 3629, section 4.
- A `wasmer_value_t` is modelled as a tag and the one union field the host set, and the tag naming that field (`Values.Agrees`) is a caller contract; see "## Left out" for what the source does otherwise.
- A `wasmer_import_t` is modelled the same way. `Imports.WellTagged` is a caller contract of `Imports.Instantiate` and its outcome: the tag names the union field the host set, and a function import's pointer is an export built by `wasmer_import_func_new`, which is always a function export. The source does not check either. For a function import it clones whatever export the pointer points at (lib.rs:434-437); a mismatched tag makes it read the bits of another union field.
- A Rust panic is a precondition of the member that models it. This covers a slice index out of range and a `to_str().unwrap()` on a name that is not UTF-8. The exception is the assertions in `subarray`: `Subarray` returns `None` for the panic, so that the exact condition can be stated.

## Model

| member | source | states |
|---|---|---|
| Abi.StatusCode | lib/runtime-c-api/src/lib.rs:36-41 | `WASMER_OK` is 1 and `WASMER_ERROR` is 2, in both directions |
| Abi.KindCode | lib/runtime-c-api/src/lib.rs:95-103 | the `repr(u32)` discriminant of an import/export kind is its declaration position: 0 for a function, 1 for a global, 2 for a memory, 3 for a table, each in both directions |
| Abi.KindCodeInjective | lib/runtime-c-api/src/lib.rs:95-103 | two kinds have the same discriminant exactly when they are the same kind |
| Abi.AsCInt | lib/runtime-c-api/src/lib.rs:154-161 | `len() as c_int` keeps the low 32 bits as two's complement: in range, congruent modulo 2^32, and the length itself below 2^31 |
| Abi.AsUint32 | lib/runtime-c-api/src/lib.rs:638-653 | `len() as uint32_t` is congruent to the length modulo 2^32 and equals it below 2^32 |
| Values.TypeToTag | lib/runtime-c-api/src/lib.rs:1079-1089 | each `Type` maps to the tag of the same kind, and only that type does (also the `&Type` conversion at 1103-1112) |
| Values.TagToType | lib/runtime-c-api/src/lib.rs:1091-1101 | converting a tag to a `Type` is undone by converting the type back to a tag |
| Values.TypeTagRoundTrip | lib/runtime-c-api/src/lib.rs:1079-1101 | `Type` to tag to `Type` is the identity |
| Values.ToValue | lib/runtime-c-api/src/lib.rs:1030-1054 | an incoming value becomes the `Value` of the kind its tag names, carrying the union field's payload unchanged, for each of the four kinds |
| Values.FromValue | lib/runtime-c-api/src/lib.rs:1056-1077 | an outgoing value gets the tag of its type and carries its payload unchanged in the union field that tag names, and converting it back gives the original `Value` |
| Values.MarshalRoundTrip | lib/runtime-c-api/src/lib.rs:1030-1077 | a well-tagged `wasmer_value_t` converted to `Value` and back has the same tag and the same payload, for all four kinds |
| Values.ToValues | lib/runtime-c-api/src/lib.rs:505-506 | the parameter array converted element-wise: same length, and each element converts back to the parameter at its position |
| Values.TagsToTypes | lib/runtime-c-api/src/lib.rs:776-779 | a tag array converted element-wise to types: same length, and each type converts back to its tag |
| Values.TypesToTags | lib/runtime-c-api/src/lib.rs:1103-1112 | a signature's types converted element-wise to tags: same length, and each tag converts back to its type |
| Values.TagsRoundTrip | lib/runtime-c-api/src/lib.rs:776-779 | tags turned into a signature and read back are the same tags |
| Exports.KindOf | lib/runtime-c-api/src/lib.rs:618-628 | `wasmer_export_kind` depends on the variant alone: each of the four kinds exactly for its variant |
| Exports.SignatureTags | lib/runtime-c-api/src/lib.rs:663-683 | a signature's tags exist exactly for a function export; there is one per type of that half of the signature, and each names its type |
| Exports.ImportFuncNew | lib/runtime-c-api/src/lib.rs:769-787 | `wasmer_import_func_new` builds a function export with an internal context, the given function, and a signature whose parameter and return tags read back as exactly the supplied tags |
| Signatures.ArityOutcome | lib/runtime-c-api/src/lib.rs:638-653 | an arity accessor succeeds exactly on a function export and writes the signature length; otherwise it sets the given error and writes nothing |
| Signatures.TagsOutcome | lib/runtime-c-api/src/lib.rs:663-683 | a params/returns accessor succeeds exactly on a function export and writes the tags of its signature; otherwise it sets the given error |
| Signatures.ArityMatchesTags | lib/runtime-c-api/src/lib.rs:638-713 | the arity accessor and the tag accessor agree on status, and the arity written is the number of tags written |
| Signatures.Arity | lib/runtime-c-api/src/lib.rs:638-653 | the shared body of the arity accessors, proved against `ArityOutcome` |
| Signatures.CopyTags | lib/runtime-c-api/src/lib.rs:663-683 | the loop writes `buf[i]` = tag of the i-th type for every type of the signature, leaves the rest of the buffer as it was, and on a non-function export changes no buffer entry and sets the error |
| Signatures.ExportFuncParamsArity | lib/runtime-c-api/src/lib.rs:638-653 | `wasmer_export_func_params_arity`, with its own error message |
| Signatures.ExportFuncReturnsArity | lib/runtime-c-api/src/lib.rs:723-738 | `wasmer_export_func_returns_arity`, with its own error message |
| Signatures.ImportFuncParamsArity | lib/runtime-c-api/src/lib.rs:748-762 | `wasmer_import_func_params_arity`, with its own error message |
| Signatures.ImportFuncReturnsArity | lib/runtime-c-api/src/lib.rs:855-869 | `wasmer_import_func_returns_arity`, with its own error message |
| Signatures.ExportFuncParams | lib/runtime-c-api/src/lib.rs:663-683 | `wasmer_export_func_params`: the parameter tags copied into the caller buffer |
| Signatures.ExportFuncReturns | lib/runtime-c-api/src/lib.rs:693-713 | `wasmer_export_func_returns`: the return tags copied into the caller buffer |
| Signatures.ImportFuncParams | lib/runtime-c-api/src/lib.rs:797-816 | `wasmer_import_func_params`: the parameter tags copied into the caller buffer |
| Signatures.ImportFuncReturns | lib/runtime-c-api/src/lib.rs:826-845 | `wasmer_import_func_returns`: the return tags copied into the caller buffer |
| Signatures.ToMemoryOutcome | lib/runtime-c-api/src/lib.rs:897-915 | `wasmer_export_to_memory` succeeds exactly on a memory export and writes that memory; otherwise it sets the fixed "not a memory export" error |
| Signatures.ExportToMemory | lib/runtime-c-api/src/lib.rs:897-915 | `wasmer_export_to_memory`, proved against `ToMemoryOutcome` |
| Descriptors.IndexKind | lib/runtime-c-api/src/lib.rs:1114-1127 | a descriptor's kind is decided by the `ExportIndex` variant alone: Memory, Global, Table and Func each map to their own kind, in both directions |
| Descriptors.DescribeExport | lib/runtime-c-api/src/lib.rs:1114-1127 | an export descriptor keeps the export's name and takes the kind of its index |
| Descriptors.ExportDescriptors | lib/runtime-c-api/src/lib.rs:125-136 | one descriptor per export, in the module's export order, each with the export's name and its index's kind |
| Descriptors.DescribeImport | lib/runtime-c-api/src/lib.rs:225-231 | an import's descriptor takes its module name from the namespace table and its name from the name table, at the import's indices, with the kind of its group |
| Descriptors.DescribeGroup | lib/runtime-c-api/src/lib.rs:217-232 | one loop of the import listing: one descriptor per import of the group, in declaration order, each with the group's kind |
| Descriptors.ImportDescriptorsOf | lib/runtime-c-api/src/lib.rs:211-292 | the kind-major listing has one entry per import: functions + tables + globals + memories |
| Descriptors.PushGroup | lib/runtime-c-api/src/lib.rs:217-232 | one loop of the listing, proved against `DescribeGroup`: the group's descriptors are appended, in order, to what was already pushed |
| Descriptors.ImportDescriptors | lib/runtime-c-api/src/lib.rs:206-298 | the four loops pushing into one vector produce exactly the kind-major listing |
| Descriptors.ImportDescriptorsAt | lib/runtime-c-api/src/lib.rs:217-292 | the k-th import of each group is at its group's offset plus k, described with the group's kind |
| Descriptors.ImportDescriptorsKindMajor | lib/runtime-c-api/src/lib.rs:217-292 | an earlier entry never has a later kind than a later entry (functions, tables, globals, memories) |
| Descriptors.OfKind | lib/runtime-c-api/src/lib.rs:206-298 | the per-kind selection the order property is stated with: it keeps only entries of the chosen kind, all taken from the listing |
| Descriptors.OfKindAppend | lib/runtime-c-api/src/lib.rs:206-298 | selecting by kind distributes over concatenation |
| Descriptors.OfKindGroup | lib/runtime-c-api/src/lib.rs:217-232 | the entries of one kind in a group are the whole group when the kinds match and none otherwise |
| Descriptors.OfKindListing | lib/runtime-c-api/src/lib.rs:206-298 | the entries of one kind in the listing are those of the four groups, concatenated in listing order |
| Descriptors.ImportDescriptorsOfKind | lib/runtime-c-api/src/lib.rs:206-298 | the entries of one kind in the listing are exactly the module's imports of that kind, in declaration order |
| Descriptors.DescriptorsLen | lib/runtime-c-api/src/lib.rs:154-161 | the `_len` accessor returns 0 on a null handle, and otherwise the number of descriptors |
| Descriptors.DescriptorsGet | lib/runtime-c-api/src/lib.rs:166-176 | the `_get` accessor returns null exactly on a null handle, and otherwise the descriptor at that index |
| Descriptors.EnumerateByIndex | lib/runtime-c-api/src/lib.rs:316-338 | reading a listing through `_len` and `_get` at indices 0 up to the length gives back the whole listing |
| Utf8.FirstCharLength | lib/runtime-c-api/src/lib.rs:402-424 | the length of the well-formed character starting a byte string, per RFC 3629: 1 for ASCII, 0 for a stray continuation byte, never more than 4 or than the input |
| Utf8.AsciiIsValid | lib/runtime-c-api/src/lib.rs:402-424 | every ASCII byte string is accepted as a name |
| Utf8.StrayContinuationIsInvalid | lib/runtime-c-api/src/lib.rs:402-424 | a byte string with a continuation byte right after a valid prefix, where a character must start, is rejected |
| Imports.ImportExport | lib/runtime-c-api/src/lib.rs:428-446 | the `Export` an import contributes has the import's kind: a clone of the memory, global or table for those tags, and the supplied function export for a function |
| Imports.NameError | lib/runtime-c-api/src/lib.rs:400-424 | an import raises no error exactly when both of its names are valid UTF-8; an invalid module name gives the module-name error, and a valid module name with an invalid import name gives the import-name error |
| Imports.Insert | lib/runtime-c-api/src/lib.rs:426-446 | inserting an import adds its module name to the keys and appends its entry to that module's namespace only |
| Imports.Resolve | lib/runtime-c-api/src/lib.rs:398-447 | the resolution loop: it fails only with one of the two name errors, and on success it has a namespace for exactly the module names that occur |
| Imports.FailureSticks | lib/runtime-c-api/src/lib.rs:398-425 | once resolution has failed on a prefix of the imports, it ends with that same error |
| Imports.ResolveGroups | lib/runtime-c-api/src/lib.rs:398-450 | with all names valid, resolution succeeds; the namespaces are exactly the module names that occur, and each holds its imports' entries in input order |
| Imports.ResolveStopsAtFirstBadName | lib/runtime-c-api/src/lib.rs:400-424 | the first import with a bad name stops resolution, and its error is the one reported |
| Imports.ResolveSucceedsIffNamesValid | lib/runtime-c-api/src/lib.rs:398-450 | resolution succeeds exactly when every name is valid UTF-8; otherwise it fails with the error of the first import that has a bad name |
| Imports.InstantiateOutcome | lib/runtime-c-api/src/lib.rs:384-467 | `wasmer_instantiate` writes an instance exactly on success. A null byte pointer and a bad name each give their own error. With non-null bytes and valid names, an engine success gives OK with the engine's instance written, and an engine failure gives "error instantiating" |
| Imports.InstantiateRejectsBadName | lib/runtime-c-api/src/lib.rs:400-424 | with non-null bytes, a bad name yields ERROR, no instance written, and the first bad import's error |
| Imports.Register | lib/runtime-c-api/src/lib.rs:448-450 | registering the namespaces in any order puts every namespace into the import object under its module name |
| Imports.Instantiate | lib/runtime-c-api/src/lib.rs:384-467 | the resolution loop and the engine call, proved against `InstantiateOutcome` |
| Call.FinishCall | lib/runtime-c-api/src/lib.rs:514-543 | a successful call writes the marshalled first result exactly when the engine returned at least one value; an engine error becomes the last error |
| Call.InstanceCallOutcome | lib/runtime-c-api/src/lib.rs:478-544 | null instance, then null name, then null params each give ERROR with their own message and write nothing; otherwise OK exactly when the engine succeeds, and a written result is the marshalled first result |
| Call.ExportFuncCallOutcome | lib/runtime-c-api/src/lib.rs:937-996 | null func, then null params, each give ERROR with their own message; otherwise the engine runs the export's own name on its own instance |
| Call.ExportFuncCallIsInstanceCall | lib/runtime-c-api/src/lib.rs:937-996 | calling through a function export is calling its instance by the export's name: same status, same result, same error |
| Call.InstanceCallReportsEngine | lib/runtime-c-api/src/lib.rs:512-543 | with all pointers set: a non-empty success writes the marshalled first result, an empty success writes nothing, and a failure sets the engine's error |
| Call.WriteFirst | lib/runtime-c-api/src/lib.rs:516-536 | `results[0] = ret` when a value comes back: only entry 0 changes, and nothing changes otherwise |
| Call.InstanceCall | lib/runtime-c-api/src/lib.rs:478-544 | `wasmer_instance_call`: at most `results[0]` changes, as `InstanceCallOutcome` says, and the error slot is set only on failure |
| Call.ExportFuncCall | lib/runtime-c-api/src/lib.rs:937-996 | `wasmer_export_func_call`: at most `results[0]` changes, as `ExportFuncCallOutcome` says, and the error slot is set only on failure |
| MemoryViews.AtomicOf | lib/types/src/memory_view.rs:24-35 | each element type maps to an atomic of the same byte width; integers keep their signedness, and floats map to the unsigned atomic of their width |
| MemoryViews.New | lib/types/src/memory_view.rs:60-66 | a new view is non-atomic and stores the pointer and the length unchanged |
| MemoryViews.Deref | lib/types/src/memory_view.rs:107-121 | either `Deref` exposes exactly `length` cells, the i-th being memory cell `ptr + i` |
| MemoryViews.Subarray | lib/types/src/memory_view.rs:69-77 | as written: a sub-view exists exactly when `start <= end < length`; it starts at `ptr + start`, has `end - start` cells and lies in the same memory |
| MemoryViews.SubarrayMissesLastCell | lib/types/src/memory_view.rs:69-77 | as written, every sub-view ends strictly before the view's end, and `subarray(0, length)` fails |
| MemoryViews.SubarrayCounterexample | lib/types/src/memory_view.rs:69-77 | a one-cell view has no sub-view holding that cell, only the empty one |
| MemoryViews.SubarrayUpTo | lib/types/src/memory_view.rs:69-77 | corrected: a sub-view exists exactly when `start <= end <= length`, with the same pointer and length arithmetic |
| MemoryViews.SubarrayUpToCells | lib/types/src/memory_view.rs:69-77 | the corrected sub-view's cells are exactly the view's cells `start` up to `end`, and the whole view is a sub-view of itself |
| MemoryViews.SubarrayUpToExtends | lib/types/src/memory_view.rs:69-77 | wherever the written check accepts, the corrected one gives the same view |
| MemoryViews.CopyFrom | lib/types/src/memory_view.rs:83-93 | with a source as long as the view, the view's cells become the source and no memory outside the window changes |
| MemoryViews.AtomicallyView | lib/types/src/memory_view.rs:96-105 | the atomic view has the same memory, pointer and length as the view |
| MemoryViews.AtomicallyAliases | lib/types/src/memory_view.rs:96-121 | the atomic view and the view expose the same cells |

## Left out

- The engine is out of scope: compilation and instantiation, `Instance::call`, and what `ModuleInfo` holds. These are function-typed parameters or plain data.
- Handle allocation and freeing (`Box::into_raw`, the `*_destroy` functions) and the raw casts between handle types are out of scope. A handle is the value it points to.
- The contents of the last-error slot beyond "which error was set last" are out of scope. `wasmer_last_error_length` and `wasmer_last_error_message` belong to the error module, which is not part of this model.
- `wasmer_instance_exports`, `wasmer_exports_len` / `_get`, `wasmer_export_name`, `wasmer_export_to_func` and the descriptor name/kind accessors are not modelled. They are outside the modelled core: field reads of a handle.
- `wasmer_instance_context_data_set` / `_get` and `wasmer_instance_context_memory` are not modelled. They are a pointer store and load into an engine-owned context.
- Imports.Insert: the behaviour of `Namespace::insert` on a repeated import name belongs to the engine's `Namespace`, which is not part of this model. A namespace is the ordered list of insertions it received, so no overwrite rule is asserted.
- Imports.Register: `ImportObject::register` is also engine code. The import object is the map of namespaces it receives, and no rule is asserted for a module name registered twice (the source never does that, as the keys are distinct).
- Imports.Instantiate: the only property of the engine's result is the oracle's. The `*instance` write is a `Cell` update; the boxed instance itself is not modelled.
- Call.InstanceCall: `CStr::from_ptr(name).to_str().unwrap()` panics on a name that is not UTF-8. That is a precondition (`InstanceCallArgsOk`), not an error path. The `CStr` scan for a NUL terminator is left out: a name is the bytes before it.
- Call.InstanceCall, Call.ExportFuncCall: `params_len` and `results_len` are `c_int` cast to `usize`. A negative length is undefined behaviour in the source and is not modelled. The caller arrays are Dafny sequences and arrays of their real length.
- Signatures.CopyTags: a signature longer than the caller buffer is an index panic in the source. It is a precondition of the model.
- Descriptors.DescriptorsGet: an index outside the listing is an index panic in the source. It is a precondition of the model.
- Descriptors.DescriptorsLen: its contract states the count only below 2^31. Above that, the value is the `c_int` wrap-around `AsCInt` states.
- Utf8.FirstCharLength: its contract states the RFC 3629 table only for single bytes. The multi-byte rows are its definition.
- Values.ToValue: the source matches on the tag and reads the union field it names, so a host that set another field gets that field's bits reinterpreted; the `_ => panic!` arm at line 1050 is unreachable. The model requires the tag to name the field that was set (`Values.Agrees`, a caller contract) and does not model the reinterpretation of bits between union fields.
- F32 and F64 payloads are bit patterns (`bv32`, `bv64`) copied verbatim; no floating-point arithmetic occurs.
- MemoryViews.AtomicallyView: the atomic view reinterprets each cell as the same-width atomic type. The model keeps the element type and the cells and states only the aliasing. Atomic memory ordering and concurrent access through it are not modelled.
- MemoryViews.New: the pointer is an index into one shared memory array. `MemoryView::new` is `unsafe` and trusts its caller that the window lies in memory; that trust is the precondition.

## Findings

| source | as written | input that shows it | evidently intended | confidence | as-written member | corrected member |
|---|---|---|---|---|---|---|
| lib/types/src/memory_view.rs:71 | `assert!(end < self.length as u32)`, while `end` is exclusive (the sub-view has `end - start` cells) | a view of length 1 and `subarray(0, 1)`: the assertion fails, so the view's last cell can never be part of a sub-view | `end <= length`, so that `subarray(0, length)` is the whole view | not executed; the off-by-one follows from the length computation on line 74 | MemoryViews.SubarrayMissesLastCell, MemoryViews.SubarrayCounterexample | MemoryViews.SubarrayUpTo, MemoryViews.SubarrayUpToCells |
