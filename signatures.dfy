/** Signature extraction from function exports (`wasmer_export_func_params`,
    `_returns`, their `_arity` forms and the `wasmer_import_func_*`
    counterparts) and `wasmer_export_to_memory`. Each either succeeds on the
    right export kind or writes the last-error slot and returns ERROR. */
module Signatures {
  import opened Wrappers
  import opened Abi
  import opened Values
  import opened Errors
  import opened Exports

  /** What an `_arity` accessor does: on a function export, writes the number
      of types in that half of the signature (cut to 32 bits). */
  function ArityOutcome(e: Export, part: SigPart, msg: string): (o: Outcome<uint32>)
    ensures o.status == WasmerOk <==> e.Function?
    ensures o.status == WasmerOk ==> o.error.None? && o.written.Some?
    ensures o.status == WasmerOk && |TypesOf(e.signature, part)| < 0x1_0000_0000 ==>
              o.written.value as int == |TypesOf(e.signature, part)|
    ensures o.status == WasmerError ==> o.written.None? && o.error == Some(CApiError(msg))
  {
    if e.Function? then Outcome(WasmerOk, Some(AsUint32(|TypesOf(e.signature, part)|)), None)
    else Outcome(WasmerError, None, Some(CApiError(msg)))
  }

  /** What a `_params` / `_returns` accessor does: on a function export,
      writes the tag of every type of that half of the signature, in order. */
  function TagsOutcome(e: Export, part: SigPart, msg: string): (o: Outcome<seq<ValueTag>>)
    ensures o.status == WasmerOk <==> e.Function?
    ensures o.status == WasmerOk ==> o.error.None? && o.written == SignatureTags(e, part)
    ensures o.status == WasmerError ==> o.written.None? && o.error == Some(CApiError(msg))
  {
    if e.Function? then Outcome(WasmerOk, SignatureTags(e, part), None)
    else Outcome(WasmerError, None, Some(CApiError(msg)))
  }

  /** A caller that sizes its buffer by the arity gets a buffer that the tag
      accessor fills exactly, and each tag converts back to the signature's type. */
  lemma ArityMatchesTags(e: Export, part: SigPart, msg: string, msg': string)
    requires e.Function? ==> |TypesOf(e.signature, part)| < 0x1_0000_0000
    ensures ArityOutcome(e, part, msg).status == TagsOutcome(e, part, msg').status
    ensures ArityOutcome(e, part, msg).written.Some? ==>
              ArityOutcome(e, part, msg).written.value as int == |TagsOutcome(e, part, msg').written.value|
  {
  }

  /** The shared body of the four `_arity` accessors. */
  method Arity(e: Export, part: SigPart, msg: string, channel: ErrorChannel, result: Cell<uint32>)
    returns (status: Status)
    modifies channel, result
    ensures status == ArityOutcome(e, part, msg).status
    ensures result.value == GetOr(ArityOutcome(e, part, msg).written, old(result.value))
    ensures channel.last == OrElse(ArityOutcome(e, part, msg).error, old(channel.last))
  {
    if e.Function? {
      result.value := AsUint32(|TypesOf(e.signature, part)|);
      status := WasmerOk;
    } else {
      channel.Update(CApiError(msg));
      status := WasmerError;
    }
  }

  /** The shared body of the four `_params` / `_returns` accessors: a loop that
      writes `buf[i]` for every type of the signature and nothing beyond.
      `buf` is the caller's slice of `params_len` entries; a signature longer
      than it is a Rust index panic. */
  method CopyTags(e: Export, part: SigPart, msg: string, channel: ErrorChannel, buf: array<ValueTag>)
    returns (status: Status)
    requires e.Function? ==> |TypesOf(e.signature, part)| <= buf.Length
    modifies channel, buf
    ensures status == TagsOutcome(e, part, msg).status
    ensures channel.last == OrElse(TagsOutcome(e, part, msg).error, old(channel.last))
    ensures TagsOutcome(e, part, msg).written.None? ==> buf[..] == old(buf[..])
    ensures TagsOutcome(e, part, msg).written.Some? ==>
              var tags := TagsOutcome(e, part, msg).written.value;
              buf[..|tags|] == tags && buf[|tags|..] == old(buf[|tags|..])
  {
    if e.Function? {
      var types := TypesOf(e.signature, part);
      for i := 0 to |types|
        modifies buf
        invariant forall j :: 0 <= j < i ==> buf[j] == TypeToTag(types[j])
        invariant forall j :: i <= j < buf.Length ==> buf[j] == old(buf[j])
      {
        buf[i] := TypeToTag(types[i]);
      }
      status := WasmerOk;
    } else {
      channel.Update(CApiError(msg));
      status := WasmerError;
    }
  }

  /** `wasmer_export_func_params_arity`. */
  method ExportFuncParamsArity(func: NamedExport, channel: ErrorChannel, result: Cell<uint32>)
    returns (status: Status)
    modifies channel, result
    ensures var o := ArityOutcome(func.exported, Params, "func ptr error in wasmer_export_func_params_arity");
      status == o.status && result.value == GetOr(o.written, old(result.value))
      && channel.last == OrElse(o.error, old(channel.last))
  {
    status := Arity(func.exported, Params, "func ptr error in wasmer_export_func_params_arity", channel, result);
  }

  /** `wasmer_export_func_returns_arity` (its message says "results"). */
  method ExportFuncReturnsArity(func: NamedExport, channel: ErrorChannel, result: Cell<uint32>)
    returns (status: Status)
    modifies channel, result
    ensures var o := ArityOutcome(func.exported, Returns, "func ptr error in wasmer_export_func_results_arity");
      status == o.status && result.value == GetOr(o.written, old(result.value))
      && channel.last == OrElse(o.error, old(channel.last))
  {
    status := Arity(func.exported, Returns, "func ptr error in wasmer_export_func_results_arity", channel, result);
  }

  /** `wasmer_import_func_params_arity`: the handle is the `Export` itself. */
  method ImportFuncParamsArity(func: Export, channel: ErrorChannel, result: Cell<uint32>)
    returns (status: Status)
    modifies channel, result
    ensures var o := ArityOutcome(func, Params, "func ptr error in wasmer_import_func_params_arity");
      status == o.status && result.value == GetOr(o.written, old(result.value))
      && channel.last == OrElse(o.error, old(channel.last))
  {
    status := Arity(func, Params, "func ptr error in wasmer_import_func_params_arity", channel, result);
  }

  /** `wasmer_import_func_returns_arity` (its message says "results"). */
  method ImportFuncReturnsArity(func: Export, channel: ErrorChannel, result: Cell<uint32>)
    returns (status: Status)
    modifies channel, result
    ensures var o := ArityOutcome(func, Returns, "func ptr error in wasmer_import_func_results_arity");
      status == o.status && result.value == GetOr(o.written, old(result.value))
      && channel.last == OrElse(o.error, old(channel.last))
  {
    status := Arity(func, Returns, "func ptr error in wasmer_import_func_results_arity", channel, result);
  }

  /** `wasmer_export_func_params`. */
  method ExportFuncParams(func: NamedExport, channel: ErrorChannel, params: array<ValueTag>)
    returns (status: Status)
    requires func.exported.Function? ==> |func.exported.signature.params| <= params.Length
    modifies channel, params
    ensures var o := TagsOutcome(func.exported, Params, "func ptr error in wasmer_export_func_params");
      status == o.status && channel.last == OrElse(o.error, old(channel.last))
      && (o.written.None? ==> params[..] == old(params[..]))
      && (o.written.Some? ==> params[..|o.written.value|] == o.written.value
                              && params[|o.written.value|..] == old(params[|o.written.value|..]))
  {
    status := CopyTags(func.exported, Params, "func ptr error in wasmer_export_func_params", channel, params);
  }

  /** `wasmer_export_func_returns`. */
  method ExportFuncReturns(func: NamedExport, channel: ErrorChannel, results: array<ValueTag>)
    returns (status: Status)
    requires func.exported.Function? ==> |func.exported.signature.results| <= results.Length
    modifies channel, results
    ensures var o := TagsOutcome(func.exported, Returns, "func ptr error in wasmer_export_func_returns");
      status == o.status && channel.last == OrElse(o.error, old(channel.last))
      && (o.written.None? ==> results[..] == old(results[..]))
      && (o.written.Some? ==> results[..|o.written.value|] == o.written.value
                              && results[|o.written.value|..] == old(results[|o.written.value|..]))
  {
    status := CopyTags(func.exported, Returns, "func ptr error in wasmer_export_func_returns", channel, results);
  }

  /** `wasmer_import_func_params`. */
  method ImportFuncParams(func: Export, channel: ErrorChannel, params: array<ValueTag>)
    returns (status: Status)
    requires func.Function? ==> |func.signature.params| <= params.Length
    modifies channel, params
    ensures var o := TagsOutcome(func, Params, "func ptr error in wasmer_import_func_params");
      status == o.status && channel.last == OrElse(o.error, old(channel.last))
      && (o.written.None? ==> params[..] == old(params[..]))
      && (o.written.Some? ==> params[..|o.written.value|] == o.written.value
                              && params[|o.written.value|..] == old(params[|o.written.value|..]))
  {
    status := CopyTags(func, Params, "func ptr error in wasmer_import_func_params", channel, params);
  }

  /** `wasmer_import_func_returns`. */
  method ImportFuncReturns(func: Export, channel: ErrorChannel, results: array<ValueTag>)
    returns (status: Status)
    requires func.Function? ==> |func.signature.results| <= results.Length
    modifies channel, results
    ensures var o := TagsOutcome(func, Returns, "func ptr error in wasmer_import_func_returns");
      status == o.status && channel.last == OrElse(o.error, old(channel.last))
      && (o.written.None? ==> results[..] == old(results[..]))
      && (o.written.Some? ==> results[..|o.written.value|] == o.written.value
                              && results[|o.written.value|..] == old(results[|o.written.value|..]))
  {
    status := CopyTags(func, Returns, "func ptr error in wasmer_import_func_returns", channel, results);
  }

  const NotAMemoryMessage: string :=
    "cannot cast the `wasmer_export_t` pointer to a  `wasmer_memory_t` pointer because it does not represent a memory export."

  /** What `wasmer_export_to_memory` does: hands out the memory of a memory
      export, and fails on every other kind. */
  function ToMemoryOutcome(named: NamedExport): (o: Outcome<MemoryRef>)
    ensures o.status == WasmerOk <==> KindOf(named.exported) == WasmMemory
    ensures o.status == WasmerOk ==> o.written == Some(named.exported.memory) && o.error.None?
    ensures o.status == WasmerError ==> o.written.None? && o.error == Some(CApiError(NotAMemoryMessage))
  {
    if named.exported.Memory? then Outcome(WasmerOk, Some(named.exported.memory), None)
    else Outcome(WasmerError, None, Some(CApiError(NotAMemoryMessage)))
  }

  /** `wasmer_export_to_memory`. */
  method ExportToMemory(named: NamedExport, channel: ErrorChannel, memory: Cell<MemoryRef>)
    returns (status: Status)
    modifies channel, memory
    ensures status == ToMemoryOutcome(named).status
    ensures memory.value == GetOr(ToMemoryOutcome(named).written, old(memory.value))
    ensures channel.last == OrElse(ToMemoryOutcome(named).error, old(channel.last))
  {
    if named.exported.Memory? {
      memory.value := named.exported.memory;
      status := WasmerOk;
    } else {
      channel.Update(CApiError(NotAMemoryMessage));
      status := WasmerError;
    }
  }
}
