/** The two call paths of the C API, `wasmer_instance_call` (an exported
    function looked up by name on an instance) and `wasmer_export_func_call`
    (a function export handle, which carries its name and instance). Both
    check their pointers, convert the parameters, ask the engine to run the
    function and copy back at most the first result. */
module Call {
  import opened Wrappers
  import opened Abi
  import opened Errors
  import opened Values
  import opened Exports
  import opened Utf8

  /** The engine's `Instance::call`: runs the export of that name with
      these arguments, returning its results or an error. */
  type Engine = (Instance, Name, seq<Value>) -> Result<seq<Value>, EngineError>

  const NullInstanceError: LastError := CApiError("instance ptr is null")
  const NullNameError: LastError := CApiError("name ptr is null")
  const NullParamsError: LastError := CApiError("params ptr is null")
  const NullFuncError: LastError := CApiError("func ptr is null")

  /** The common tail of both call paths: on success, the first result (if
      there is one) is written to `results[0]`; an engine error becomes the
      last error. */
  function FinishCall(r: Result<seq<Value>, EngineError>): (o: Outcome<WasmerValue>)
    ensures o.status == WasmerOk <==> r.Success?
    ensures o.written.Some? <==> r.Success? && |r.value| > 0
    ensures o.written.Some? ==> Agrees(o.written.value) && ToValue(o.written.value) == r.value[0]
    ensures o.error.Some? <==> r.Failure?
    ensures r.Failure? ==> o.error == Some(RuntimeError(r.error))
  {
    match r
    case Success(vs) =>
      if |vs| > 0 then Outcome(WasmerOk, Some(FromValue(vs[0])), None)
      else Outcome(WasmerOk, None, None)
    case Failure(err) => Outcome(WasmerError, None, Some(RuntimeError(err)))
  }

  /** What the source demands of a `wasmer_instance_call` whose pointers are
      all set: each parameter's tag names the union field that holds it, and
      the name is valid UTF-8 (`to_str().unwrap()` panics otherwise). */
  predicate InstanceCallArgsOk(instance: Option<Instance>, name: Option<Name>, params: Option<seq<WasmerValue>>) {
    instance.Some? && name.Some? && params.Some? ==> AllAgree(params.value) && ValidUtf8(name.value)
  }

  /** What `wasmer_instance_call` does. Null pointers are rejected in the
      order instance, name, params; otherwise the engine runs the named
      export of the instance on the converted parameters. */
  function InstanceCallOutcome(
    instance: Option<Instance>,
    name: Option<Name>,
    params: Option<seq<WasmerValue>>,
    call: Engine
  ): (o: Outcome<WasmerValue>)
    requires InstanceCallArgsOk(instance, name, params)
    ensures o.status == WasmerOk <==>
      instance.Some? && name.Some? && params.Some?
      && call(instance.value, name.value, ToValues(params.value)).Success?
    ensures instance.None? ==> o == Outcome(WasmerError, None, Some(NullInstanceError))
    ensures instance.Some? && name.None? ==> o == Outcome(WasmerError, None, Some(NullNameError))
    ensures instance.Some? && name.Some? && params.None? ==> o == Outcome(WasmerError, None, Some(NullParamsError))
    ensures o.written.Some? ==>
      && instance.Some? && name.Some? && params.Some?
      && var r := call(instance.value, name.value, ToValues(params.value));
         r.Success? && |r.value| > 0 && o.written.value == FromValue(r.value[0])
  {
    if instance.None? then Outcome(WasmerError, None, Some(NullInstanceError))
    else if name.None? then Outcome(WasmerError, None, Some(NullNameError))
    else if params.None? then Outcome(WasmerError, None, Some(NullParamsError))
    else FinishCall(call(instance.value, name.value, ToValues(params.value)))
  }

  /** What `wasmer_export_func_call` does: null `func`, then null `params`
      are rejected; otherwise the engine runs the export's own name on the
      export's own instance. */
  function ExportFuncCallOutcome(
    func: Option<NamedExport>,
    params: Option<seq<WasmerValue>>,
    call: Engine
  ): (o: Outcome<WasmerValue>)
    requires func.Some? && params.Some? ==> AllAgree(params.value)
    ensures o.status == WasmerOk <==>
      func.Some? && params.Some?
      && call(func.value.instance, func.value.name, ToValues(params.value)).Success?
    ensures func.None? ==> o == Outcome(WasmerError, None, Some(NullFuncError))
    ensures func.Some? && params.None? ==> o == Outcome(WasmerError, None, Some(NullParamsError))
    ensures o.written.Some? ==>
      && func.Some? && params.Some?
      && var r := call(func.value.instance, func.value.name, ToValues(params.value));
         r.Success? && |r.value| > 0 && o.written.value == FromValue(r.value[0])
  {
    if func.None? then Outcome(WasmerError, None, Some(NullFuncError))
    else if params.None? then Outcome(WasmerError, None, Some(NullParamsError))
    else FinishCall(call(func.value.instance, func.value.name, ToValues(params.value)))
  }

  /** Calling through a function export handle is calling its instance by
      the export's name: same status, same result written, same error. */
  lemma ExportFuncCallIsInstanceCall(func: NamedExport, params: Option<seq<WasmerValue>>, call: Engine)
    requires params.Some? ==> AllAgree(params.value)
    requires ValidUtf8(func.name)
    ensures ExportFuncCallOutcome(Some(func), params, call)
         == InstanceCallOutcome(Some(func.instance), Some(func.name), params, call)
  {
  }

  /** The engine's result reaches the caller unchanged: on success the
      first result is written back with its own tag and payload, and an
      engine failure is reported as that same error. */
  lemma InstanceCallReportsEngine(instance: Instance, name: Name, params: seq<WasmerValue>, call: Engine)
    requires AllAgree(params) && ValidUtf8(name)
    ensures var r := call(instance, name, ToValues(params));
      var o := InstanceCallOutcome(Some(instance), Some(name), Some(params), call);
      && (r.Success? && |r.value| > 0 ==> o.written == Some(FromValue(r.value[0])))
      && (r.Success? && |r.value| == 0 ==> o == Outcome(WasmerOk, None, None))
      && (r.Failure? ==> o == Outcome(WasmerError, None, Some(RuntimeError(r.error))))
  {
  }

  /** `results[0] = ret` when a value is written, nothing otherwise. */
  method WriteFirst(results: array<WasmerValue>, written: Option<WasmerValue>)
    requires written.Some? ==> results.Length > 0
    modifies results
    ensures written.Some? ==> results[..] == old(results[..])[0 := written.value]
    ensures written.None? ==> results[..] == old(results[..])
  {
    if written.Some? {
      results[0] := written.value;
    }
  }

  /** `wasmer_instance_call`. `results` is the caller's array of
      `results_len` entries; writing a result into an empty one is a Rust
      index panic, so the source demands room when a value comes back. */
  method InstanceCall(
    channel: ErrorChannel,
    instance: Option<Instance>,
    name: Option<Name>,
    params: Option<seq<WasmerValue>>,
    results: array<WasmerValue>,
    call: Engine
  ) returns (status: Status)
    requires InstanceCallArgsOk(instance, name, params)
    requires InstanceCallOutcome(instance, name, params, call).written.Some? ==> results.Length > 0
    modifies channel, results
    ensures var o := InstanceCallOutcome(instance, name, params, call);
      && status == o.status
      && channel.last == OrElse(o.error, old(channel.last))
      && (o.written.Some? ==> results[..] == old(results[..])[0 := o.written.value])
      && (o.written.None? ==> results[..] == old(results[..]))
  {
    if instance.None? {
      channel.Update(NullInstanceError);
      return WasmerError;
    }
    if name.None? {
      channel.Update(NullNameError);
      return WasmerError;
    }
    if params.None? {
      channel.Update(NullParamsError);
      return WasmerError;
    }
    var args := ToValues(params.value);
    var o := FinishCall(call(instance.value, name.value, args));
    WriteFirst(results, o.written);
    if o.error.Some? {
      channel.Update(o.error.value);
    }
    status := o.status;
  }

  /** `wasmer_export_func_call`. */
  method ExportFuncCall(
    channel: ErrorChannel,
    func: Option<NamedExport>,
    params: Option<seq<WasmerValue>>,
    results: array<WasmerValue>,
    call: Engine
  ) returns (status: Status)
    requires func.Some? && params.Some? ==> AllAgree(params.value)
    requires ExportFuncCallOutcome(func, params, call).written.Some? ==> results.Length > 0
    modifies channel, results
    ensures var o := ExportFuncCallOutcome(func, params, call);
      && status == o.status
      && channel.last == OrElse(o.error, old(channel.last))
      && (o.written.Some? ==> results[..] == old(results[..])[0 := o.written.value])
      && (o.written.None? ==> results[..] == old(results[..]))
  {
    if func.None? {
      channel.Update(NullFuncError);
      return WasmerError;
    }
    if params.None? {
      channel.Update(NullParamsError);
      return WasmerError;
    }
    var f := func.value;
    var o := FinishCall(call(f.instance, f.name, ToValues(params.value)));
    WriteFirst(results, o.written);
    if o.error.Some? {
      channel.Update(o.error.value);
    }
    status := o.status;
  }
}
