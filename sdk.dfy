/** The embedder-facing runtime (runtime/src/sdk.rs): a `Context` that owns plugins under integer
    handles, the registry operations, the config merge, and the `extism_plugin_call` pipeline.
    Building a plugin from module bytes, the JSON decoder, the epoch timer and the engine run are
    inputs to the operations that use them. */
module Sdk {
  import opened Machine
  import opened Wrappers
  import GuestHeap
  import opened Plugins
  import Export

  type PluginIndex = i32

  /** The registry: plugins by handle, the plugin most recently resolved, and the context's
      own error slot. */
  class Context {
    var plugins: map<PluginIndex, Plugin>
    var activePlugin: Option<PluginIndex>
    var error: Option<ErrorText>

    constructor ()
      ensures plugins == map[] && activePlugin == None && error == None
    {
      plugins := map[];
      activePlugin := None;
      error := None;
    }
  }

  /** The objects an operation on handle `id` may change: that plugin and its `Internal`. */
  function Owned(ctx: Context, id: PluginIndex): set<object>
    reads ctx
  {
    if id in ctx.plugins then {ctx.plugins[id], ctx.plugins[id].data} else {}
  }

  // ---------------------------------------------------------------------------
  // Handle resolution (`PluginRef::new` and `PluginRef::init`, whose source is
  // not part of this model: see README)
  // ---------------------------------------------------------------------------

  /** Resolves `id`: an absent handle sets the context error; a present one optionally clears the
      plugin's error, is reinstantiated if a `_start` call asked for it, and becomes active. */
  method Resolve(ctx: Context, id: PluginIndex, clearError: bool) returns (r: Option<Plugin>)
    modifies ctx, Owned(ctx, id)
    ensures ctx.plugins == old(ctx.plugins)
    ensures id !in ctx.plugins ==>
      r == None && ctx.error == Some(PluginDoesNotExist(id)) && ctx.activePlugin == old(ctx.activePlugin)
    ensures id in ctx.plugins ==>
      && r == Some(ctx.plugins[id])
      && ctx.activePlugin == Some(id)
      && ctx.error == old(ctx.error)
      && r.value.lastError == (if clearError then None else old(r.value.lastError))
      && !r.value.shouldReinstantiate
      && r.value.memory == old(r.value.memory)
      && r.value.config == old(r.value.config)
      && unchanged(r.value.data)
  {
    if id !in ctx.plugins {
      ctx.error := Some(PluginDoesNotExist(id));
      return None;
    }
    var p := ctx.plugins[id];
    if clearError {
      p.lastError := None;
    }
    if p.shouldReinstantiate {
      p.shouldReinstantiate := false;
    }
    ctx.activePlugin := Some(id);
    r := Some(p);
  }

  /** The heap of a call being set up: every earlier block released, then the input copied into
      a fresh block. Gives the heap, the input offset and the input length (0 and 0 when the
      input does not fit). */
  function InitHeap(h: GuestHeap.Heap, input: Bytes): (r: (GuestHeap.Heap, u64, u64))
    ensures r.2 == 0 || r.2 == |input|
    ensures r.0.blocks == map[] ==> r.1 == 0 && r.2 == 0
    ensures r.0.blocks != map[] ==> r.2 == |input|
    ensures r.2 == |input| && r.0.blocks != map[] ==>
      && r.0.blocks == map[r.1 := r.2]
      && GuestHeap.Get(r.0, r.1, r.2) == input
    ensures r.0.blocks == map[] || r.0.blocks == map[r.1 := |input|]
  {
    match GuestHeap.AllocBytes(GuestHeap.Reset(h), input)
    case Ok((h', o)) => (h', o, |input|)
    case Err(_) => (GuestHeap.Reset(h), 0, 0)
  }

  /** Prepares a plugin for a call: fresh heap holding the input, output location cleared. */
  method Init(p: Plugin, input: Bytes)
    modifies p, p.data
    ensures (p.memory, p.data.inputOffset, p.data.inputLength) == InitHeap(old(p.memory), input)
    ensures p.data.outputOffset == 0 && p.data.outputLength == 0
    ensures p.data.vars == old(p.data.vars)
    ensures p.config == old(p.config) && p.lastError == old(p.lastError)
    ensures p.shouldReinstantiate == old(p.shouldReinstantiate)
  {
    var (h, offset, length) := InitHeap(p.memory, input);
    p.memory := h;
    p.data.inputOffset, p.data.inputLength := offset, length;
    p.data.outputOffset, p.data.outputLength := 0, 0;
  }

  // ---------------------------------------------------------------------------
  // Registry operations
  // ---------------------------------------------------------------------------

  /** `extism_plugin_update`: replaces the plugin under `index`, keeping the handle. Building the
      new plugin comes first; its result is the input `built`. */
  method PluginUpdate(ctx: Context, index: PluginIndex, built: Result<Plugin, string>) returns (ok: bool)
    modifies ctx
    // An owned plugin fresh from the build: it cannot already sit under another handle.
    requires built.Ok? ==> built.value !in ctx.plugins.Values
    ensures ok <==> built.Ok? && index in old(ctx.plugins)
    ensures built.Err? ==> ctx.error == Some(BuildFailed(built.error))
    ensures built.Ok? && index !in old(ctx.plugins) ==>
      ctx.error == Some(Message("Plugin index does not exist"))
    ensures ok ==> ctx.plugins == old(ctx.plugins)[index := built.value] && ctx.error == old(ctx.error)
    ensures !ok ==> ctx.plugins == old(ctx.plugins)
    ensures ctx.activePlugin == old(ctx.activePlugin)
  {
    if built.Err? {
      ctx.error := Some(BuildFailed(built.error));
      return false;
    }
    if index !in ctx.plugins {
      ctx.error := Some(Message("Plugin index does not exist"));
      return false;
    }
    ctx.plugins := ctx.plugins[index := built.value];
    ok := true;
  }

  /** `extism_plugin_free`: nothing for a null context or a negative handle; otherwise clears the
      active plugin and removes that one handle. */
  method PluginFree(ctx: Context?, plugin: PluginIndex)
    modifies ctx
    ensures ctx != null && plugin < 0 ==>
      ctx.plugins == old(ctx.plugins) && ctx.activePlugin == old(ctx.activePlugin)
    ensures ctx != null && plugin >= 0 ==>
      ctx.plugins == old(ctx.plugins) - {plugin} && ctx.activePlugin == None
    ensures ctx != null ==> ctx.error == old(ctx.error)
  {
    if plugin < 0 || ctx == null {
      return;
    }
    ctx.activePlugin := None;
    ctx.plugins := ctx.plugins - {plugin};
  }

  /** `extism_context_reset`: drops every plugin and the active marker. */
  method ContextReset(ctx: Context)
    modifies ctx
    ensures ctx.plugins == map[] && ctx.activePlugin == None
    ensures ctx.error == old(ctx.error)
  {
    ctx.activePlugin := None;
    ctx.plugins := map[];
  }

  // ---------------------------------------------------------------------------
  // Config merge
  // ---------------------------------------------------------------------------

  /** A config map after merging a `{key: value-or-null}` patch: a value inserts or overwrites,
      a null removes, and keys the patch does not name keep their entry. */
  function MergeConfig(config: map<Bytes, Bytes>, patch: map<Bytes, Option<Bytes>>): (r: map<Bytes, Bytes>)
    ensures forall k :: k in patch && patch[k].Some? ==> k in r && r[k] == patch[k].value
    ensures forall k :: k in patch && patch[k].None? ==> k !in r
    ensures forall k :: k !in patch ==> (k in r <==> k in config)
    ensures forall k :: k !in patch && k in config ==> r[k] == config[k]
  {
    map k | k in config.Keys + patch.Keys && (k in patch ==> patch[k].Some?)
      :: if k in patch then patch[k].value else config[k]
  }

  /** Merging two patches one after the other is merging their union, the later one winning. */
  lemma MergeConfigCompose(config: map<Bytes, Bytes>, first: map<Bytes, Option<Bytes>>, second: map<Bytes, Option<Bytes>>)
    ensures MergeConfig(MergeConfig(config, first), second) == MergeConfig(config, first + second)
  {
  }

  /** Merging one more patch entry updates the merged map at that key alone. */
  lemma MergeConfigExtend(config: map<Bytes, Bytes>, done: map<Bytes, Option<Bytes>>, k: Bytes, v: Option<Bytes>)
    ensures MergeConfig(config, done[k := v]) ==
      if v.Some? then MergeConfig(config, done)[k := v.value] else MergeConfig(config, done) - {k}
  {
  }

  /** The part of a patch already merged grows by one key per loop step. */
  lemma DoneExtend(json: map<Bytes, Option<Bytes>>, rest: map<Bytes, Option<Bytes>>, k: Bytes)
    requires k in rest && rest.Keys <= json.Keys
    requires forall j :: j in rest ==> rest[j] == json[j]
    ensures json - (rest - {k}).Keys == (json - rest.Keys)[k := rest[k]]
    ensures (rest - {k}).Keys < rest.Keys
  {
  }

  /** Applying the same patch twice is the same as applying it once. */
  lemma MergeConfigIdempotent(config: map<Bytes, Bytes>, patch: map<Bytes, Option<Bytes>>)
    ensures MergeConfig(MergeConfig(config, patch), patch) == MergeConfig(config, patch)
  {
  }

  /** The merge loop of `extism_plugin_config`: each patch entry inserts, overwrites or removes
      one key of the plugin's config. */
  method MergePatch(p: Plugin, json: map<Bytes, Option<Bytes>>)
    modifies p
    ensures p.config == MergeConfig(old(p.config), json)
    ensures p.memory == old(p.memory) && p.lastError == old(p.lastError)
    ensures p.shouldReinstantiate == old(p.shouldReinstantiate)
  {
    var config := p.config;
    var rest := json;
    while rest != map[]
      invariant rest.Keys <= json.Keys
      invariant forall k :: k in rest ==> rest[k] == json[k]
      invariant unchanged(p)
      invariant config == MergeConfig(p.config, json - rest.Keys)
      decreases rest.Keys
    {
      var k :| k in rest;
      ghost var done := json - rest.Keys;
      if rest[k].Some? {
        config := config[k := rest[k].value];
      } else {
        config := config - {k};
      }
      MergeConfigExtend(p.config, done, k, rest[k]);
      DoneExtend(json, rest, k);
      rest := rest - {k};
    }
    assert json - rest.Keys == json;
    p.config := config;
  }

  /** `extism_plugin_config`: resolves the handle (clearing its error), then merges the decoded
      patch entry by entry; a patch that does not decode sets the plugin error and returns false. */
  method PluginConfig(ctx: Context, plugin: PluginIndex, patch: Result<map<Bytes, Option<Bytes>>, string>)
    returns (ok: bool)
    modifies ctx, Owned(ctx, plugin)
    ensures ctx.plugins == old(ctx.plugins)
    ensures plugin !in ctx.plugins ==>
      !ok && ctx.error == Some(PluginDoesNotExist(plugin)) && ctx.activePlugin == old(ctx.activePlugin)
    ensures plugin in ctx.plugins ==>
      var p := ctx.plugins[plugin];
      && ctx.activePlugin == Some(plugin)
      && ok == patch.Ok?
      && (patch.Err? ==> p.lastError == Some(ConfigParse(patch.error)) && p.config == old(p.config))
      && (patch.Ok? ==> p.lastError == None && p.config == MergeConfig(old(p.config), patch.value))
      && p.memory == old(p.memory)
      && unchanged(p.data)
      && !p.shouldReinstantiate
      && ctx.error == old(ctx.error)
  {
    var resolved := Resolve(ctx, plugin, true);
    if resolved.None? {
      return false;
    }
    var p := resolved.value;
    if patch.Err? {
      p.lastError := Some(ConfigParse(patch.error));
      return false;
    }
    MergePatch(p, patch.value);
    ok := true;
  }

  /** The merge example: `{a: "1"}` merged with `{b: "2", a: null}` gives `{b: "2"}`; a guest's
      `config_get` then traps for "a" and hands out "2" for "b". */
  lemma ConfigMergeScenario(memory: GuestHeap.Heap, keyA: u64, keyB: u64)
    requires keyA in memory.blocks && GuestHeap.Get(memory, keyA, memory.blocks[keyA]) == [97]
    requires keyB in memory.blocks && GuestHeap.Get(memory, keyB, memory.blocks[keyB]) == [98]
    ensures MergeConfig(map[[97] := [49]], map[[98] := Some([50]), [97] := None]) == map[[98] := [50]]
    ensures Export.ConfigLookup(memory, map[[98] := [50]], keyA) == Err(Export.Trap("Invalid config key"))
    ensures Export.ConfigLookup(memory, map[[98] := [50]], keyB) == Ok([50])
  {
  }

  // ---------------------------------------------------------------------------
  // extism_plugin_call
  // ---------------------------------------------------------------------------

  /** The name argument after `CStr::to_str`: its bytes, or a name that is not UTF-8. */
  datatype FunctionName = Named(text: Bytes) | NotUtf8

  /** How the engine's call of the export ended. */
  datatype CallOutcome =
    | Returned(first: i32)    // success; `first` is the first result slot (read only if there is one)
    | WasiExit(code: i32)     // the guest called WASI `proc_exit`
    | Failed(rootCause: string)  // any other error; a deadline overrun has root cause "timeout"

  /** The engine run of one call: how it ended, and the state the guest's host-function calls
      (modelled one by one in Export) left behind. */
  datatype GuestRun = GuestRun(
    outcome: CallOutcome,
    memory: GuestHeap.Heap,
    outputOffset: u64,
    outputLength: u64,
    vars: map<Bytes, Bytes>,
    lastError: Option<ErrorText>)

  /** The status a call reports and the error it records (None: the slot is left as it is). */
  datatype CallStatus = CallStatus(code: i32, error: Option<ErrorText>)

  /** The reserved WASI entry point `_start`. */
  const START: Bytes := [0x5f, 0x73, 0x74, 0x61, 0x72, 0x74]

  /** The checks made before the timer is armed: the name must be UTF-8, the export must exist and
      must declare at most one result. Gives the error of the first check that fails. */
  function Precheck(functions: map<Bytes, nat>, name: FunctionName): (r: Option<ErrorText>)
    ensures r == None <==> name.Named? && name.text in functions && functions[name.text] <= 1
    ensures name.NotUtf8? ==> r == Some(InvalidName)
    ensures name.Named? && name.text !in functions ==> r == Some(FunctionNotFound(name.text))
    ensures name.Named? && name.text in functions && functions[name.text] > 1 ==>
      r == Some(TooManyResults(name.text, functions[name.text]))
  {
    match name
    case NotUtf8 => Some(InvalidName)
    case Named(text) =>
      if text !in functions then Some(FunctionNotFound(text))
      else if functions[text] > 1 then Some(TooManyResults(text, functions[text]))
      else None
  }

  /** The status of a call the engine completed, for an export with `nResults` results. */
  function Classify(outcome: CallOutcome, nResults: nat): (s: CallStatus)
    ensures s.error.None? <==> outcome.Returned? || outcome == WasiExit(0)
    ensures outcome.WasiExit? ==> s.code == outcome.code
    ensures outcome.WasiExit? && outcome.code != 0 ==> s.error == Some(Exit(outcome.code))
    ensures outcome.Failed? ==> s.code == -1
    ensures s.error == Some(Message("timeout")) <==> outcome == Failed("timeout")
    ensures outcome.Failed? && outcome.rootCause != "timeout" ==> s.error == Some(CallFailed(outcome.rootCause))
    ensures outcome.Returned? ==> s.code == if nResults == 0 then 0 else outcome.first
  {
    match outcome
    case WasiExit(code) =>
      if code != 0 then CallStatus(code, Some(Exit(code))) else CallStatus(0, None)
    case Failed(rootCause) =>
      if rootCause == "timeout" then CallStatus(-1, Some(Message("timeout")))
      else CallStatus(-1, Some(CallFailed(rootCause)))
    case Returned(first) =>
      if nResults == 0 then CallStatus(0, None) else CallStatus(first, None)
  }

  /** A call that reports 0 either completed or exited with code 0; a call whose error slot is
      set failed, and then its status is -1 or the non-zero exit code. */
  lemma ClassifyFailureIsVisible(outcome: CallOutcome, nResults: nat)
    ensures Classify(outcome, nResults).error.Some? ==>
      Classify(outcome, nResults).code == -1
      || (outcome.WasiExit? && Classify(outcome, nResults).code == outcome.code != 0)
    ensures Classify(outcome, nResults).code == 0 && Classify(outcome, nResults).error.None? ==>
      outcome == WasiExit(0) || (outcome.Returned? && (nResults == 0 || outcome.first == 0))
  {
  }

  /** `extism_plugin_call`. In order: resolve the handle and set up the call; check the name, the
      export and its result count; arm the timer; run the guest (`run`); flag a WASI `_start` for
      reinstantiation; disarm the timer; classify the outcome. `invoked` tells whether the guest
      ran. */
  method PluginCall(ctx: Context, pluginId: PluginIndex, name: FunctionName, input: Bytes,
                    timerStart: Result<(), string>, run: GuestRun, timerStop: Result<(), string>)
    returns (status: i32, ghost invoked: bool)
    modifies ctx, Owned(ctx, pluginId)
    ensures ctx.plugins == old(ctx.plugins)
    ensures pluginId !in ctx.plugins ==>
      && status == -1 && !invoked
      && ctx.error == Some(PluginDoesNotExist(pluginId))
      && ctx.activePlugin == old(ctx.activePlugin)
    ensures pluginId in ctx.plugins ==>
      var p := ctx.plugins[pluginId];
      var check := Precheck(p.functions, name);
      && ctx.activePlugin == Some(pluginId)
      && ctx.error == old(ctx.error)
      && p.config == old(p.config)
      && (invoked <==> check == None && timerStart.Ok?)
      && (!invoked ==>
            && status == -1
            && p.lastError == (if check.Some? then check else Some(TimerStart(timerStart.error)))
            && !p.shouldReinstantiate
            && (p.memory, p.data.inputOffset, p.data.inputLength) == InitHeap(old(p.memory), input)
            && p.data.outputOffset == 0 && p.data.outputLength == 0
            && p.data.vars == old(p.data.vars))
      && (invoked ==>
            && p.shouldReinstantiate == (p.hasWasi && name.text == START)
            && p.memory == run.memory
            && p.data.outputOffset == run.outputOffset && p.data.outputLength == run.outputLength
            && p.data.vars == run.vars
            && p.data.inputOffset == InitHeap(old(p.memory), input).1
            && p.data.inputLength == InitHeap(old(p.memory), input).2
            && (timerStop.Err? ==> status == -1 && p.lastError == Some(TimerStop(timerStop.error)))
            && (timerStop.Ok? ==>
                  var s := Classify(run.outcome, p.functions[name.text]);
                  status == s.code && p.lastError == (if s.error.Some? then s.error else run.lastError)))
  {
    invoked := false;
    var resolved := Resolve(ctx, pluginId, true);
    if resolved.None? {
      return -1, false;
    }
    var p := resolved.value;
    Init(p, input);

    if name.NotUtf8? {
      p.lastError := Some(InvalidName);
      return -1, false;
    }
    var fname := name.text;
    if fname !in p.functions {
      p.lastError := Some(FunctionNotFound(fname));
      return -1, false;
    }
    var nResults := p.functions[fname];
    if nResults > 1 {
      p.lastError := Some(TooManyResults(fname, nResults));
      return -1, false;
    }

    if timerStart.Err? {
      p.lastError := Some(TimerStart(timerStart.error));
      return -1, false;
    }

    // The guest runs; whatever its host-function calls did is in `run`.
    invoked := true;
    p.memory := run.memory;
    p.data.outputOffset, p.data.outputLength := run.outputOffset, run.outputLength;
    p.data.vars := run.vars;
    p.lastError := run.lastError;

    if p.hasWasi && fname == START {
      p.shouldReinstantiate := true;
    }

    if timerStop.Err? {
      p.lastError := Some(TimerStop(timerStop.error));
      return -1, true;
    }

    var s := Classify(run.outcome, nResults);
    if s.error.Some? {
      p.lastError := s.error;
    }
    status := s.code;
  }

  /** `extism_plugin_function_exists`: whether the resolved plugin exports `name`. */
  method PluginFunctionExists(ctx: Context, plugin: PluginIndex, name: FunctionName) returns (exists_: bool)
    modifies ctx, Owned(ctx, plugin)
    ensures ctx.plugins == old(ctx.plugins)
    ensures plugin !in ctx.plugins ==>
      !exists_ && ctx.error == Some(PluginDoesNotExist(plugin)) && ctx.activePlugin == old(ctx.activePlugin)
    ensures plugin in ctx.plugins ==>
      var p := ctx.plugins[plugin];
      && exists_ == (name.Named? && name.text in p.functions)
      && p.lastError == (if name.NotUtf8? then Some(InvalidName) else None)
      && p.memory == old(p.memory) && p.config == old(p.config)
      && unchanged(p.data)
      && !p.shouldReinstantiate
      && ctx.activePlugin == Some(plugin)
      && ctx.error == old(ctx.error)
  {
    var resolved := Resolve(ctx, plugin, true);
    if resolved.None? {
      return false;
    }
    var p := resolved.value;
    if name.NotUtf8? {
      p.lastError := Some(InvalidName);
      return false;
    }
    exists_ := name.text in p.functions;
  }

  // ---------------------------------------------------------------------------
  // Errors and output
  // ---------------------------------------------------------------------------

  /** `get_context_error`: the context's own error slot. */
  function GetContextError(ctx: Context): (r: Option<ErrorText>)
    reads ctx
    ensures r == ctx.error
  {
    ctx.error
  }

  /** `extism_error`: the plugin's error for a live handle, the context's error for any other
      handle (-1 included). */
  method Error(ctx: Context, plugin: PluginIndex) returns (e: Option<ErrorText>)
    modifies ctx, Owned(ctx, plugin)
    ensures ctx.plugins == old(ctx.plugins) && ctx.error == old(ctx.error)
    ensures plugin !in ctx.plugins ==> e == old(GetContextError(ctx)) && ctx.activePlugin == old(ctx.activePlugin)
    ensures plugin in ctx.plugins ==>
      var p := ctx.plugins[plugin];
      && e == old(p.lastError) && p.lastError == e
      && p.memory == old(p.memory) && p.config == old(p.config)
      && unchanged(p.data)
      && !p.shouldReinstantiate
      && ctx.activePlugin == Some(plugin)
  {
    if plugin !in ctx.plugins {
      return GetContextError(ctx);
    }
    var resolved := Resolve(ctx, plugin, false);
    e := resolved.value.lastError;
  }

  /** `extism_plugin_output_length`: the output length the guest last set; 0 for an unknown
      handle. Resolving the handle clears the plugin's error, as every resolution that asks for
      it does. */
  method PluginOutputLength(ctx: Context, plugin: PluginIndex) returns (n: u64)
    modifies ctx, Owned(ctx, plugin)
    ensures ctx.plugins == old(ctx.plugins)
    ensures plugin !in ctx.plugins ==>
      n == 0 && ctx.error == Some(PluginDoesNotExist(plugin)) && ctx.activePlugin == old(ctx.activePlugin)
    ensures plugin in ctx.plugins ==>
      var p := ctx.plugins[plugin];
      && n == p.data.outputLength
      && p.lastError == None
      && p.memory == old(p.memory) && p.config == old(p.config)
      && unchanged(p.data)
      && !p.shouldReinstantiate
      && ctx.activePlugin == Some(plugin)
      && ctx.error == old(ctx.error)
  {
    var resolved := Resolve(ctx, plugin, true);
    if resolved.None? {
      return 0;
    }
    n := resolved.value.data.outputLength;
  }

  // ---------------------------------------------------------------------------
  // The handle-less `extism_active_plugin_*` calls
  // ---------------------------------------------------------------------------

  /** `Context::active_plugin`: the plugin under the active handle, if that handle is live. */
  function ActivePlugin(ctx: Context): (r: Option<Plugin>)
    reads ctx
    ensures r.Some? <==> ctx.activePlugin.Some? && ctx.activePlugin.value in ctx.plugins
    ensures r.Some? ==> r.value == ctx.plugins[ctx.activePlugin.value]
  {
    match ctx.activePlugin
    case Some(id) => if id in ctx.plugins then Some(ctx.plugins[id]) else None
    case None => None
  }

  /** The objects the active-plugin calls may change. */
  function ActiveOwned(ctx: Context?): set<object>
    reads ctx
  {
    if ctx == null then {} else match ActivePlugin(ctx) case Some(p) => {p} case None => {}
  }

  /** `extism_active_plugin_alloc`: a block in the active plugin's heap; 0 for a null context, no
      active plugin, or a failed allocation (which sets the plugin's error). */
  method ActivePluginAlloc(ctx: Context?, n: u64) returns (r: u64)
    modifies ActiveOwned(ctx)
    ensures ctx == null || ActivePlugin(ctx).None? ==> r == 0
    ensures ctx != null && ActivePlugin(ctx).Some? ==>
      var p := ActivePlugin(ctx).value;
      && p.config == old(p.config)
      && p.shouldReinstantiate == old(p.shouldReinstantiate)
      && match GuestHeap.Alloc(old(p.memory), n)
         case Ok((h, o)) => r == o && p.memory == h && p.lastError == old(p.lastError)
         case Err(e) => r == 0 && p.memory == old(p.memory) && p.lastError == Some(AllocFailed(e))
  {
    if ctx == null {
      return 0;
    }
    var active := ActivePlugin(ctx);
    if active.None? {
      return 0;
    }
    var p := active.value;
    match GuestHeap.Alloc(p.memory, n)
    case Ok((h, o)) =>
      p.memory := h;
      r := o;
    case Err(e) =>
      p.lastError := Some(AllocFailed(e));
      r := 0;
  }

  /** `extism_active_plugin_length`: the length of a live block of the active plugin; 0 for a
      null context, no active plugin, or an offset that is not live. */
  function ActivePluginLength(ctx: Context?, n: u64): (r: u64)
    reads ctx, if ctx == null then {} else ctx.plugins.Values
    ensures ctx == null || ActivePlugin(ctx).None? ==> r == 0
    ensures ctx != null && ActivePlugin(ctx).Some? ==>
      var memory := ActivePlugin(ctx).value.memory;
      && (n in memory.blocks ==> r == memory.blocks[n])
      && (n !in memory.blocks ==> r == 0)
  {
    if ctx == null then 0
    else match ActivePlugin(ctx)
      case None => 0
      case Some(p) =>
        match GuestHeap.BlockLength(p.memory, n)
        case Some(x) => x
        case None => 0
  }

  /** `extism_active_plugin_free`: releases a block of the active plugin; nothing otherwise. */
  method ActivePluginFree(ctx: Context?, ptr: u64)
    modifies ActiveOwned(ctx)
    ensures ctx != null && ActivePlugin(ctx).Some? ==>
      var p := ActivePlugin(ctx).value;
      && p.memory == GuestHeap.Free(old(p.memory), ptr)
      && p.lastError == old(p.lastError) && p.config == old(p.config)
      && p.shouldReinstantiate == old(p.shouldReinstantiate)
  {
    if ctx == null {
      return;
    }
    var active := ActivePlugin(ctx);
    if active.None? {
      return;
    }
    var p := active.value;
    p.memory := GuestHeap.Free(p.memory, ptr);
  }

  // ---------------------------------------------------------------------------
  // Lifecycle scenarios built from the operations' contracts
  // ---------------------------------------------------------------------------

  /** Once a handle is freed, a call on it fails cleanly with the context error and leaves the
      other handles as they were. */
  method FreeThenCall(ctx: Context, id: PluginIndex, name: FunctionName, input: Bytes,
                      timerStart: Result<(), string>, run: GuestRun, timerStop: Result<(), string>)
    returns (status: i32)
    requires id >= 0
    modifies ctx
    ensures status == -1
    ensures ctx.plugins == old(ctx.plugins) - {id}
    ensures ctx.error == Some(PluginDoesNotExist(id))
  {
    PluginFree(ctx, id);
    ghost var invoked;
    status, invoked := PluginCall(ctx, id, name, input, timerStart, run, timerStop);
  }
}
