# Extism host runtime: the host-function bridge and the plugin registry

This project models two layers of the Extism host runtime (Rust) in Dafny and proves properties of them.

- **The host-function bridge** (`core/src/export.rs`). These are the functions a sandboxed WebAssembly guest imports. Each one takes integer offsets into the guest's linear memory. `error_set`, `config_get`, `var_get`, `var_set` and `length` look the offset up in the heap manager's block table before reading anything. `alloc`, `free` and the typed loads and stores hand the offset straight to the heap manager. The functions read or update the call-scoped `Internal` record. That record holds the input and output location and the variable store. A function may also touch the plugin's last-error slot, its config map, or the heap.
- **The embedder-facing registry and call pipeline** (`runtime/src/sdk.rs`). A `Context` maps integer handles to plugins. It also keeps an optional active plugin and its own error slot. The modelled operations are update, free and reset, the config merge, `extism_plugin_function_exists`, error lookup, the output length, the handle-less `extism_active_plugin_*` calls, and `extism_plugin_call`. That last one runs a fixed sequence of early-return checks, calls the guest, and classifies the result into an `i32` status.

Layout, one module per file:

| file | module | contents |
|---|---|---|
| wrappers.dfy | `Wrappers` | `Option`, `Result` |
| machine.dfy | `Machine` | Rust integer widths, the `as` casts between them (two's complement), little-endian encoding |
| heap.dfy | `GuestHeap` | the heap manager's observable interface: flat memory plus a block table |
| plugin.dfy | `Plugins` | the error-slot contents, and the `Internal` and `Plugin` classes |
| export.dfy | `Export` | the host functions |
| sdk.dfy | `Sdk` | `Context` and the registry, config and call operations |

The heap manager's source is not part of this model. `GuestHeap.Heap` is a value type: a byte sequence, a map from live offsets to lengths, and a size limit. Its invariant says live blocks are in bounds and do not overlap. Nothing assumes that offset 0 is never live. `Alloc` places blocks with a stand-in strategy. No contract outside `GuestHeap` depends on where a block lands. They rely only on what `Alloc` and `AllocBytes` promise: the offset was not live, the new block holds the given bytes, and every other block keeps its place and contents.

The plugin stores the heap in a field, `Plugin.memory`, which the host functions reassign. `Internal` is a class reached as `plugin.data`. `Context` is a class whose methods reassign its map and its active-plugin field.

Several inputs come from code the model cannot see, so the operations take them as parameters:
- `extism_plugin_update` receives the result of building the plugin.
- `extism_plugin_config` receives the result of decoding the JSON patch.
- `extism_plugin_call` receives the timer start and stop results and a `GuestRun`. A `GuestRun` records how the engine call ended and the state the guest's host-function calls left behind.

`PluginRef::new` and `PluginRef::init` are not part of this model either. `Sdk.Resolve` and `Sdk.Init` stand in for them and behave as follows:
- An unknown handle sets the context error to "plugin does not exist".
- A known handle may have its error cleared. It is reinstantiated if its flag is set, which clears the flag. It then becomes the active plugin.
- `Init` releases every block, copies the input into a fresh block, and clears the output location.

## Model

| member | source | states |
|---|---|---|
| Export.InputOffset | core/src/export.rs:23-31 | the value handed to the guest reinterprets back (`as usize`) to exactly the recorded input offset; reads only |
| Export.OutputSet | core/src/export.rs:33-42 | the output offset and length become the two arguments cast to `usize`; input location and variable store unchanged; never fails |
| Export.Alloc | core/src/export.rs:44-54 | on success the heap gains a block of the requested size at an offset that was not live, with all other blocks kept, and the guest gets that offset; a heap error is passed on as a trap with the heap unchanged |
| Export.Free | core/src/export.rs:56-65 | the block at the offset is no longer live and nothing else changes; an offset that is not live is a no-op |
| Export.StoreU8 | core/src/export.rs:67-78 | stores the low byte of the value, or traps "Write error" with the heap unchanged |
| Export.StoreU32 | core/src/export.rs:93-104 | stores the value's 32 bits little-endian, or traps "Write error" with the heap unchanged |
| Export.StoreU64 | core/src/export.rs:119-130 | stores the value's 64 bits little-endian, or traps "Write error" with the heap unchanged |
| Export.LoadU8 | core/src/export.rs:80-91 | succeeds exactly when the offset is inside the memory and returns the byte there; otherwise traps "Read error" |
| Export.LoadU32 | core/src/export.rs:106-117 | succeeds exactly when four bytes fit and returns the `i32` whose little-endian bits they are; otherwise traps "Read error" |
| Export.LoadU64 | core/src/export.rs:132-143 | succeeds exactly when eight bytes fit and returns the `i64` whose little-endian bits they are; otherwise traps "Read error" |
| Export.StoreThenLoadU8 | core/src/export.rs:67-91 | after a successful `store_u8`, `load_u8` at the same offset returns the stored low byte |
| Export.StoreThenLoadU32 | core/src/export.rs:93-117 | after a successful `store_u32`, `load_u32` at the same offset returns the stored value |
| Export.StoreThenLoadU64 | core/src/export.rs:119-143 | after a successful `store_u64`, `load_u64` at the same offset returns the stored value |
| Export.Length | core/src/export.rs:319-332 | succeeds exactly for a live offset and returns its block's length; otherwise traps "Unable to find length for offset" |
| Export.ErrorSetSlot | core/src/export.rs:150-166 | as written: traps "Invalid offset in call to error_set" exactly when the offset is not live; a live offset 0 clears the error; any other live offset sets it to that block's bytes |
| Export.ErrorSet | core/src/export.rs:145-167 | the error slot becomes what ErrorSetSlot gives; on a trap it is unchanged; heap and config never change |
| Export.ErrorSetSlotIntended | core/src/export.rs:158-161 | corrected: offset 0 clears the error whatever the block table says; other offsets behave as written |
| Export.ErrorSetZeroTraps | core/src/export.rs:152-161 | where 0 is not a live block, `error_set(0)` as written traps, while the corrected version clears the error |
| Export.ConfigLookup | core/src/export.rs:174-187 | a non-live offset traps "Invalid offset in call to config_get"; a key the config lacks traps "Invalid config key"; otherwise the value for the key read from the block |
| Export.ConfigGet | core/src/export.rs:169-191 | on a found value the guest gets a fresh block holding exactly those bytes; each trap leaves the heap unchanged; config and error slot never change |
| Export.StoreSize | core/src/export.rs:227-230 | the loop's sum equals the total length of all stored values, whatever order the map is visited in |
| Export.TotalSizeRemove | core/src/export.rs:227-230 | the total length splits as any one value's length plus the total of the rest |
| Export.VarLookup | core/src/export.rs:199-214 | a non-live offset traps "Invalid offset in call to var_get"; otherwise the stored value for the key read from the block, or None when the key is absent |
| Export.VarGet | core/src/export.rs:193-218 | an absent key gives 0 and allocates nothing; a present key gives the offset of a fresh block holding exactly the stored value; a trap leaves the heap unchanged |
| Export.VarSetStore | core/src/export.rs:227-261 | as written: past the 100 MiB ceiling a non-zero value offset traps "Variable store is full" before any other check; a non-live key offset traps; value offset 0 removes only that key; otherwise only that key is set, to the bytes at the value offset taken with the key block's length; every other entry is unchanged; below the ceiling, or for value offset 0, a live key offset always succeeds unless the value range runs past the memory (the slice panic) |
| Export.VarSet | core/src/export.rs:220-262 | the store becomes what VarSetStore gives and is unchanged on a trap; the input and output location never change |
| Export.VarSetPastCeilingShrinks | core/src/export.rs:234-237 | once the store is past the ceiling, every `var_set` that succeeds is a removal and the total stored size does not grow |
| Export.VarSetRemoveThenGet | core/src/export.rs:253-256 | after removing a key through a live key block, `var_get` on that block finds nothing |
| Export.VarSetThenGet | core/src/export.rs:248-260 | after a `var_set` with a value offset, `var_get` on the key block returns the bytes read with the key block's length |
| Export.VarSetStoreIntended | core/src/export.rs:248-258 | corrected: the value is the whole live block at the value offset, and `var_get` then returns exactly that block; below the ceiling a live key with value offset 0 or a live value block always succeeds; every other key is unchanged; the ceiling and removal cases are as written |
| Export.VarSetTruncatesValue | core/src/export.rs:248-258 | with a one-byte key block and a three-byte value block, the store as written keeps one value byte and the corrected store keeps all three |
| GuestHeap.BlockLength | core/src/export.rs:152-155 | Some exactly for a live offset, and then the block's length, with the block inside the memory |
| GuestHeap.Get | core/src/export.rs:163 | the bytes of the memory in the requested range, with the requested length |
| GuestHeap.Alloc | core/src/export.rs:50 | on success a block of the requested length at an offset that was not live; every other block keeps its place, length and bytes |
| GuestHeap.Free | core/src/export.rs:63 | only the block at the offset stops being live; memory unchanged; an offset that is not live leaves the heap as it was |
| Machine.I64AsU64 | core/src/export.rs:39-40 | `as usize` on an `i64`: congruent modulo 2^64, and the identity on non-negative values |
| Machine.I32AsU8 | core/src/export.rs:73 | `as u8` on an `i32`: congruent modulo 256, and the identity on values that fit in a byte |
| GuestHeap.Reset | runtime/src/sdk.rs:419 | no block is live afterwards; the memory bytes and the limit are kept |
| GuestHeap.LoadU8 | core/src/export.rs:86-88 | succeeds exactly when the offset is inside the memory, and gives the byte there; otherwise an access error |
| GuestHeap.LoadU32 | core/src/export.rs:112-114 | succeeds exactly when four bytes fit, and gives the value whose little-endian encoding they are; otherwise an access error |
| GuestHeap.LoadU64 | core/src/export.rs:138-140 | succeeds exactly when eight bytes fit, and gives the value whose little-endian encoding they are; otherwise an access error |
| GuestHeap.StoreU8 | core/src/export.rs:74-76 | succeeds exactly when the offset is inside the memory; the byte is written there, every other byte, the block table, the memory size and the limit are kept; otherwise an access error |
| GuestHeap.StoreU32 | core/src/export.rs:100-102 | succeeds exactly when four bytes fit; they become the value's little-endian encoding, and every other byte, the block table, the memory size and the limit are kept; otherwise an access error |
| GuestHeap.StoreU64 | core/src/export.rs:126-128 | succeeds exactly when eight bytes fit; they become the value's little-endian encoding, and every other byte, the block table, the memory size and the limit are kept; otherwise an access error |
| GuestHeap.StoreLoadU64 | core/src/export.rs:119-143 | a 64-bit store succeeds exactly where the load does, and the load then returns the stored value |
| Machine.I32AsU32 | core/src/export.rs:99 | `as u32` on an `i32`: congruent modulo 2^32, and the identity on non-negative values |
| Machine.U32AsI32 | core/src/export.rs:115 | `as i32` on a `u32`: congruent modulo 2^32, and the only `i32` that `as u32` maps back to the argument |
| GuestHeap.AllocBytes | core/src/export.rs:185 | the new block is at an offset that was not live, holds exactly the given bytes and has their length; every other block keeps its place and bytes |
| GuestHeap.StoreLoadU32 | core/src/export.rs:93-117 | a 32-bit store succeeds exactly where the load does, and the load then returns the stored value |
| Machine.U64AsI64 | core/src/export.rs:29 | `as i64` on a `u64` is congruent modulo 2^64 and is the only `i64` that `as u64` maps back to the argument |
| Machine.LeDecodeEncode | core/src/export.rs:106-143 | decoding the `n` little-endian bytes of a value below 256^n gives the value back |
| Sdk.Resolve | runtime/src/sdk.rs:417-420 | an unknown handle sets the context error and returns None; a known one becomes active, has its reinstantiation flag cleared and its error cleared on request; the registry is unchanged |
| Sdk.InitHeap | runtime/src/sdk.rs:415-419 | the heap after call setup holds no block, and then the recorded input offset and length are 0, or exactly one block: the input's bytes at the recorded input offset, with the recorded length equal to the input's length |
| Sdk.Init | runtime/src/sdk.rs:415-419 | heap and input location are as InitHeap gives; the output offset and length are 0; variables, config and error slot are unchanged |
| Sdk.PluginUpdate | runtime/src/sdk.rs:260-289 | succeeds exactly when the build succeeded and the handle exists; a build failure is reported first; an absent handle sets "Plugin index does not exist"; on success only that entry is replaced, under the same handle; the active plugin never changes |
| Sdk.PluginFree | runtime/src/sdk.rs:293-303 | nothing changes for a null context or a negative handle; otherwise the active plugin is cleared and only that handle is removed |
| Sdk.ContextReset | runtime/src/sdk.rs:307-317 | the registry is empty and no plugin is active; the context error is kept |
| Sdk.MergeConfig | runtime/src/sdk.rs:350-369 | a value entry inserts or overwrites its key; a null entry removes its key; keys the patch does not name keep their entries |
| Sdk.MergeConfigCompose | runtime/src/sdk.rs:350-369 | merging two patches one after the other equals merging their union, the later patch winning |
| Sdk.MergeConfigIdempotent | runtime/src/sdk.rs:350-369 | merging the same patch twice equals merging it once |
| Sdk.MergePatch | runtime/src/sdk.rs:350-369 | the entry-by-entry loop leaves the plugin's config equal to MergeConfig of the old config and the patch |
| Sdk.PluginConfig | runtime/src/sdk.rs:321-371 | an unknown handle returns false, sets the context error and keeps the active plugin; an undecodable patch records the parse error, leaves the config unchanged and returns false; otherwise the config becomes the merge, the error is cleared and the result is true; the plugin becomes active, and its heap and `Internal` record are unchanged |
| Sdk.ConfigMergeScenario | runtime/src/sdk.rs:350-369 | `{a: "1"}` merged with `{b: "2", a: null}` is `{b: "2"}`; a guest's `config_get` then traps for "a" and returns "2" for "b" |
| Sdk.Precheck | runtime/src/sdk.rs:424-447 | the checks before the timer pass exactly when the name is UTF-8, the export exists and it declares at most one result; otherwise the error is that of the first failing check |
| Sdk.Classify | runtime/src/sdk.rs:482-510 | a WASI exit returns its code and sets the error exactly when the code is non-zero; root cause "timeout" gives -1 and error "timeout"; any other failure gives -1 with the call-failed error; success gives 0 with no results and the first result otherwise; the error is left alone exactly for success and exit 0 |
| Sdk.ClassifyFailureIsVisible | runtime/src/sdk.rs:482-510 | whenever an error is recorded the status is -1 or the non-zero exit code; a status 0 with no error comes from exit 0, a call with no results, or a first result of 0 |
| Sdk.PluginCall | runtime/src/sdk.rs:406-510 | an unknown handle gives -1 and the context error; the heap is reset and the input copied in before any check, so a call rejected by the prechecks or the timer has still replaced the heap as InitHeap gives; the input offset and length stay as InitHeap recorded them, whether or not the guest ran; the guest runs exactly when the prechecks pass and the timer starts; before that every failure gives -1 with that check's error, and the flag stays clear; once the guest has run, the flag is set exactly for a WASI plugin's `_start`, whatever the outcome; a timer-stop failure gives -1 with its error; otherwise the status and error are as Classify gives, and the guest's own error is kept when Classify records none |
| Sdk.PluginFunctionExists | runtime/src/sdk.rs:376-398 | an unknown handle gives false, sets the context error and keeps the active plugin; a non-UTF-8 name gives false and records the error; otherwise whether the plugin exports the name, with its error cleared; the plugin becomes active and its heap, config and `Internal` record are unchanged |
| Sdk.GetContextError | runtime/src/sdk.rs:513-521 | the context's own error slot, None when no error is recorded |
| Sdk.Error | runtime/src/sdk.rs:526-548 | a handle not in the registry gives the context error; a live one gives the plugin's last error without clearing it, becomes active, and keeps its heap, config and `Internal` record |
| Sdk.PluginOutputLength | runtime/src/sdk.rs:552-567 | an unknown handle gives 0, sets the context error and keeps the active plugin; a live one gives its recorded output length, and resolving it clears the plugin's error; heap, config and `Internal` record are unchanged |
| Sdk.ActivePlugin | runtime/src/sdk.rs:116-119 | there is an active plugin exactly when the active handle is set and still in the registry, and it is the plugin under that handle |
| Sdk.ActivePluginAlloc | runtime/src/sdk.rs:109-127 | 0 for a null context or no active plugin; otherwise the heap's allocation result, or 0 with the heap error recorded in the plugin's error slot; config and reinstantiation flag unchanged |
| Sdk.ActivePluginLength | runtime/src/sdk.rs:130-146 | 0 for a null context, no active plugin or an offset that is not live; otherwise the live block's length |
| Sdk.ActivePluginFree | runtime/src/sdk.rs:149-162 | with an active plugin, its heap is the heap with that block released, and its error slot, config and reinstantiation flag are unchanged; otherwise nothing changes |
| Sdk.FreeThenCall | runtime/src/sdk.rs:293-421 | a call on a freed handle returns -1 with "plugin does not exist" in the context error, and only that handle is gone from the registry |

## Left out

- `http_request` (core/src/export.rs:272-317): network I/O. In a build without the feature it panics.
- The wasmtime engine, the epoch timer and `dump_memory`. `extism_plugin_call` takes their results as inputs. The guest's activity during the call is summarised by a `GuestRun` rather than replayed host function by host function.
- The heap manager's allocation strategy. Its source is not part of this model. `GuestHeap.Alloc` uses a stand-in strategy, and only the block-table properties listed above are relied on.
- Raw pointers, `CStr` conversion, `Box::into_raw`/`from_raw`, and the undefined behaviour of a null context where the source does not check for one. A function name's UTF-8 check is the input `FunctionName`.
- `extism_context_new`/`extism_context_free` are modelled only by the `Context` constructor. Freeing memory is not modelled.
- `extism_plugin_new`, `extism_plugin_new_with_functions`, `ExtismVal` conversions, `extism_function` and `extism_function_free`: compiling modules, untyped unions and foreign callbacks. `Plugin::new` is the `built` input of `PluginUpdate`.
- `PluginRef::new` and `PluginRef::init` are not part of this model. `Sdk.Resolve` and `Sdk.Init` state the behaviour assumed for them, including that reinstantiation only clears the flag. Rebuilding the module instance is not modelled.
- `extism_active_plugin_memory` and `extism_plugin_output_data` return raw pointers into guest memory.
- `extism_log_file` and `extism_version`: logger configuration and a constant string.
- WASI `push_env` in `extism_plugin_config` (an external library) and JSON decoding. The decoded patch, or the parse failure, is the input `patch`.
- Error text rendering: Rust `Debug` formatting, `CString` conversion and the exact wording of formatted messages. `ErrorText` records which error occurred and the data it carries.
- Sdk.PluginCall: the first result is an `i32` by construction. The panic of `unwrap_i32` on an export whose one result has another type is not modelled.
- Machine: `usize` is taken to be 64 bits wide, as on the 64-bit hosts the runtime targets. Every `as usize` is Machine.I64AsU64, and the heap's offsets and lengths are `u64`. A 32-bit host would truncate offsets differently.
- Sdk.PluginUpdate: a handle map that held one plugin object under two handles cannot arise in the source, because each plugin is an owned value. The model is a map of object references, so `PluginUpdate` requires that the freshly built plugin is not already registered. Aliasing between handles is not modelled otherwise.
- Export.StoreSize: the `usize` sum in `var_set` is unbounded here. A wrap-around would need more than 2^64 stored bytes.
- Export.VarSet: the key and value are byte strings. The unchecked UTF-8 reinterpretation (`from_utf8_unchecked`) is not modelled.
- Export.ErrorSet: the guest's bytes are recorded as the error without UTF-8 validation or NUL handling.
- Export.ErrorSet, Export.VarSet: the two source defects listed under Findings are modelled as written. The corrected variants are separate members that state the intended behaviour.
- GuestHeap.LoadU8, GuestHeap.LoadU32, GuestHeap.LoadU64, GuestHeap.Store: the heap manager's source is not part of this model. Typed loads and stores are assumed to be bounds-checked against the whole memory, not against a live block.
- Export.VarSetStore: reading a slice that runs past the end of memory is assumed to panic, as a Rust slice index does. The panic is the `Panic` trap.

## Findings

| source | as written | input that shows it | evidently intended | confidence | as-written member | corrected member |
|---|---|---|---|---|---|---|
| core/src/export.rs:248-258 | the value's length is looked up at the key offset, so the value is read with the key block's length | a one-byte key block at 1 and a three-byte value block at 2: the store gets one value byte | the whole block at the value offset is stored, and that offset is checked against the block table | high; not executed | Export.VarSetTruncatesValue | Export.VarSetStoreIntended |
| core/src/export.rs:152-161 | the block-table check runs before the offset-0 branch, so `error_set(0)` traps unless 0 is a live block | any heap where 0 is not live, which is the case whenever the allocator never hands out offset 0 | `error_set(0)` clears the error, as the `offset == 0` branch at core/src/export.rs:158-160 sets out; the bridge uses 0 as "no block" elsewhere too (core/src/export.rs:211, 253) | medium; not executed | Export.ErrorSetZeroTraps | Export.ErrorSetSlotIntended |
