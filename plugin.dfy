/** The state one plugin owns: its heap, its merged configuration, its last-error slot, the
    reinstantiation flag, and the call-scoped `Internal` record its host functions share. */
module Plugins {
  import opened Machine
  import opened Wrappers
  import GuestHeap

  /** What an error slot (a plugin's or the context's) holds. The embedder reads it back as
      text; how each case is rendered into that text (Rust `Debug` formatting, the trailing NUL)
      is not modelled, only which error it is and the data it carries. */
  datatype ErrorText =
    | Guest(text: Bytes)                       // set by the guest through `error_set`
    | Message(message: string)                 // a fixed message, e.g. "timeout"
    | PluginDoesNotExist(id: i32)              // a handle that resolves to no plugin
    | BuildFailed(reason: string)              // the module could not be compiled or instantiated
    | ConfigParse(reason: string)              // a config patch that is not a JSON string map
    | InvalidName                              // a function name that is not UTF-8
    | FunctionNotFound(name: Bytes)            // "Function not found: {name}"
    | TooManyResults(name: Bytes, count: nat)  // "Function {name} has {n} results, expected 0 or 1"
    | TimerStart(reason: string)               // "Unable to start timeout manager ..."
    | TimerStop(reason: string)                // "Failed to stop timeout manager ..."
    | Exit(code: i32)                          // a WASI exit with a non-zero code
    | CallFailed(cause: string)                // any other engine error, with "Call failed" context
    | AllocFailed(error: GuestHeap.HeapError)            // an allocation on behalf of the embedder failed

  /** `Internal`: the call-scoped record every host function reaches through its caller. */
  class Internal {
    var inputOffset: u64
    var inputLength: u64
    var outputOffset: u64
    var outputLength: u64
    /** The plugin's variable store: key bytes to value bytes. */
    var vars: map<Bytes, Bytes>

    constructor ()
      ensures inputOffset == 0 && inputLength == 0
      ensures outputOffset == 0 && outputLength == 0
      ensures vars == map[]
    {
      inputOffset, inputLength := 0, 0;
      outputOffset, outputLength := 0, 0;
      vars := map[];
    }
  }

  /** One sandboxed module instance. `functions` gives each export's declared result count;
      `data` is the `Internal` record held in the plugin's store. */
  class Plugin {
    var memory: GuestHeap.Heap
    var config: map<Bytes, Bytes>
    var lastError: Option<ErrorText>
    var shouldReinstantiate: bool
    const hasWasi: bool
    const functions: map<Bytes, nat>
    const data: Internal

    constructor (memory: GuestHeap.Heap, config: map<Bytes, Bytes>, hasWasi: bool, functions: map<Bytes, nat>)
      ensures this.memory == memory && this.config == config
      ensures this.hasWasi == hasWasi && this.functions == functions
      ensures lastError == None && !shouldReinstantiate
      ensures fresh(data) && data.vars == map[]
      ensures data.outputOffset == 0 && data.outputLength == 0
    {
      this.memory := memory;
      this.config := config;
      this.hasWasi := hasWasi;
      this.functions := functions;
      lastError := None;
      shouldReinstantiate := false;
      data := new Internal();
    }
  }
}
