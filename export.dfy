/** The host functions a guest module imports (core/src/export.rs). Each one receives the calling
    plugin, whose `data` field is the call-scoped `Internal` record, and the guest's integer
    arguments. Offsets arrive as `i64` and are reinterpreted as `usize` (`as usize`). The key
    offsets of `error_set`, `config_get`, `var_get` and `var_set`, and the offset given to `length`,
    are looked up in the block table; `var_set`'s value offset and the offsets of `alloc`, `free`
    and the typed loads and stores go to the heap unchecked. */
module Export {
  import opened Machine
  import opened Wrappers
  import GuestHeap
  import opened Plugins

  type Heap = GuestHeap.Heap

  /** Why a host function stops the guest. */
  datatype Trap =
    | Trap(message: string)                    // `Trap::new(message)`
    | HeapFailure(error: GuestHeap.HeapError)  // a heap error passed on by `?`
    | Panic(message: string)                   // a panic inside the host function

  /** The variable store accepts no additions once its values exceed 100 MiB. */
  const VAR_STORE_CEILING: nat := 1024 * 1024 * 100

  // ---------------------------------------------------------------------------
  // Input and output location
  // ---------------------------------------------------------------------------

  /** `input_offset`: the guest reads back exactly the input block's offset. */
  function InputOffset(data: Internal): (r: i64)
    reads data
    ensures I64AsU64(r) == data.inputOffset
  {
    U64AsI64(data.inputOffset)
  }

  /** `output_set`: records the two values as the output location; never fails. */
  method OutputSet(p: Plugin, offset: i64, length: i64)
    modifies p.data
    ensures p.data.outputOffset == I64AsU64(offset)
    ensures p.data.outputLength == I64AsU64(length)
    ensures p.data.inputOffset == old(p.data.inputOffset)
    ensures p.data.inputLength == old(p.data.inputLength)
    ensures p.data.vars == old(p.data.vars)
  {
    p.data.outputOffset := I64AsU64(offset);
    p.data.outputLength := I64AsU64(length);
  }

  // ---------------------------------------------------------------------------
  // Allocation
  // ---------------------------------------------------------------------------

  /** `alloc`: a fresh block of `size` bytes, or the heap's error as a trap. */
  method Alloc(p: Plugin, size: i64) returns (r: Result<i64, Trap>)
    modifies p
    ensures match GuestHeap.Alloc(old(p.memory), I64AsU64(size))
      case Ok((h, o)) => p.memory == h && r == Ok(U64AsI64(o))
      case Err(e) => p.memory == old(p.memory) && r == Err(HeapFailure(e))
    ensures p.config == old(p.config) && p.lastError == old(p.lastError)
    ensures p.shouldReinstantiate == old(p.shouldReinstantiate)
  {
    var res := GuestHeap.Alloc(p.memory, I64AsU64(size));
    match res
    case Ok((h, o)) =>
      p.memory := h;
      r := Ok(U64AsI64(o));
    case Err(e) =>
      r := Err(HeapFailure(e));
  }

  /** `free`: releases the block at `offset`; an offset that is not live is ignored. */
  method Free(p: Plugin, offset: i64)
    modifies p
    ensures p.memory == GuestHeap.Free(old(p.memory), I64AsU64(offset))
    ensures p.config == old(p.config) && p.lastError == old(p.lastError)
    ensures p.shouldReinstantiate == old(p.shouldReinstantiate)
  {
    p.memory := GuestHeap.Free(p.memory, I64AsU64(offset));
  }

  // ---------------------------------------------------------------------------
  // Typed loads and stores. A heap failure becomes "Read error" / "Write error".
  // ---------------------------------------------------------------------------

  /** `store_u8`: stores the low byte of `value`. */
  method StoreU8(p: Plugin, offset: i64, value: i32) returns (r: Result<(), Trap>)
    modifies p
    ensures match GuestHeap.StoreU8(old(p.memory), I64AsU64(offset), I32AsU8(value))
      case Ok(h) => p.memory == h && r == Ok(())
      case Err(_) => p.memory == old(p.memory) && r == Err(Trap("Write error"))
    ensures p.config == old(p.config) && p.lastError == old(p.lastError)
    ensures p.shouldReinstantiate == old(p.shouldReinstantiate)
  {
    var byte := I32AsU8(value);
    match GuestHeap.StoreU8(p.memory, I64AsU64(offset), byte)
    case Ok(h) =>
      p.memory := h;
      r := Ok(());
    case Err(_) =>
      r := Err(Trap("Write error"));
  }

  /** `store_u32`: stores the bits of `value` as an unsigned 32-bit number. */
  method StoreU32(p: Plugin, offset: i64, value: i32) returns (r: Result<(), Trap>)
    modifies p
    ensures match GuestHeap.StoreU32(old(p.memory), I64AsU64(offset), I32AsU32(value))
      case Ok(h) => p.memory == h && r == Ok(())
      case Err(_) => p.memory == old(p.memory) && r == Err(Trap("Write error"))
    ensures p.config == old(p.config) && p.lastError == old(p.lastError)
    ensures p.shouldReinstantiate == old(p.shouldReinstantiate)
  {
    var b := I32AsU32(value);
    match GuestHeap.StoreU32(p.memory, I64AsU64(offset), b)
    case Ok(h) =>
      p.memory := h;
      r := Ok(());
    case Err(_) =>
      r := Err(Trap("Write error"));
  }

  /** `store_u64`: stores the bits of `value` as an unsigned 64-bit number. */
  method StoreU64(p: Plugin, offset: i64, value: i64) returns (r: Result<(), Trap>)
    modifies p
    ensures match GuestHeap.StoreU64(old(p.memory), I64AsU64(offset), I64AsU64(value))
      case Ok(h) => p.memory == h && r == Ok(())
      case Err(_) => p.memory == old(p.memory) && r == Err(Trap("Write error"))
    ensures p.config == old(p.config) && p.lastError == old(p.lastError)
    ensures p.shouldReinstantiate == old(p.shouldReinstantiate)
  {
    var b := I64AsU64(value);
    match GuestHeap.StoreU64(p.memory, I64AsU64(offset), b)
    case Ok(h) =>
      p.memory := h;
      r := Ok(());
    case Err(_) =>
      r := Err(Trap("Write error"));
  }

  /** `load_u8`: the byte at `offset`, widened to `i32`. */
  function LoadU8(memory: Heap, offset: i64): (r: Result<i32, Trap>)
    ensures r.Ok? <==> I64AsU64(offset) < |memory.mem|
    ensures r.Ok? ==> r.value == memory.mem[I64AsU64(offset)]
    ensures r.Err? ==> r.error == Trap("Read error")
  {
    match GuestHeap.LoadU8(memory, I64AsU64(offset))
    case Ok(b) => Ok(b)
    case Err(_) => Err(Trap("Read error"))
  }

  /** `load_u32`: the `i32` whose bits are the four little-endian bytes at `offset`. */
  function LoadU32(memory: Heap, offset: i64): (r: Result<i32, Trap>)
    ensures r.Ok? <==> GuestHeap.InBounds(memory, I64AsU64(offset), 4)
    ensures r.Ok? ==> LeEncode(I32AsU32(r.value), 4) == memory.mem[I64AsU64(offset)..I64AsU64(offset) + 4]
    ensures r.Err? ==> r.error == Trap("Read error")
  {
    match GuestHeap.LoadU32(memory, I64AsU64(offset))
    case Ok(b) => Ok(U32AsI32(b))
    case Err(_) => Err(Trap("Read error"))
  }

  /** `load_u64`: the `i64` whose bits are the eight little-endian bytes at `offset`. */
  function LoadU64(memory: Heap, offset: i64): (r: Result<i64, Trap>)
    ensures r.Ok? <==> GuestHeap.InBounds(memory, I64AsU64(offset), 8)
    ensures r.Ok? ==> LeEncode(I64AsU64(r.value), 8) == memory.mem[I64AsU64(offset)..I64AsU64(offset) + 8]
    ensures r.Err? ==> r.error == Trap("Read error")
  {
    match GuestHeap.LoadU64(memory, I64AsU64(offset))
    case Ok(b) => Ok(U64AsI64(b))
    case Err(_) => Err(Trap("Read error"))
  }

  /** What `store_u8` leaves in memory, `load_u8` at the same offset reads back: the low byte. */
  lemma StoreThenLoadU8(memory: Heap, offset: i64, value: i32)
    requires GuestHeap.StoreU8(memory, I64AsU64(offset), I32AsU8(value)).Ok?
    ensures LoadU8(GuestHeap.StoreU8(memory, I64AsU64(offset), I32AsU8(value)).value, offset)
      == Ok(I32AsU8(value))
  {
    GuestHeap.StoreLoadU8(memory, I64AsU64(offset), I32AsU8(value));
  }

  /** What `store_u32` leaves in memory, `load_u32` at the same offset reads back unchanged. */
  lemma StoreThenLoadU32(memory: Heap, offset: i64, value: i32)
    requires GuestHeap.StoreU32(memory, I64AsU64(offset), I32AsU32(value)).Ok?
    ensures LoadU32(GuestHeap.StoreU32(memory, I64AsU64(offset), I32AsU32(value)).value, offset)
      == Ok(value)
  {
    GuestHeap.StoreLoadU32(memory, I64AsU64(offset), I32AsU32(value));
  }

  /** What `store_u64` leaves in memory, `load_u64` at the same offset reads back unchanged. */
  lemma StoreThenLoadU64(memory: Heap, offset: i64, value: i64)
    requires GuestHeap.StoreU64(memory, I64AsU64(offset), I64AsU64(value)).Ok?
    ensures LoadU64(GuestHeap.StoreU64(memory, I64AsU64(offset), I64AsU64(value)).value, offset)
      == Ok(value)
  {
    GuestHeap.StoreLoadU64(memory, I64AsU64(offset), I64AsU64(value));
  }

  /** `length`: the live block's length, or a trap for an offset that is not live. */
  function Length(memory: Heap, offset: i64): (r: Result<i64, Trap>)
    ensures r.Ok? <==> I64AsU64(offset) in memory.blocks
    ensures r.Ok? ==> I64AsU64(r.value) == memory.blocks[I64AsU64(offset)]
    ensures r.Err? ==> r.error == Trap("Unable to find length for offset")
  {
    match GuestHeap.BlockLength(memory, I64AsU64(offset))
    case Some(length) => Ok(U64AsI64(length))
    case None => Err(Trap("Unable to find length for offset"))
  }

  // ---------------------------------------------------------------------------
  // error_set
  // ---------------------------------------------------------------------------

  /** The plugin's error slot after `error_set(offset)` as written: the block table is consulted
      first, so the offset-0 "clear" case is reached only when 0 is itself a live block. */
  function ErrorSetSlot(memory: Heap, offset: u64): (r: Result<Option<ErrorText>, Trap>)
    ensures r.Err? <==> offset !in memory.blocks
    ensures r.Err? ==> r.error == Trap("Invalid offset in call to error_set")
    ensures r.Ok? && offset == 0 ==> r.value == None
    ensures r.Ok? && offset != 0 ==>
      r.value == Some(Guest(GuestHeap.Get(memory, offset, memory.blocks[offset])))
  {
    match GuestHeap.BlockLength(memory, offset)
    case None => Err(Trap("Invalid offset in call to error_set"))
    case Some(length) =>
      if offset == 0 then Ok(None)
      else Ok(Some(Guest(GuestHeap.Get(memory, offset, length))))
  }

  /** `error_set`: sets the plugin's error to the text in the block at `offset`, or clears it
      when `offset` is 0 (and live); an offset that is not live traps and changes nothing. */
  method ErrorSet(p: Plugin, offset: i64) returns (r: Result<(), Trap>)
    modifies p
    ensures match ErrorSetSlot(old(p.memory), I64AsU64(offset))
      case Ok(slot) => r == Ok(()) && p.lastError == slot
      case Err(t) => r == Err(t) && p.lastError == old(p.lastError)
    ensures p.memory == old(p.memory) && p.config == old(p.config)
    ensures p.shouldReinstantiate == old(p.shouldReinstantiate)
  {
    var off := I64AsU64(offset);
    var length;
    match GuestHeap.BlockLength(p.memory, off) {
      case None =>
        return Err(Trap("Invalid offset in call to error_set"));
      case Some(x) =>
        length := x;
    }
    if off == 0 {
      p.lastError := None;
      return Ok(());
    }
    var buf := GuestHeap.Get(p.memory, off, length);
    p.lastError := Some(Guest(buf));
    r := Ok(());
  }

  /** `error_set` as its offset-0 branch evidently intends: 0 clears the error whatever the
      block table says; any other offset is checked as before. */
  function ErrorSetSlotIntended(memory: Heap, offset: u64): (r: Result<Option<ErrorText>, Trap>)
    ensures offset == 0 ==> r == Ok(None)
    ensures offset != 0 ==> r == ErrorSetSlot(memory, offset)
  {
    if offset == 0 then Ok(None) else ErrorSetSlot(memory, offset)
  }

  /** As written, `error_set(0)` cannot clear the error on a heap where 0 is not a live block,
      although the bridge treats offset 0 as "no block" elsewhere (`var_get` answers 0 for an
      absent key, `var_set` removes on a value offset of 0): it traps, where the intended version
      clears. */
  lemma ErrorSetZeroTraps(memory: Heap)
    requires 0 !in memory.blocks
    ensures ErrorSetSlot(memory, 0) == Err(Trap("Invalid offset in call to error_set"))
    ensures ErrorSetSlotIntended(memory, 0) == Ok(None)
  {
  }

  // ---------------------------------------------------------------------------
  // config_get
  // ---------------------------------------------------------------------------

  /** The config value `config_get(offset)` hands to the guest: traps on an offset that is not
      live, and on a key the configuration does not hold. */
  function ConfigLookup(memory: Heap, config: map<Bytes, Bytes>, offset: u64): (r: Result<Bytes, Trap>)
    ensures offset !in memory.blocks ==> r == Err(Trap("Invalid offset in call to config_get"))
    ensures offset in memory.blocks ==>
      var key := GuestHeap.Get(memory, offset, memory.blocks[offset]);
      r == if key in config then Ok(config[key]) else Err(Trap("Invalid config key"))
  {
    match GuestHeap.BlockLength(memory, offset)
    case None => Err(Trap("Invalid offset in call to config_get"))
    case Some(length) =>
      var key := GuestHeap.Get(memory, offset, length);
      if key in config then Ok(config[key]) else Err(Trap("Invalid config key"))
  }

  /** `config_get`: a fresh block holding the value for the key in the block at `offset`. */
  method ConfigGet(p: Plugin, offset: i64) returns (r: Result<i64, Trap>)
    modifies p
    ensures match ConfigLookup(old(p.memory), p.config, I64AsU64(offset))
      case Err(t) => r == Err(t) && p.memory == old(p.memory)
      case Ok(value) =>
        match GuestHeap.AllocBytes(old(p.memory), value)
        case Ok((h, o)) => r == Ok(U64AsI64(o)) && p.memory == h
        case Err(e) => r == Err(HeapFailure(e)) && p.memory == old(p.memory)
    ensures p.config == old(p.config) && p.lastError == old(p.lastError)
    ensures p.shouldReinstantiate == old(p.shouldReinstantiate)
  {
    var off := I64AsU64(offset);
    var length;
    match GuestHeap.BlockLength(p.memory, off) {
      case None =>
        return Err(Trap("Invalid offset in call to config_get"));
      case Some(x) =>
        length := x;
    }
    var key := GuestHeap.Get(p.memory, off, length);
    if key !in p.config {
      return Err(Trap("Invalid config key"));
    }
    match GuestHeap.AllocBytes(p.memory, p.config[key])
    case Err(e) =>
      r := Err(HeapFailure(e));
    case Ok((h, o)) =>
      p.memory := h;
      r := Ok(U64AsI64(o));
  }

  // ---------------------------------------------------------------------------
  // The variable store: var_get and var_set
  // ---------------------------------------------------------------------------

  /** The summed length of every value in the store. */
  ghost function TotalSize(vars: map<Bytes, Bytes>): nat
    decreases |vars|
  {
    if vars == map[] then 0
    else
      var k :| k in vars;
      assert |vars - {k}| < |vars| by {
        assert vars.Keys - {k} < vars.Keys;
      }
      |vars[k]| + TotalSize(vars - {k})
  }

  /** The total does not depend on the order the values are visited in: any key can go first. */
  lemma {:induction false} TotalSizeRemove(vars: map<Bytes, Bytes>, k: Bytes)
    requires k in vars
    ensures TotalSize(vars) == |vars[k]| + TotalSize(vars - {k})
    decreases |vars|
  {
    var j :| j in vars && TotalSize(vars) == |vars[j]| + TotalSize(vars - {j});
    if j != k {
      assert |vars - {j}| < |vars| by { assert vars.Keys - {j} < vars.Keys; }
      assert |vars - {k}| < |vars| by { assert vars.Keys - {k} < vars.Keys; }
      TotalSizeRemove(vars - {j}, k);
      TotalSizeRemove(vars - {k}, j);
      assert vars - {j} - {k} == vars - {k} - {j};
    }
  }

  /** The `for` loop at the head of `var_set` that sums the stored values' lengths. */
  method StoreSize(vars: map<Bytes, Bytes>) returns (size: nat)
    ensures size == TotalSize(vars)
  {
    size := 0;
    var rest := vars;
    while rest != map[]
      invariant size + TotalSize(rest) == TotalSize(vars)
      decreases |rest|
    {
      var k :| k in rest;
      TotalSizeRemove(rest, k);
      assert rest.Keys - {k} < rest.Keys;
      size := size + |rest[k]|;
      rest := rest - {k};
    }
  }

  /** The bytes `var_get(offset)` copies out: None when the key is absent (the guest gets 0),
      a trap when `offset` is not live. */
  function VarLookup(memory: Heap, vars: map<Bytes, Bytes>, offset: u64): (r: Result<Option<Bytes>, Trap>)
    ensures offset !in memory.blocks ==> r == Err(Trap("Invalid offset in call to var_get"))
    ensures offset in memory.blocks ==>
      var key := GuestHeap.Get(memory, offset, memory.blocks[offset]);
      r == Ok(if key in vars then Some(vars[key]) else None)
  {
    match GuestHeap.BlockLength(memory, offset)
    case None => Err(Trap("Invalid offset in call to var_get"))
    case Some(length) =>
      var key := GuestHeap.Get(memory, offset, length);
      if key in vars then Ok(Some(vars[key])) else Ok(None)
  }

  /** `var_get`: a fresh block holding the stored value, or 0 (and no allocation) when the key
      is absent. */
  method VarGet(p: Plugin, offset: i64) returns (r: Result<i64, Trap>)
    modifies p
    ensures match VarLookup(old(p.memory), p.data.vars, I64AsU64(offset))
      case Err(t) => r == Err(t) && p.memory == old(p.memory)
      case Ok(None) => r == Ok(0) && p.memory == old(p.memory)
      case Ok(Some(value)) =>
        match GuestHeap.AllocBytes(old(p.memory), value)
        case Ok((h, o)) => r == Ok(U64AsI64(o)) && p.memory == h
        case Err(e) => r == Err(HeapFailure(e)) && p.memory == old(p.memory)
    ensures p.config == old(p.config) && p.lastError == old(p.lastError)
    ensures p.shouldReinstantiate == old(p.shouldReinstantiate)
  {
    var off := I64AsU64(offset);
    var length;
    match GuestHeap.BlockLength(p.memory, off) {
      case None =>
        return Err(Trap("Invalid offset in call to var_get"));
      case Some(x) =>
        length := x;
    }
    var key := GuestHeap.Get(p.memory, off, length);
    if key !in p.data.vars {
      return Ok(0);
    }
    match GuestHeap.AllocBytes(p.memory, p.data.vars[key])
    case Err(e) =>
      r := Err(HeapFailure(e));
    case Ok((h, o)) =>
      p.memory := h;
      r := Ok(U64AsI64(o));
  }

  /** The store after `var_set(keyOffset, valueOffset)` as written. The ceiling is checked
      before anything else; offset 0 removes the key; otherwise the value is read at
      `valueOffset` with the length of the KEY's block, since the second length lookup in the
      source repeats the key offset. A value range outside the memory makes the slice panic. */
  ghost function VarSetStore(memory: Heap, vars: map<Bytes, Bytes>, keyOffset: u64, valueOffset: u64)
    : (r: Result<map<Bytes, Bytes>, Trap>)
    ensures TotalSize(vars) > VAR_STORE_CEILING && valueOffset != 0 ==>
      r == Err(Trap("Variable store is full"))
    ensures !(TotalSize(vars) > VAR_STORE_CEILING && valueOffset != 0) && keyOffset !in memory.blocks ==>
      r == Err(Trap("Invalid offset in call to var_set"))
    ensures (&& !(TotalSize(vars) > VAR_STORE_CEILING && valueOffset != 0)
             && keyOffset in memory.blocks
             && (valueOffset == 0 || GuestHeap.InBounds(memory, valueOffset, memory.blocks[keyOffset])))
      ==> r.Ok?
    ensures r.Ok? ==>
      && keyOffset in memory.blocks
      && var key := GuestHeap.Get(memory, keyOffset, memory.blocks[keyOffset]);
      && (forall k :: k != key ==> (k in r.value <==> k in vars))
      && (forall k :: k != key && k in vars ==> r.value[k] == vars[k])
      && (valueOffset == 0 ==> key !in r.value)
      && (valueOffset != 0 ==>
            && GuestHeap.InBounds(memory, valueOffset, memory.blocks[keyOffset])
            && key in r.value
            && r.value[key] == GuestHeap.Get(memory, valueOffset, memory.blocks[keyOffset]))
  {
    if TotalSize(vars) > VAR_STORE_CEILING && valueOffset != 0 then
      Err(Trap("Variable store is full"))
    else if keyOffset !in memory.blocks then
      Err(Trap("Invalid offset in call to var_set"))
    else
      var length := memory.blocks[keyOffset];
      var key := GuestHeap.Get(memory, keyOffset, length);
      if valueOffset == 0 then Ok(vars - {key})
      else if !GuestHeap.InBounds(memory, valueOffset, length) then
        Err(Panic("range end index out of range for slice"))
      else Ok(vars[key := GuestHeap.Get(memory, valueOffset, length)])
  }

  /** `var_set`: updates the variable store as VarSetStore describes; a trap leaves it as it was. */
  method VarSet(p: Plugin, keyOffset: i64, valueOffset: i64) returns (r: Result<(), Trap>)
    modifies p.data
    ensures match VarSetStore(p.memory, old(p.data.vars), I64AsU64(keyOffset), I64AsU64(valueOffset))
      case Ok(vars) => r == Ok(()) && p.data.vars == vars
      case Err(t) => r == Err(t) && p.data.vars == old(p.data.vars)
    ensures p.data.inputOffset == old(p.data.inputOffset) && p.data.inputLength == old(p.data.inputLength)
    ensures p.data.outputOffset == old(p.data.outputOffset) && p.data.outputLength == old(p.data.outputLength)
  {
    var size := StoreSize(p.data.vars);
    var offset1 := I64AsU64(valueOffset);
    // Once the store is over the ceiling, only removals go through.
    if size > VAR_STORE_CEILING && offset1 != 0 {
      return Err(Trap("Variable store is full"));
    }
    var offset := I64AsU64(keyOffset);
    var length;
    match GuestHeap.BlockLength(p.memory, offset) {
      case None =>
        return Err(Trap("Invalid offset in call to var_set"));
      case Some(x) =>
        length := x;
    }
    var key := GuestHeap.Get(p.memory, offset, length);
    // The value's length is looked up at the key's offset, as in the source.
    var length1 := GuestHeap.BlockLength(p.memory, offset).value;
    if offset1 == 0 {
      p.data.vars := p.data.vars - {key};
      return Ok(());
    }
    if !GuestHeap.InBounds(p.memory, offset1, length1) {
      return Err(Panic("range end index out of range for slice"));
    }
    var value := GuestHeap.Get(p.memory, offset1, length1);
    p.data.vars := p.data.vars[key := value];
    r := Ok(());
  }

  /** Past the ceiling the store never grows: every `var_set` that succeeds there is a removal. */
  lemma {:induction false} VarSetPastCeilingShrinks(memory: Heap, vars: map<Bytes, Bytes>, keyOffset: u64, valueOffset: u64)
    requires TotalSize(vars) > VAR_STORE_CEILING
    requires VarSetStore(memory, vars, keyOffset, valueOffset).Ok?
    ensures valueOffset == 0
    ensures TotalSize(VarSetStore(memory, vars, keyOffset, valueOffset).value) <= TotalSize(vars)
  {
    var key := GuestHeap.Get(memory, keyOffset, memory.blocks[keyOffset]);
    var vars' := VarSetStore(memory, vars, keyOffset, valueOffset).value;
    assert vars' == vars - {key};
    if key in vars {
      TotalSizeRemove(vars, key);
    } else {
      assert vars' == vars;
    }
  }

  /** `var_get` after a `var_set` that removed a key finds nothing for that key. */
  lemma VarSetRemoveThenGet(memory: Heap, vars: map<Bytes, Bytes>, keyOffset: u64)
    requires keyOffset in memory.blocks
    ensures VarSetStore(memory, vars, keyOffset, 0).Ok?
    ensures VarLookup(memory, VarSetStore(memory, vars, keyOffset, 0).value, keyOffset) == Ok(None)
  {
  }

  /** `var_get` after a `var_set` with a value offset finds, for that key, the bytes at the value
      offset taken with the key block's length. */
  lemma VarSetThenGet(memory: Heap, vars: map<Bytes, Bytes>, keyOffset: u64, valueOffset: u64)
    requires VarSetStore(memory, vars, keyOffset, valueOffset).Ok?
    requires valueOffset != 0
    ensures VarLookup(memory, VarSetStore(memory, vars, keyOffset, valueOffset).value, keyOffset)
      == Ok(Some(GuestHeap.Get(memory, valueOffset, memory.blocks[keyOffset])))
  {
  }

  /** `var_set` as evidently intended: the value is the whole block at `valueOffset`, which must
      itself be live. The ceiling and the removal case are unchanged. */
  ghost function VarSetStoreIntended(memory: Heap, vars: map<Bytes, Bytes>, keyOffset: u64, valueOffset: u64)
    : (r: Result<map<Bytes, Bytes>, Trap>)
    ensures valueOffset == 0 || TotalSize(vars) > VAR_STORE_CEILING ==>
      r == VarSetStore(memory, vars, keyOffset, valueOffset)
    ensures (&& TotalSize(vars) <= VAR_STORE_CEILING
             && keyOffset in memory.blocks
             && (valueOffset == 0 || valueOffset in memory.blocks))
      ==> r.Ok?
    ensures r.Ok? ==>
      && keyOffset in memory.blocks
      && var key := GuestHeap.Get(memory, keyOffset, memory.blocks[keyOffset]);
      && (forall k :: k != key ==> (k in r.value <==> k in vars))
      && (forall k :: k != key && k in vars ==> r.value[k] == vars[k])
    ensures r.Ok? && valueOffset != 0 ==>
      && keyOffset in memory.blocks && valueOffset in memory.blocks
      && VarLookup(memory, r.value, keyOffset)
         == Ok(Some(GuestHeap.Get(memory, valueOffset, memory.blocks[valueOffset])))
  {
    if TotalSize(vars) > VAR_STORE_CEILING && valueOffset != 0 then
      Err(Trap("Variable store is full"))
    else if keyOffset !in memory.blocks then
      Err(Trap("Invalid offset in call to var_set"))
    else
      var key := GuestHeap.Get(memory, keyOffset, memory.blocks[keyOffset]);
      if valueOffset == 0 then Ok(vars - {key})
      else if valueOffset !in memory.blocks then
        Err(Trap("Invalid offset in call to var_set"))
      else Ok(vars[key := GuestHeap.Get(memory, valueOffset, memory.blocks[valueOffset])])
  }

  /** A heap with a one-byte key block at 1 and a three-byte value block at 2. */
  function SampleHeap(): (h: Heap)
    ensures h.blocks == map[1 := 1, 2 := 3]
  {
    var m := GuestHeap.Memory([0, 107, 10, 20, 30], map[1 := 1, 2 := 3], 5);
    assert GuestHeap.WellFormed(m);
    m
  }

  /** On SampleHeap, the store as written keeps only the first byte of the three-byte value,
      while the intended version keeps all three. */
  lemma VarSetTruncatesValue()
    ensures VarSetStore(SampleHeap(), map[], 1, 2) == Ok(map[[107] := [10]])
    ensures VarSetStoreIntended(SampleHeap(), map[], 1, 2) == Ok(map[[107] := [10, 20, 30]])
  {
    var h := SampleHeap();
    assert TotalSize(map[]) == 0;
    assert GuestHeap.Get(h, 1, 1) == h.mem[1..2] == [107];
    assert GuestHeap.Get(h, 2, 1) == h.mem[2..3] == [10];
    assert GuestHeap.Get(h, 2, 3) == h.mem[2..5] == [10, 20, 30];
  }
}
