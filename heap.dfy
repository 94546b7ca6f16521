/** The guest heap manager as the host functions see it: the guest's flat linear memory and a
    block table that maps each live offset to its length. Only the observable interface is
    modelled (block_length, get, alloc, alloc_bytes, free, reset and the typed loads and stores);
    the allocation strategy below is a placeholder, and no contract outside this module depends on
    it beyond what Alloc and AllocBytes promise. */
module GuestHeap {
  import opened Machine
  import opened Wrappers

  datatype HeapError =
    | OutOfMemory   // the memory cannot grow to hold the requested block
    | AccessError   // a typed load or store reaches past the end of the memory

  datatype Memory = Memory(mem: Bytes, blocks: map<u64, u64>, limit: nat)

  /** The block table's invariant: every live block starts inside the memory and ends within it,
      no two live blocks overlap, and the memory never outgrows its limit. */
  predicate WellFormed(m: Memory) {
    && |m.mem| <= m.limit < TWO_64
    && (forall o :: o in m.blocks ==> o < |m.mem| && o + m.blocks[o] <= |m.mem|)
    && (forall a, b :: a in m.blocks && b in m.blocks && a < b ==> a + m.blocks[a] <= b)
  }

  type Heap = m: Memory | WellFormed(m) witness Memory([], map[], 0)

  /** `block_length`: the length of the live block at `offset`, or None for any other offset. */
  function BlockLength(h: Heap, offset: u64): (r: Option<u64>)
    ensures r.Some? <==> offset in h.blocks
    ensures r.Some? ==> r.value == h.blocks[offset] && offset + r.value <= |h.mem|
  {
    if offset in h.blocks then Some(h.blocks[offset]) else None
  }

  /** True when `[offset, offset + length)` lies inside the memory. */
  predicate InBounds(h: Heap, offset: nat, length: nat) {
    offset + length <= |h.mem|
  }

  /** `get`: the bytes of the memory in `[offset, offset + length)`. */
  function Get(h: Heap, offset: u64, length: u64): (b: Bytes)
    requires InBounds(h, offset, length)
    ensures |b| == length
    ensures forall i :: 0 <= i < length ==> b[i] == h.mem[offset + i]
  {
    h.mem[offset..offset + length]
  }

  /** Every block live in `h` is live in `h'` with the same length and the same bytes. */
  predicate KeepsBlocks(h: Heap, h': Heap) {
    forall o :: o in h.blocks ==>
      && o in h'.blocks
      && h'.blocks[o] == h.blocks[o]
      && Get(h', o, h.blocks[o]) == Get(h, o, h.blocks[o])
  }

  /** Overwrites `[offset, offset + |bytes|)` with `bytes`; the block table is untouched. */
  function Write(h: Heap, offset: u64, bytes: Bytes): (r: Heap)
    requires InBounds(h, offset, |bytes|)
    ensures r.blocks == h.blocks && r.limit == h.limit && |r.mem| == |h.mem|
    ensures r.mem[offset..offset + |bytes|] == bytes
    ensures forall i :: 0 <= i < |h.mem| && !(offset <= i < offset + |bytes|) ==> r.mem[i] == h.mem[i]
  {
    h.(mem := h.mem[..offset] + bytes + h.mem[offset + |bytes|..])
  }

  /** `alloc`: a block of `n` bytes at an offset that was not live before; the other blocks keep
      their place and their bytes. The placeholder strategy appends at the end of the memory. */
  function Alloc(h: Heap, n: u64): (r: Result<(Heap, u64), HeapError>)
    ensures r.Ok? ==>
      var (h', o) := r.value;
      && o !in h.blocks
      && h'.blocks == h.blocks[o := n]
      && h'.limit == h.limit
      && KeepsBlocks(h, h')
  {
    var o := |h.mem|;
    var grow := if n == 0 then 1 else n;
    if o + grow > h.limit then Err(OutOfMemory)
    else
      var h' := Memory(h.mem + seq(grow, _ => 0), h.blocks[o := n], h.limit);
      assert WellFormed(h');
      assert forall p :: p in h.blocks ==> Get(h', p, h.blocks[p]) == Get(h, p, h.blocks[p]);
      Ok((h', o))
  }

  /** `alloc_bytes`: a fresh block holding exactly `bytes`; the other blocks are untouched. */
  function AllocBytes(h: Heap, bytes: Bytes): (r: Result<(Heap, u64), HeapError>)
    ensures r.Ok? ==>
      var (h', o) := r.value;
      && |bytes| < TWO_64
      && o !in h.blocks
      && h'.blocks == h.blocks[o := |bytes|]
      && BlockLength(h', o) == Some(|bytes|)
      && Get(h', o, |bytes|) == bytes
      && KeepsBlocks(h, h')
  {
    if |bytes| >= TWO_64 then Err(OutOfMemory)
    else
      match Alloc(h, |bytes|)
      case Err(e) => Err(e)
      case Ok((h1, o)) =>
        var h' := Write(h1, o, bytes);
        assert forall p :: p in h.blocks ==> Get(h', p, h.blocks[p]) == Get(h1, p, h.blocks[p]) by {
          forall p | p in h.blocks
            ensures Get(h', p, h.blocks[p]) == Get(h1, p, h.blocks[p])
          {
            assert p + h.blocks[p] <= o;
          }
        }
        Ok((h', o))
  }

  /** `free`: the block at `offset` is no longer live; freeing an offset that is not live,
      0 included, changes nothing. */
  function Free(h: Heap, offset: u64): (r: Heap)
    ensures r.mem == h.mem && r.limit == h.limit
    ensures r.blocks == h.blocks - {offset}
    ensures BlockLength(r, offset).None?
    ensures offset !in h.blocks ==> r == h
  {
    h.(blocks := h.blocks - {offset})
  }

  /** Releases every block at once, as a new call does before it copies in its input. */
  function Reset(h: Heap): (r: Heap)
    ensures r.mem == h.mem && r.limit == h.limit && r.blocks == map[]
  {
    h.(blocks := map[])
  }

  // ---------------------------------------------------------------------------
  // Typed access. Bounds are checked against the size of the memory, not the
  // block table; multi-byte values are little-endian.
  // ---------------------------------------------------------------------------

  /** `load_u8`. */
  function LoadU8(h: Heap, offset: u64): (r: Result<u8, HeapError>)
    ensures r.Ok? <==> offset < |h.mem|
    ensures r.Ok? ==> r.value == h.mem[offset]
    ensures r.Err? ==> r.error == AccessError
  {
    if offset < |h.mem| then Ok(h.mem[offset]) else Err(AccessError)
  }

  /** `load_u32`: the value whose little-endian encoding is the four bytes at `offset`. */
  function LoadU32(h: Heap, offset: u64): (r: Result<u32, HeapError>)
    ensures r.Ok? <==> InBounds(h, offset, 4)
    ensures r.Ok? ==> LeEncode(r.value, 4) == h.mem[offset..offset + 4]
    ensures r.Err? ==> r.error == AccessError
  {
    if InBounds(h, offset, 4) then
      Pow256Widths();
      LeEncodeDecode(h.mem[offset..offset + 4]);
      Ok(LeDecode(h.mem[offset..offset + 4]))
    else Err(AccessError)
  }

  /** `load_u64`: the value whose little-endian encoding is the eight bytes at `offset`. */
  function LoadU64(h: Heap, offset: u64): (r: Result<u64, HeapError>)
    ensures r.Ok? <==> InBounds(h, offset, 8)
    ensures r.Ok? ==> LeEncode(r.value, 8) == h.mem[offset..offset + 8]
    ensures r.Err? ==> r.error == AccessError
  {
    if InBounds(h, offset, 8) then
      Pow256Widths();
      LeEncodeDecode(h.mem[offset..offset + 8]);
      Ok(LeDecode(h.mem[offset..offset + 8]))
    else Err(AccessError)
  }

  /** The heap after writing `bytes` at `offset`, or AccessError when they do not fit. */
  function Store(h: Heap, offset: u64, bytes: Bytes): (r: Result<Heap, HeapError>)
    ensures r.Ok? <==> InBounds(h, offset, |bytes|)
    ensures r.Ok? ==> r.value.blocks == h.blocks && |r.value.mem| == |h.mem| && r.value.limit == h.limit
    ensures r.Ok? ==> r.value.mem[offset..offset + |bytes|] == bytes
    ensures r.Ok? ==> forall i :: 0 <= i < |h.mem| && !(offset <= i < offset + |bytes|) ==>
      r.value.mem[i] == h.mem[i]
    ensures r.Err? ==> r.error == AccessError
  {
    if InBounds(h, offset, |bytes|) then Ok(Write(h, offset, bytes)) else Err(AccessError)
  }

  /** `store_u8`. */
  function StoreU8(h: Heap, offset: u64, v: u8): (r: Result<Heap, HeapError>)
    ensures r.Ok? <==> InBounds(h, offset, 1)
    ensures r.Ok? ==> r.value.blocks == h.blocks && |r.value.mem| == |h.mem| && r.value.limit == h.limit
    ensures r.Ok? ==> r.value.mem[offset] == v
    ensures r.Ok? ==> forall i :: 0 <= i < |h.mem| && !(offset <= i < offset + 1) ==>
      r.value.mem[i] == h.mem[i]
    ensures r.Err? ==> r.error == AccessError
  {
    Store(h, offset, [v])
  }

  /** `store_u32`: the four little-endian bytes of `v`. */
  function StoreU32(h: Heap, offset: u64, v: u32): (r: Result<Heap, HeapError>)
    ensures r.Ok? <==> InBounds(h, offset, 4)
    ensures r.Ok? ==> r.value.blocks == h.blocks && |r.value.mem| == |h.mem| && r.value.limit == h.limit
    ensures r.Ok? ==> r.value.mem[offset..offset + 4] == LeEncode(v, 4)
    ensures r.Ok? ==> forall i :: 0 <= i < |h.mem| && !(offset <= i < offset + 4) ==>
      r.value.mem[i] == h.mem[i]
    ensures r.Err? ==> r.error == AccessError
  {
    Store(h, offset, LeEncode(v, 4))
  }

  /** `store_u64`: the eight little-endian bytes of `v`. */
  function StoreU64(h: Heap, offset: u64, v: u64): (r: Result<Heap, HeapError>)
    ensures r.Ok? <==> InBounds(h, offset, 8)
    ensures r.Ok? ==> r.value.blocks == h.blocks && |r.value.mem| == |h.mem| && r.value.limit == h.limit
    ensures r.Ok? ==> r.value.mem[offset..offset + 8] == LeEncode(v, 8)
    ensures r.Ok? ==> forall i :: 0 <= i < |h.mem| && !(offset <= i < offset + 8) ==>
      r.value.mem[i] == h.mem[i]
    ensures r.Err? ==> r.error == AccessError
  {
    Store(h, offset, LeEncode(v, 8))
  }

  /** A store succeeds exactly where the load of the same width does, and the load then
      returns the stored value. */
  lemma StoreLoadU8(h: Heap, offset: u64, v: u8)
    ensures StoreU8(h, offset, v).Ok? <==> LoadU8(h, offset).Ok?
    ensures StoreU8(h, offset, v).Ok? ==> LoadU8(StoreU8(h, offset, v).value, offset) == Ok(v)
  {
  }

  lemma StoreLoadU32(h: Heap, offset: u64, v: u32)
    ensures StoreU32(h, offset, v).Ok? <==> LoadU32(h, offset).Ok?
    ensures StoreU32(h, offset, v).Ok? ==> LoadU32(StoreU32(h, offset, v).value, offset) == Ok(v)
  {
    var r := StoreU32(h, offset, v);
    if r.Ok? {
      Pow256Widths();
      LeDecodeEncode(v, 4);
      LeEncodeDecode(r.value.mem[offset..offset + 4]);
    }
  }

  lemma StoreLoadU64(h: Heap, offset: u64, v: u64)
    ensures StoreU64(h, offset, v).Ok? <==> LoadU64(h, offset).Ok?
    ensures StoreU64(h, offset, v).Ok? ==> LoadU64(StoreU64(h, offset, v).value, offset) == Ok(v)
  {
    var r := StoreU64(h, offset, v);
    if r.Ok? {
      Pow256Widths();
      LeDecodeEncode(v, 8);
      LeEncodeDecode(r.value.mem[offset..offset + 8]);
    }
  }
}
