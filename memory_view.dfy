/** Typed views into a WebAssembly linear memory (`MemoryView`): a window of
    `length` cells starting at `ptr` inside the memory, either non-atomic
    (the default, which can be narrowed and copied into) or atomic (each cell
    re-typed as the atomic integer of the same width). The memory is an
    array shared by every view into it. */
module MemoryViews {
  import opened Wrappers
  import opened Abi

  /** The two access modes a view is parameterised by. */
  datatype Atomicity = NonAtomically | Atomically

  /** The element types a view can hold, and the atomic types they map to. */
  datatype ElemType = I8 | I16 | I32 | I64 | U8 | U16 | U32 | U64 | F32 | F64
  datatype AtomicType =
    | AtomicI8 | AtomicI16 | AtomicI32 | AtomicI64
    | AtomicU8 | AtomicU16 | AtomicU32 | AtomicU64

  function ByteWidth(t: ElemType): nat {
    match t
    case I8 | U8 => 1
    case I16 | U16 => 2
    case I32 | U32 | F32 => 4
    case I64 | U64 | F64 => 8
  }

  function AtomicByteWidth(a: AtomicType): nat {
    match a
    case AtomicI8 | AtomicU8 => 1
    case AtomicI16 | AtomicU16 => 2
    case AtomicI32 | AtomicU32 => 4
    case AtomicI64 | AtomicU64 => 8
  }

  predicate IsSigned(t: ElemType) {
    t in {I8, I16, I32, I64}
  }

  predicate IsAtomicSigned(a: AtomicType) {
    a in {AtomicI8, AtomicI16, AtomicI32, AtomicI64}
  }

  /** The `Atomic` mapping: every element type has an atomic counterpart of
      the same width, so an atomic view re-types the same bytes; integers
      keep their signedness and floats use the unsigned integer of their
      width. */
  function AtomicOf(t: ElemType): (a: AtomicType)
    ensures AtomicByteWidth(a) == ByteWidth(t)
    ensures IsAtomicSigned(a) <==> IsSigned(t)
  {
    match t
    case I8 => AtomicI8
    case I16 => AtomicI16
    case I32 => AtomicI32
    case I64 => AtomicI64
    case U8 => AtomicU8
    case U16 => AtomicU16
    case U32 | F32 => AtomicU32
    case U64 | F64 => AtomicU64
  }

  /** `MemoryView`: the memory it points into, the index of its first cell
      and its number of cells. */
  datatype MemoryView<T> = MemoryView(memory: array<T>, ptr: nat, length: nat, mode: Atomicity)

  /** The window lies inside the memory, and its length fits the `u32` it
      was created from. */
  predicate Valid<T>(v: MemoryView<T>) {
    v.ptr + v.length <= v.memory.Length && v.length < 0x1_0000_0000
  }

  /** `MemoryView::new`: the caller vouches that `length` cells from `ptr`
      are memory. */
  function New<T>(memory: array<T>, ptr: nat, length: uint32): (v: MemoryView<T>)
    requires ptr + length as nat <= memory.Length
    ensures Valid(v) && v.mode == NonAtomically
    ensures v.memory == memory && v.ptr == ptr && v.length == length as nat
  {
    MemoryView(memory, ptr, length as nat, NonAtomically)
  }

  /** Both `Deref` impls: the slice of the view's cells (as `Cell`s for a
      non-atomic view, as plain atomics for an atomic one). */
  function Deref<T>(v: MemoryView<T>): (cells: seq<T>)
    requires Valid(v)
    reads v.memory
    ensures |cells| == v.length
    ensures forall i :: 0 <= i < v.length ==> cells[i] == v.memory[v.ptr + i]
  {
    v.memory[v.ptr..v.ptr + v.length]
  }

  /** `subarray` as written: it asserts `start <= end` and `end < length`
      (`None` is the panic), then keeps the cells from `start` up to, not
      including, `end`. */
  function Subarray<T>(v: MemoryView<T>, start: uint32, end: uint32): (r: Option<MemoryView<T>>)
    requires Valid(v) && v.mode == NonAtomically
    ensures r.Some? <==> start <= end && (end as nat) < v.length
    ensures r.Some? ==>
      && Valid(r.value) && r.value.mode == NonAtomically && r.value.memory == v.memory
      && r.value.ptr == v.ptr + start as nat && r.value.length == (end - start) as nat
  {
    if start <= end && (end as nat) < v.length then
      Some(MemoryView(v.memory, v.ptr + start as nat, (end - start) as nat, NonAtomically))
    else None
  }

  /** As written, no sub-view ever reaches the last cell of its view, and
      the whole view cannot be taken as a sub-view of itself. */
  lemma SubarrayMissesLastCell<T>(v: MemoryView<T>, start: uint32, end: uint32)
    requires Valid(v) && v.mode == NonAtomically
    ensures Subarray(v, start, end).Some? ==>
      Subarray(v, start, end).value.ptr + Subarray(v, start, end).value.length < v.ptr + v.length
    ensures Subarray(v, 0, v.length as uint32).None?
  {
  }

  /** A concrete view that shows it: a view of one cell has no sub-view
      holding that cell. */
  lemma SubarrayCounterexample(memory: array<int>)
    requires memory.Length >= 1
    ensures var v := New(memory, 0, 1);
      Subarray(v, 0, 1).None? && Subarray(v, 0, 0) == Some(MemoryView(memory, 0, 0, NonAtomically))
  {
  }

  /** `subarray` with the end bound the exclusive `end` calls for:
      `start <= end <= length`. */
  function SubarrayUpTo<T>(v: MemoryView<T>, start: uint32, end: uint32): (r: Option<MemoryView<T>>)
    requires Valid(v) && v.mode == NonAtomically
    ensures r.Some? <==> start <= end && (end as nat) <= v.length
    ensures r.Some? ==>
      && Valid(r.value) && r.value.mode == NonAtomically && r.value.memory == v.memory
      && r.value.ptr == v.ptr + start as nat && r.value.length == (end - start) as nat
  {
    if start <= end && (end as nat) <= v.length then
      Some(MemoryView(v.memory, v.ptr + start as nat, (end - start) as nat, NonAtomically))
    else None
  }

  /** The corrected sub-view holds exactly the cells `start .. end` of the
      view, and the whole view is a sub-view of itself. */
  lemma SubarrayUpToCells<T>(v: MemoryView<T>, start: uint32, end: uint32)
    requires Valid(v) && v.mode == NonAtomically
    requires start <= end && (end as nat) <= v.length
    ensures SubarrayUpTo(v, start, end).Some?
    ensures Deref(SubarrayUpTo(v, start, end).value) == Deref(v)[start..end]
    ensures SubarrayUpTo(v, 0, v.length as uint32) == Some(v)
  {
    var w := SubarrayUpTo(v, start, end).value;
    forall i | 0 <= i < w.length
      ensures Deref(w)[i] == Deref(v)[start..end][i]
    {
      assert Deref(w)[i] == v.memory[v.ptr + start as nat + i];
    }
  }

  /** Wherever the as-written check lets a sub-view through, the corrected
      one gives the same view. */
  lemma SubarrayUpToExtends<T>(v: MemoryView<T>, start: uint32, end: uint32)
    requires Valid(v) && v.mode == NonAtomically
    requires Subarray(v, start, end).Some?
    ensures SubarrayUpTo(v, start, end) == Subarray(v, start, end)
  {
  }

  /** `copy_from`: the source must have as many elements as the view (the
      assertion panics otherwise); it is copied cell by cell into the view,
      and the memory outside the window is left as it was. */
  method CopyFrom<T>(v: MemoryView<T>, src: seq<T>)
    requires Valid(v) && v.mode == NonAtomically
    requires |src| == v.length
    modifies v.memory
    ensures Deref(v) == src
    ensures v.memory[..v.ptr] == old(v.memory[..v.ptr])
    ensures v.memory[v.ptr + v.length..] == old(v.memory[v.ptr + v.length..])
  {
    for i := 0 to |src|
      invariant forall j :: 0 <= j < i ==> v.memory[v.ptr + j] == src[j]
      invariant forall j :: 0 <= j < v.ptr ==> v.memory[j] == old(v.memory[j])
      invariant forall j :: v.ptr + i <= j < v.memory.Length ==> v.memory[j] == old(v.memory[j])
    {
      v.memory[v.ptr + i] := src[i];
    }
  }

  /** `atomically`: the same cells, seen through the atomic view. */
  function AtomicallyView<T>(v: MemoryView<T>): (a: MemoryView<T>)
    requires Valid(v) && v.mode == NonAtomically
    ensures Valid(a) && a.mode == Atomically
    ensures a.memory == v.memory && a.ptr == v.ptr && a.length == v.length
  {
    MemoryView(v.memory, v.ptr, v.length, Atomically)
  }

  /** The atomic view aliases its view: both read the same cells, now and
      after any write to the memory. */
  lemma AtomicallyAliases<T>(v: MemoryView<T>)
    requires Valid(v) && v.mode == NonAtomically
    ensures Deref(AtomicallyView(v)) == Deref(v)
  {
  }
}
