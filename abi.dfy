/** The C-level vocabulary of the embedding boundary: fixed-width integers,
    names, the two-valued status and the import/export kind enumeration. */
module Abi {

  newtype uint8 = x: int | 0 <= x < 0x100
  newtype uint32 = x: int | 0 <= x < 0x1_0000_0000
  newtype int32 = x: int | -0x8000_0000 <= x < 0x8000_0000
  newtype int64 = x: int | -0x8000_0000_0000_0000 <= x < 0x8000_0000_0000_0000

  /** A name as it crosses the boundary: a byte string (a Rust `&str` or
      `String` is its UTF-8 bytes). */
  type Name = seq<uint8>

  /** `wasmer_result_t`. */
  datatype Status = WasmerOk | WasmerError

  /** The discriminant of `wasmer_result_t` as the C side sees it. */
  function StatusCode(s: Status): (c: int)
    ensures c == 1 <==> s == WasmerOk
    ensures c == 2 <==> s == WasmerError
  {
    match s
    case WasmerOk => 1
    case WasmerError => 2
  }

  /** `wasmer_import_export_kind`, a `#[repr(u32)]` enumeration. */
  datatype ImportExportKind = WasmFunction | WasmGlobal | WasmMemory | WasmTable

  /** The discriminant of a kind: declaration order, starting at 0. */
  function KindCode(k: ImportExportKind): (c: uint32)
    ensures c < 4
    ensures c == 0 <==> k == WasmFunction
    ensures c == 1 <==> k == WasmGlobal
    ensures c == 2 <==> k == WasmMemory
    ensures c == 3 <==> k == WasmTable
  {
    match k
    case WasmFunction => 0
    case WasmGlobal => 1
    case WasmMemory => 2
    case WasmTable => 3
  }

  /** Distinct kinds have distinct discriminants, so the C side can tell
      them apart. */
  lemma KindCodeInjective(k: ImportExportKind, k': ImportExportKind)
    ensures KindCode(k) == KindCode(k') <==> k == k'
  {
  }

  /** A Rust `len() as c_int` cast: the low 32 bits, read as two's complement. */
  function AsCInt(n: nat): (r: int)
    ensures -0x8000_0000 <= r < 0x8000_0000
    ensures (r - n) % 0x1_0000_0000 == 0
    ensures n < 0x8000_0000 ==> r == n
  {
    var low := n % 0x1_0000_0000;
    if low < 0x8000_0000 then low else low - 0x1_0000_0000
  }

  /** A Rust `len() as uint32_t` cast: the low 32 bits. */
  function AsUint32(n: nat): (r: uint32)
    ensures (r as int - n) % 0x1_0000_0000 == 0
    ensures n < 0x1_0000_0000 ==> r as int == n
  {
    (n % 0x1_0000_0000) as uint32
  }
}
