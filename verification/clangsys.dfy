/**
  The foreign side of the wrapper: the C integer types that cross the boundary
  and the opaque libclang handles.

  libclang is a black box. Every query the wrapper makes on a handle
  (`clang_getNumDiagnostics`, `clang_getDiagnostic`, `clang_getDiagnosticSeverity`,
  `clang_getFileTime`) is a function of that handle, so each handle below carries
  the engine's answers to those queries next to its address.
*/
module ClangSys {

  /** Rust's `u32` (also C's `unsigned`). */
  newtype u32 = x: int | 0 <= x < 0x1_0000_0000

  /** Rust's `u64`. */
  newtype u64 = x: int | 0 <= x < 0x1_0000_0000_0000_0000

  /** Rust's `i64`, the width of C's `time_t` on the 64-bit targets. */
  newtype i64 = x: int | -0x8000_0000_0000_0000 <= x < 0x8000_0000_0000_0000

  /** The five enumerators of `CXDiagnosticSeverity` in `clang-c/Index.h`. */
  const CX_DIAGNOSTIC_IGNORED: int := 0
  const CX_DIAGNOSTIC_NOTE: int := 1
  const CX_DIAGNOSTIC_WARNING: int := 2
  const CX_DIAGNOSTIC_ERROR: int := 3
  const CX_DIAGNOSTIC_FATAL: int := 4

  /**
    A `CXDiagnostic`. `severity` is what `clang_getDiagnosticSeverity` reports
    for it: a raw C `int`, which the engine is supposed to keep within the five
    codes above but the type does not promise.
  */
  datatype DiagnosticHandle = DiagnosticHandle(addr: nat, severity: int)

  /** A `CXDiagnosticSet`. */
  datatype DiagnosticSetHandle = DiagnosticSetHandle(addr: nat)

  /**
    A `CXTranslationUnit`. `numDiagnostics` is what `clang_getNumDiagnostics`
    reports for it and `diagnosticAt(i)` what `clang_getDiagnostic(tu, i)`
    returns; the engine's answer for an index at or past the count is
    unspecified here, so `diagnosticAt` is total and nothing is assumed of it.
  */
  datatype TuHandle = TuHandle(addr: nat, numDiagnostics: u32, diagnosticAt: u32 -> DiagnosticHandle)

  /** A `CXIndex`, the engine's global parsing state. */
  datatype IndexHandle = IndexHandle(addr: nat)

  /** A `CXFile`. `time` is what `clang_getFileTime` reports for it. */
  datatype FileHandle = FileHandle(addr: nat, time: i64)

  /** A NUL-terminated byte string as handed to C. */
  type CString = seq<bv8>
}
