/**
  src/diagnostic.rs: severity classification and the owned diagnostic handles.

  `DiagnosticIterator` is declared in module `Tu`, beside `TranslationUnit`: the
  iterator borrows a unit and `get_diagnostics` builds an iterator, and Dafny
  modules cannot import each other in a cycle. The sequence of indices the
  iterator hands out, `Indices`, is defined here.
*/
module Diagnostics {
  import opened ClangSys

  /** The classification of a diagnostic, in the order of `CXDiagnosticSeverity`. */
  datatype Severity = Ignored | Note | Warning | Error | Fatal

  /** The native codes `Severity::from` accepts; any other code panics. */
  predicate IsKnownSeverity(code: int) {
    || code == CX_DIAGNOSTIC_IGNORED
    || code == CX_DIAGNOSTIC_NOTE
    || code == CX_DIAGNOSTIC_WARNING
    || code == CX_DIAGNOSTIC_ERROR
    || code == CX_DIAGNOSTIC_FATAL
  }

  /** The native code of each severity: the correspondence `Severity::from` inverts. */
  function NativeCode(s: Severity): (code: int)
    ensures IsKnownSeverity(code)
  {
    match s
    case Ignored => CX_DIAGNOSTIC_IGNORED
    case Note => CX_DIAGNOSTIC_NOTE
    case Warning => CX_DIAGNOSTIC_WARNING
    case Error => CX_DIAGNOSTIC_ERROR
    case Fatal => CX_DIAGNOSTIC_FATAL
  }

  /**
    `Severity::from`. The panic on an unknown code is the precondition: no
    normal return exists for such a code.
  */
  function SeverityFrom(code: int): (s: Severity)
    requires IsKnownSeverity(code)
    ensures NativeCode(s) == code
  {
    if code == CX_DIAGNOSTIC_IGNORED then Ignored
    else if code == CX_DIAGNOSTIC_NOTE then Note
    else if code == CX_DIAGNOSTIC_WARNING then Warning
    else if code == CX_DIAGNOSTIC_ERROR then Error
    else Fatal
  }

  /** Converting a severity to its native code and back gives the same severity. */
  lemma SeverityRoundTrip(s: Severity)
    ensures SeverityFrom(NativeCode(s)) == s
  {
  }

  /** Distinct known codes never collapse onto one severity. */
  lemma SeverityFromInjective(a: int, b: int)
    requires IsKnownSeverity(a) && IsKnownSeverity(b)
    ensures SeverityFrom(a) == SeverityFrom(b) <==> a == b
  {
    assert NativeCode(SeverityFrom(a)) == a && NativeCode(SeverityFrom(b)) == b;
  }

  /**
    A native code has a normal return exactly when some severity carries it:
    every code outside the five takes the fatal path.
  */
  lemma KnownSeverityIsImage(code: int)
    ensures IsKnownSeverity(code) <==> exists s: Severity :: NativeCode(s) == code
  {
    if IsKnownSeverity(code) {
      assert NativeCode(SeverityFrom(code)) == code;
    }
  }

  /** The native codes 0 to 4 map, in that order, onto Ignored, Note, Warning, Error, Fatal. */
  lemma SeverityFromInOrder()
    ensures seq(5, i requires 0 <= i < 5 => SeverityFrom(i)) == [Ignored, Note, Warning, Error, Fatal]
  {
  }

  /**
    An owned `CXDiagnostic`. `disposed` records that `Drop` has run:
    `clang_disposeDiagnostic` is called on the handle then and never again.
  */
  class Diagnostic {
    const ptr: DiagnosticHandle
    ghost var disposed: bool

    /** `Diagnostic::from_ptr`: takes ownership of a live handle. */
    constructor FromPtr(ptr: DiagnosticHandle)
      ensures this.ptr == ptr && !disposed
    {
      this.ptr := ptr;
      disposed := false;
    }

    /** `Diagnostic::severity`: the engine's code for this diagnostic, classified. */
    method GetSeverity() returns (s: Severity)
      requires !disposed
      requires IsKnownSeverity(ptr.severity)
      ensures NativeCode(s) == ptr.severity
    {
      s := SeverityFrom(ptr.severity);
    }

    /** `Drop for Diagnostic`: releases the handle; a second release cannot be called. */
    method Drop()
      requires !disposed
      modifies this
      ensures disposed
    {
      disposed := true;
    }
  }

  /** An owned `CXDiagnosticSet`, with the same release-once contract as `Diagnostic`. */
  class DiagnosticSet {
    const ptr: DiagnosticSetHandle
    ghost var disposed: bool

    /** `DiagnosticSet::from_ptr`: takes ownership of a live handle. */
    constructor FromPtr(ptr: DiagnosticSetHandle)
      ensures this.ptr == ptr && !disposed
    {
      this.ptr := ptr;
      disposed := false;
    }

    /** `Drop for DiagnosticSet`: releases the handle; a second release cannot be called. */
    method Drop()
      requires !disposed
      modifies this
      ensures disposed
    {
      disposed := true;
    }
  }

  /**
    The indices a `DiagnosticIterator` at position `lo` with count `hi` hands
    out, one per `next`: the current one, then those of the advanced iterator.
  */
  function Indices(lo: u32, hi: u32): (r: seq<u32>)
    decreases hi as int - lo as int
  {
    if lo < hi then [lo] + Indices(lo + 1, hi) else []
  }

  /** `hi - lo` indices remain, ascending by one from `lo`; none when `lo` has reached `hi`. */
  lemma {:induction false} IndicesAt(lo: u32, hi: u32)
    ensures |Indices(lo, hi)| == if lo <= hi then hi as int - lo as int else 0
    ensures forall k :: 0 <= k < |Indices(lo, hi)| ==> Indices(lo, hi)[k] as int == lo as int + k
    decreases hi as int - lo as int
  {
    if lo < hi {
      IndicesAt(lo + 1, hi);
    }
  }

  /** What has been handed out, followed by what remains, is the whole stream. */
  lemma {:induction false} IndicesSplit(lo: u32, mid: u32, hi: u32)
    requires lo <= mid <= hi
    ensures Indices(lo, mid) + Indices(mid, hi) == Indices(lo, hi)
    decreases mid as int - lo as int
  {
    if lo < mid {
      IndicesSplit(lo + 1, mid, hi);
    }
  }

  /**
    A fresh iterator over `n` diagnostics hands out exactly `n` indices,
    0, 1, ..., n - 1, strictly ascending.
  */
  lemma IndicesFromZero(n: u32)
    ensures |Indices(0, n)| == n as int
    ensures forall k :: 0 <= k < n as int ==> Indices(0, n)[k] as int == k
    ensures forall j, k :: 0 <= j < k < n as int ==> Indices(0, n)[j] < Indices(0, n)[k]
  {
    IndicesAt(0, n);
  }
}
