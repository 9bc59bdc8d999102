/**
  src/tu.rs: parse flags, the translation unit and its lifecycle, diagnostic
  retrieval, and file modification times. `DiagnosticIterator` of
  src/diagnostic.rs lives here too (see module `Diagnostics`).
*/
module Tu {
  import opened ClangSys
  import opened Wrappers
  import opened Diagnostics

  // ---------------------------------------------------------------------------
  // Flags

  /** The `Flags` bitflags struct: the `u32` of option bits handed to the engine. */
  datatype Flags = Flags(bits: bv32)

  const NONE := Flags(0x00)
  const DETAILED_PREPROCESSING_RECORD := Flags(0x01)
  const INCOMPLETE := Flags(0x02)
  const PRECOMPILED_PREAMBLE := Flags(0x04)
  const CACHE_COMPLETION_RESULTS := Flags(0x08)
  const FOR_SERIALIZATION := Flags(0x10)
  const CXX_CHAINED_PCH := Flags(0x20)
  const SKIP_FUNCTION_BODIES := Flags(0x40)
  const INCLUDE_BRIEF_COMMENTS_IN_CODE_COMPLETIONS := Flags(0x80)
  const CREATE_PREAMBLE_ON_FIRST_PARSE := Flags(0x100)
  const KEEP_GOING := Flags(0x200)

  /** One of the ten named options, every constant but `NONE`. */
  predicate IsNamed(f: Flags) {
    || f == DETAILED_PREPROCESSING_RECORD || f == INCOMPLETE || f == PRECOMPILED_PREAMBLE
    || f == CACHE_COMPLETION_RESULTS || f == FOR_SERIALIZATION || f == CXX_CHAINED_PCH
    || f == SKIP_FUNCTION_BODIES || f == INCLUDE_BRIEF_COMMENTS_IN_CODE_COMPLETIONS
    || f == CREATE_PREAMBLE_ON_FIRST_PARSE || f == KEEP_GOING
  }

  /** Exactly one bit of `b` is set. */
  predicate IsSingleBit(b: bv32) {
    b != 0 && b & (b - 1) == 0
  }

  /** `a | b` on the bitflags struct. */
  function Union(a: Flags, b: Flags): (r: Flags) {
    Flags(a.bits | b.bits)
  }

  /** `a.contains(b)` on the bitflags struct: every bit of `b` is set in `a`. */
  predicate Contains(a: Flags, b: Flags) {
    a.bits & b.bits == b.bits
  }

  /** The union of a list of options, as a caller writes `A | B | ...`; the empty list is `NONE`. */
  function Combine(fs: seq<Flags>): (r: Flags) {
    if fs == [] then NONE else Union(fs[0], Combine(fs[1..]))
  }

  /** `NONE` is 0, and each named option is a single bit no higher than 0x200. */
  lemma NamedFlagIsSingleBit(f: Flags)
    requires IsNamed(f)
    ensures NONE.bits == 0
    ensures IsSingleBit(f.bits) && f.bits <= 0x200
  {
  }

  /** Two named options share a bit only if they are the same option. */
  lemma NamedFlagsDisjoint(f: Flags, g: Flags)
    requires IsNamed(f) && IsNamed(g)
    ensures f.bits & g.bits == 0 <==> f != g
  {
  }

  /** Adding an option that does not share a bit with `g` leaves untouched whether `g` is contained. */
  lemma UnionContainsDisjoint(a: Flags, rest: Flags, g: Flags)
    requires a.bits & g.bits == 0
    ensures Contains(Union(a, rest), g) <==> Contains(rest, g)
  {
  }

  /**
    Options combine independently: a union of named options contains a named
    option exactly when that option is one of those combined.
  */
  lemma {:induction false} CombineContains(fs: seq<Flags>, g: Flags)
    requires forall f :: f in fs ==> IsNamed(f)
    requires IsNamed(g)
    ensures Contains(Combine(fs), g) <==> g in fs
  {
    if fs != [] {
      assert IsNamed(fs[0]);
      CombineContains(fs[1..], g);
      assert g in fs <==> g == fs[0] || g in fs[1..];
      if fs[0] != g {
        NamedFlagsDisjoint(fs[0], g);
        UnionContainsDisjoint(fs[0], Combine(fs[1..]), g);
      }
    }
  }

  /** No union of named options sets a bit above 0x200. */
  lemma {:induction false} CombineWithinNamedBits(fs: seq<Flags>)
    requires forall f :: f in fs ==> IsNamed(f)
    ensures Combine(fs).bits <= 0x3FF
  {
    if fs != [] {
      assert IsNamed(fs[0]);
      CombineWithinNamedBits(fs[1..]);
      var a, rest := fs[0].bits, Combine(fs[1..]).bits;
      assert a <= 0x3FF;
      assert a | rest <= 0x3FF;
    }
  }

  /** `bits as libc::c_int`: the same 32-bit pattern read as a signed C `int`. */
  function AsCInt(bits: bv32): (c: int)
    ensures -0x8000_0000 <= c < 0x8000_0000
    ensures c % 0x1_0000_0000 == bits as int
    ensures bits as int < 0x8000_0000 ==> c == bits as int
  {
    var n := bits as int;
    if n < 0x8000_0000 then n else n - 0x1_0000_0000
  }

  // ---------------------------------------------------------------------------
  // Parsing

  /** The crate's `ErrorCode`, following `CXErrorCode`. */
  datatype ErrorCode = Success | Failure | Crashed | InvalidArguments | AstReadError

  /** The arguments of one `clang_parseTranslationUnit2` call. */
  datatype ParseCall = ParseCall(
    index: IndexHandle,
    sourceFilename: CString,
    commandLineArgs: seq<CString>,
    // the `usize` length of the pointer vector, before `util::i32_from_usize`
    numCommandLineArgs: nat,
    // the unsaved-files pointer is null and its count is this
    numUnsavedFiles: nat,
    // `CXTranslationUnit_Flags`, a C `int`
    options: int)

  /** What the engine returns: its raw error code and the handle it wrote to the out-parameter. */
  datatype NativeParse = NativeParse(code: int, tu: TuHandle)

  /** The foreign functions `parse` calls, none of whose code is part of this model. */
  datatype ParseDeps = ParseDeps(
    parseTranslationUnit2: ParseCall -> NativeParse,  // clang_parseTranslationUnit2
    errorCodeFrom: int -> ErrorCode,                  // ::ErrorCode::from
    cstringFromStr: string -> CString)                // util::cstring_from_str

  /**
    The call `parse` makes: the file name and each argument converted to a C
    string, the arguments in their original order and counted, no unsaved
    files, and the flag bits as a C `int`.
  */
  function ParseCallFor(cstringFromStr: string -> CString, index: IndexHandle, sourceFilename: string,
                        commandLineArgs: seq<string>, flags: Flags): (call: ParseCall)
    ensures call.index == index
    ensures call.sourceFilename == cstringFromStr(sourceFilename)
    ensures |call.commandLineArgs| == call.numCommandLineArgs == |commandLineArgs|
    ensures forall i :: 0 <= i < |commandLineArgs| ==> call.commandLineArgs[i] == cstringFromStr(commandLineArgs[i])
    ensures call.numUnsavedFiles == 0
    ensures flags.bits as int < 0x8000_0000 ==> call.options == flags.bits as int
  {
    var argv := seq(|commandLineArgs|, i requires 0 <= i < |commandLineArgs| => cstringFromStr(commandLineArgs[i]));
    ParseCall(index, cstringFromStr(sourceFilename), argv, |argv|, 0, AsCInt(flags.bits))
  }

  /** Any union of named options reaches the engine with its bits unchanged. */
  lemma CombinedFlagsForwardedVerbatim(cstringFromStr: string -> CString, index: IndexHandle,
                                       sourceFilename: string, commandLineArgs: seq<string>, fs: seq<Flags>)
    requires forall f :: f in fs ==> IsNamed(f)
    ensures ParseCallFor(cstringFromStr, index, sourceFilename, commandLineArgs, Combine(fs)).options
            == Combine(fs).bits as int
  {
    CombineWithinNamedBits(fs);
  }

  /**
    The match at the end of `parse`: `Success` gives the engine's handle,
    every other code is returned as the error.
  */
  function ResultFromCode(errorCode: ErrorCode, tu: TuHandle): (r: Result<TuHandle, ErrorCode>)
    ensures r.Ok? <==> errorCode == Success
    ensures r.Ok? ==> r.value == tu
    ensures r.Err? ==> r.error == errorCode && r.error != Success
  {
    match errorCode
    case Success => Ok(tu)
    case _ => Err(errorCode)
  }

  // ---------------------------------------------------------------------------
  // TranslationUnit and its diagnostics

  /**
    An owned `CXTranslationUnit`. `disposed` records that `Drop` has run:
    `clang_disposeTranslationUnit` is called on the handle then and never
    again, and nothing borrowed from the unit may be used afterwards.
  */
  class TranslationUnit {
    var ptr: TuHandle
    ghost var disposed: bool

    /** `TranslationUnit::from_ptr`: takes ownership; `as_ptr` then gives the same handle back. */
    constructor FromPtr(ptr: TuHandle)
      ensures !disposed && AsPtr() == ptr
    {
      this.ptr := ptr;
      disposed := false;
    }

    /** `as_ptr`: the handle this live unit owns, the one `Drop` releases. */
    function AsPtr(): (p: TuHandle)
      reads this
      requires !disposed
      ensures p == ptr
    {
      ptr
    }

    /** A store through the reference `as_mut_ptr` returns. */
    method StoreThroughMutPtr(p: TuHandle)
      requires !disposed
      modifies this
      ensures !disposed && AsPtr() == p
    {
      ptr := p;
    }

    /**
      `TranslationUnit::parse`. On `Success` the caller owns a new live unit
      holding the handle the engine wrote; on any other code it gets that
      code back and no unit exists.
    */
    static method Parse(deps: ParseDeps, index: IndexHandle, sourceFilename: string,
                        commandLineArgs: seq<string>, flags: Flags)
      returns (r: Result<TranslationUnit, ErrorCode>)
      ensures var native := deps.parseTranslationUnit2(
                ParseCallFor(deps.cstringFromStr, index, sourceFilename, commandLineArgs, flags));
              && (r.Ok? <==> deps.errorCodeFrom(native.code) == Success)
              && (r.Ok? ==> fresh(r.value) && !r.value.disposed && r.value.AsPtr() == native.tu)
              && (r.Err? ==> r.error == deps.errorCodeFrom(native.code))
    {
      var call := ParseCallFor(deps.cstringFromStr, index, sourceFilename, commandLineArgs, flags);
      var native := deps.parseTranslationUnit2(call);
      var outcome := ResultFromCode(deps.errorCodeFrom(native.code), native.tu);
      if outcome.Ok? {
        var tu := new TranslationUnit.FromPtr(outcome.value);
        r := Ok(tu);
      } else {
        r := Err(outcome.error);
      }
    }

    /**
      `get_diagnostics`: an iterator borrowing this unit, positioned at 0,
      with the engine's diagnostic count for this unit.
    */
    method GetDiagnostics() returns (it: DiagnosticIterator)
      requires !disposed
      ensures fresh(it) && it.Valid()
      ensures it.tu == this && it.numDiagnostics == ptr.numDiagnostics && it.current == 0
      ensures it.Remaining() == Indices(0, ptr.numDiagnostics)
    {
      var numDiagnostics := ptr.numDiagnostics;
      it := new DiagnosticIterator.New(this, numDiagnostics);
    }

    /** `Drop for TranslationUnit`: releases the handle; a second release cannot be called. */
    method Drop()
      requires !disposed
      modifies this
      ensures disposed && ptr == old(ptr)
    {
      disposed := true;
    }
  }

  /**
    `DiagnosticIterator` (src/diagnostic.rs): a count captured up front and a
    position; each `next` fetches the diagnostic at the position and advances.
    `yielded` is the history of the diagnostic handles fetched so far.
  */
  class DiagnosticIterator {
    const tu: TranslationUnit
    const numDiagnostics: u32
    var current: u32
    ghost var yielded: seq<DiagnosticHandle>

    /**
      The position never passes the count, and the k-th diagnostic fetched is
      the one the engine gives for index k, for every index below the position.
    */
    ghost predicate Valid()
      reads this, tu
    {
      && current <= numDiagnostics
      && |yielded| == current as int
      && forall k :: 0 <= k < |yielded| ==> yielded[k] == tu.ptr.diagnosticAt(k as u32)
    }

    /** The indices still to be fetched, in the order `next` fetches them. */
    ghost function Remaining(): seq<u32>
      reads this, tu
      requires Valid()
    {
      Indices(current, numDiagnostics)
    }

    /** `DiagnosticIterator::new`: position 0 and the given count. */
    constructor New(tu: TranslationUnit, numDiagnostics: u32)
      ensures this.tu == tu && this.numDiagnostics == numDiagnostics && current == 0
      ensures Valid() && yielded == []
      ensures Remaining() == Indices(0, numDiagnostics)
    {
      this.tu := tu;
      this.numDiagnostics := numDiagnostics;
      current := 0;
      yielded := [];
    }

    /**
      `next`: while the position is below the count, the diagnostic at the
      position, which the caller now owns, and the position moves up by one;
      afterwards `None`, with nothing changed, on this and every later call.
    */
    method Next() returns (d: Option<Diagnostic>)
      requires Valid() && !tu.disposed
      modifies this
      ensures Valid()
      ensures d.Some? <==> old(current) < numDiagnostics
      ensures d.Some? ==> && current == old(current) + 1
                          && fresh(d.value) && !d.value.disposed
                          && d.value.ptr == tu.ptr.diagnosticAt(old(current))
                          && yielded == old(yielded) + [d.value.ptr]
                          && [old(current)] + Remaining() == old(Remaining())
      ensures d.None? ==> current == old(current) == numDiagnostics && Remaining() == []
      ensures SizeHint().0 == if d.Some? then old(SizeHint().0) - 1 else old(SizeHint().0)
    {
      if current < numDiagnostics {
        var diagPtr := tu.AsPtr().diagnosticAt(current);
        yielded := yielded + [diagPtr];
        current := current + 1;
        var diagnostic := new Diagnostic.FromPtr(diagPtr);
        d := Some(diagnostic);
      } else {
        d := None;
      }
    }

    /**
      `size_hint`: the exact number of diagnostics still to come, as both
      bounds. The `u32` subtraction cannot underflow because the position
      never passes the count; the hint is 0 exactly when the iterator is done.
    */
    function SizeHint(): (r: (nat, Option<nat>))
      reads this, tu
      requires Valid()
      ensures r.1 == Some(r.0)
      ensures r.0 == |Remaining()|
      ensures r.0 == 0 <==> current == numDiagnostics
    {
      IndicesAt(current, numDiagnostics);
      var remaining := (numDiagnostics - current) as nat;
      (remaining, Some(remaining))
    }

    /**
      At any point, the diagnostics fetched and the indices still to come
      together number `count`, and the next index is the one right after the
      last diagnostic fetched: the stream is 0, 1, ..., count - 1 throughout.
    */
    lemma FetchedThenRemaining()
      requires Valid()
      ensures |yielded| + |Remaining()| == numDiagnostics as int
      ensures forall j :: 0 <= j < |Remaining()| ==> Remaining()[j] as int == |yielded| + j
      ensures Indices(0, current) + Remaining() == Indices(0, numDiagnostics)
    {
      IndicesAt(current, numDiagnostics);
      IndicesSplit(0, current, numDiagnostics);
    }
  }

  // ---------------------------------------------------------------------------
  // File

  /** `std::time::Duration`: whole seconds and the nanoseconds below one second. */
  datatype Duration = Duration(secs: u64, nanos: Nanos)

  type Nanos = n: nat | n < 1_000_000_000

  /** `std::time::SystemTime` on Unix: seconds and nanoseconds from the Unix epoch. */
  datatype SystemTime = SystemTime(secs: i64, nanos: Nanos)

  const UNIX_EPOCH := SystemTime(0, 0)

  /** `Duration::from_secs`. */
  function FromSecs(secs: u64): (d: Duration) {
    Duration(secs, 0)
  }

  /** `SystemTime + Duration`; the addition panics when the seconds leave the `i64` range. */
  function AddDuration(t: SystemTime, d: Duration): (r: SystemTime)
    requires t.secs as int + d.secs as int + (if t.nanos + d.nanos < 1_000_000_000 then 0 else 1) < 0x8000_0000_0000_0000
  {
    var nanos := t.nanos + d.nanos;
    if nanos < 1_000_000_000 then SystemTime((t.secs as int + d.secs as int) as i64, nanos)
    else SystemTime((t.secs as int + d.secs as int + 1) as i64, nanos - 1_000_000_000)
  }

  /** `later.duration_since(earlier)`: `None` when `later` is before `earlier`. */
  function DurationSince(later: SystemTime, earlier: SystemTime): (r: Option<Duration>) {
    if later.secs < earlier.secs || (later.secs == earlier.secs && later.nanos < earlier.nanos) then None
    else if earlier.nanos <= later.nanos then
      Some(Duration((later.secs as int - earlier.secs as int) as u64, later.nanos - earlier.nanos))
    else
      Some(Duration((later.secs as int - earlier.secs as int - 1) as u64, later.nanos + 1_000_000_000 - earlier.nanos))
  }

  /** Adding a duration to an instant and measuring from that instant gives the duration back. */
  lemma AddThenSince(t: SystemTime, d: Duration)
    requires t.secs as int + d.secs as int + (if t.nanos + d.nanos < 1_000_000_000 then 0 else 1) < 0x8000_0000_0000_0000
    ensures DurationSince(AddDuration(t, d), t) == Some(d)
  {
  }

  /** A `File`: a handle into a unit's file table, owning nothing. */
  datatype File = File(ptr: FileHandle)

  /**
    `File::last_modification_time`: the engine's time `t` as the instant
    exactly `t` whole seconds after the Unix epoch.
  */
  function LastModificationTime(file: File): (r: SystemTime)
    requires file.ptr.time >= 0
    ensures DurationSince(r, UNIX_EPOCH) == Some(Duration(file.ptr.time as u64, 0))
  {
    var t := file.ptr.time;
    AddThenSince(UNIX_EPOCH, FromSecs(t as u64));
    AddDuration(UNIX_EPOCH, FromSecs(t as u64))
  }

  /** Native times keep their order: one file's instant is not before another's exactly when its time is not smaller. */
  lemma LastModificationTimeKeepsOrder(a: File, b: File)
    requires a.ptr.time >= 0 && b.ptr.time >= 0
    ensures a.ptr.time <= b.ptr.time <==> DurationSince(LastModificationTime(b), LastModificationTime(a)).Some?
  {
  }
}
