# juice: translation units and diagnostics, modelled in Dafny

juice is a thin Rust layer over libclang. This model covers two of its files.

- `src/diagnostic.rs`: the mapping from libclang's `CXDiagnosticSeverity` onto `Severity`, the owned `Diagnostic` and `DiagnosticSet` handles and their release in `Drop`, and the `DiagnosticIterator` counter machine with its exact `size_hint`.
- `src/tu.rs`: the `Flags` bit layout, `TranslationUnit::parse` (argument marshalling and result mapping), `from_ptr`/`as_ptr`/`as_mut_ptr`, `get_diagnostics`, the unit's `Drop`, and `File::last_modification_time`.

libclang itself is a black box. Each query the wrapper makes on a handle is a function of that handle, so each handle datatype in module `ClangSys` carries the engine's answers:

- `TuHandle.numDiagnostics` is `clang_getNumDiagnostics`, and `TuHandle.diagnosticAt(i)` is `clang_getDiagnostic(tu, i)`.
- `DiagnosticHandle.severity` is `clang_getDiagnosticSeverity`.
- `FileHandle.time` is `clang_getFileTime`.

The foreign functions that `parse` calls are parameters, bundled in `Tu.ParseDeps`: `clang_parseTranslationUnit2`, the crate's `ErrorCode::from` and `util::cstring_from_str`.

The objects that `Drop` releases are classes with a ghost `disposed` flag. Every `Drop` requires `!disposed` and ensures `disposed`, so each owner object releases its handle only once. Every operation on a handle requires `!disposed`, so an owner's handle is never used after its release. The guarantee is per owner, not per native handle: `from_ptr` is public in the source, so two owners built from the same handle would each release it, and the model allows the same. The iterator's `Next` also requires its unit to be live; this is the part of the borrow `'a` that the model keeps.

Rust's `u32` is the newtype `ClangSys.u32`. Dafny therefore checks `current + 1` in `next` and `num_diagnostics - current` in `size_hint` against the type's range. Neither can overflow or underflow while the iterator's invariant `current <= num_diagnostics` holds.

Layout: `clangsys.dfy` holds the native types and handles, `wrappers.dfy` holds `Option`/`Result`, `diagnostic.dfy` models `src/diagnostic.rs` and `tu.dfy` models `src/tu.rs`. `DiagnosticIterator` is declared in module `Tu`, because it borrows a `TranslationUnit`, `get_diagnostics` creates one, and Dafny modules cannot import each other in a cycle.

## Model

| member | source | states |
|---|---|---|
| `Diagnostics.NativeCode` | src/diagnostic.rs:16-21 | each severity corresponds to one of the five known native codes |
| `Diagnostics.SeverityFrom` | src/diagnostic.rs:14-24 | defined exactly on the five known codes (any other code is the panic); the result's native code is the code it was given |
| `Diagnostics.SeverityRoundTrip` | src/diagnostic.rs:16-21 | mapping a severity to its native code and back gives the same severity |
| `Diagnostics.SeverityFromInjective` | src/diagnostic.rs:16-21 | two known codes give the same severity exactly when they are equal |
| `Diagnostics.KnownSeverityIsImage` | src/diagnostic.rs:16-22 | a code has a normal return exactly when it is the code of some severity; every other code takes the fatal path |
| `Diagnostics.SeverityFromInOrder` | src/diagnostic.rs:17-21 | codes 0 to 4 map in order onto Ignored, Note, Warning, Error, Fatal |
| `Diagnostics.Diagnostic.FromPtr` | src/diagnostic.rs:32-34 | the new owner holds the given handle, not yet released |
| `Diagnostics.Diagnostic.GetSeverity` | src/diagnostic.rs:36-39 | on a live diagnostic, returns the severity whose native code is the one the engine reports |
| `Diagnostics.Diagnostic.Drop` | src/diagnostic.rs:52-58 | releases a live handle, after which it cannot be released or used again |
| `Diagnostics.DiagnosticSet.FromPtr` | src/diagnostic.rs:102-104 | the new owner holds the given handle, not yet released |
| `Diagnostics.DiagnosticSet.Drop` | src/diagnostic.rs:107-113 | releases a live handle, after which it cannot be released again |
| `Diagnostics.IndicesAt` | src/diagnostic.rs:79-89 | from position `lo` with count `hi`, exactly `hi - lo` indices remain, ascending by one from `lo`, and none once `lo` reaches `hi` |
| `Diagnostics.IndicesSplit` | src/diagnostic.rs:79-89 | the indices fetched so far, followed by those still to come, make up the whole stream |
| `Diagnostics.IndicesFromZero` | src/diagnostic.rs:67-89 | a fresh iterator over `n` diagnostics hands out exactly `n` indices 0, 1, ..., n-1, strictly ascending |
| `Tu.DiagnosticIterator.New` | src/diagnostic.rs:67-73 | position 0, the supplied count, nothing fetched yet, all of 0..count still to come |
| `Tu.DiagnosticIterator.Next` | src/diagnostic.rs:79-89 | returns `Some` exactly when the position is below the count; then the result is a fresh owned diagnostic for the handle the engine gives at that index, that handle is appended to the fetched history (so the k-th `Some` is the diagnostic at index k), the position grows by exactly 1, that index is removed from the front of what remains, and the size hint drops by 1; otherwise returns `None` with the position at the count and nothing left, so every later call also returns `None`; `current <= num_diagnostics` is preserved |
| `Tu.DiagnosticIterator.SizeHint` | src/diagnostic.rs:91-94 | lower and upper bound are equal; both are the exact number of diagnostics still to come, 0 exactly when the iterator is exhausted |
| `Tu.DiagnosticIterator.FetchedThenRemaining` | src/diagnostic.rs:79-89 | at every point, the diagnostics fetched and the indices still to come number `count` together, the next index is the one right after the last fetched, and the stream is 0..count-1 |
| `Tu.NamedFlagIsSingleBit` | src/tu.rs:13-23 | `NONE` is 0, and each named option is a single bit no higher than 0x200 |
| `Tu.NamedFlagsDisjoint` | src/tu.rs:14-23 | two named options share no bit exactly when they are different options |
| `Tu.UnionContainsDisjoint` | src/tu.rs:11-24 | adding a flag that shares no bit with `g` does not change whether `g` is contained |
| `Tu.CombineContains` | src/tu.rs:11-24 | a union of named options contains a named option exactly when that option was one of those combined |
| `Tu.CombineWithinNamedBits` | src/tu.rs:11-24 | no union of named options sets a bit above 0x3FF |
| `Tu.AsCInt` | src/tu.rs:62 | `bits as c_int` keeps the 32-bit pattern (equal modulo 2^32, within the `int` range) and keeps the value when it is below 2^31 |
| `Tu.ParseCallFor` | src/tu.rs:47-62 | the engine gets the index, the converted file name, every argument converted in its original order, a count equal to the number of arguments, no unsaved files, and the flag bits unchanged whenever they fit a C `int` |
| `Tu.CombinedFlagsForwardedVerbatim` | src/tu.rs:62 | every union of named options reaches the engine with exactly its bits |
| `Tu.ResultFromCode` | src/tu.rs:67-72 | `Ok` exactly when the code is `Success`, then carrying the engine's handle; otherwise `Err` carrying that same (non-`Success`) code |
| `Tu.TranslationUnit.FromPtr` | src/tu.rs:32-34 | `as_ptr` on the new unit returns the handle given to `from_ptr`; the unit is live |
| `Tu.TranslationUnit.AsPtr` | src/tu.rs:75-77 | on a live unit, returns the handle the unit owns, the one given to `from_ptr` (or last stored through `as_mut_ptr`) and the one `Drop` releases |
| `Tu.TranslationUnit.StoreThroughMutPtr` | src/tu.rs:79-81 | a store through `as_mut_ptr` replaces the handle that `as_ptr` returns and later disposal targets |
| `Tu.TranslationUnit.Parse` | src/tu.rs:36-73 | on the marshalled call's engine result, `Ok` with a fresh live unit holding the engine's handle exactly when `ErrorCode::from` gives `Success`, otherwise `Err` with that code and no unit |
| `Tu.TranslationUnit.GetDiagnostics` | src/tu.rs:89-94 | on a live unit, a fresh iterator borrowing this unit, at position 0, whose count is the engine's diagnostic count for this unit |
| `Tu.TranslationUnit.Drop` | src/tu.rs:97-103 | releases a live unit's handle once; it cannot be released or used again |
| `Tu.AddThenSince` | src/tu.rs:122 | adding a duration to an instant and measuring back from that instant gives the duration unchanged |
| `Tu.LastModificationTime` | src/tu.rs:120-123 | for a non-negative native time `t`, the result lies exactly `t` whole seconds and 0 nanoseconds after the Unix epoch |
| `Tu.LastModificationTimeKeepsOrder` | src/tu.rs:120-123 | one file's modification instant is not before another's exactly when its native time is not smaller |

## Left out

- `Tu.LastModificationTime`: requires a non-negative native time. For a negative `time_t`, `t as u64` is at least 2^63 seconds, so `UNIX_EPOCH + Duration` leaves the `i64` seconds range and panics on Unix; the requirement excludes exactly that panic path, as `Diagnostics.SeverityFrom`'s excludes the panic of `Severity::from`.
- The native time is modelled as a 64-bit `time_t`. A 32-bit `time_t` is a sub-range of it.
- `Tu.ParseCallFor`: records the `usize` argument count. `util::i32_from_usize`, which converts that count for the engine, is not part of this model; its overflow behaviour is not modelled.
- `util::cstring_from_str` and `ErrorCode::from` are not part of this model. They are opaque parameters; the C-string encoding and memory of the argument buffers are not modelled.
- The engine calls (`clang_parseTranslationUnit2`, `clang_getNumDiagnostics`, `clang_getDiagnostic`, `clang_getDiagnosticSeverity`, `clang_getFileTime`, the `clang_dispose*` functions) are opaque answers carried by the handles or passed as parameters. What libclang does inside them is not modelled.
- `CXTranslationUnit_Flags::from` (src/tu.rs:62) is taken as the identity on a C `int`, since `CXTranslationUnit_Flags` is an alias of `c_int` in the binding.
- `Tu.DiagnosticIterator.Next`: the shared borrow `'a` also forbids a store through `as_mut_ptr` while the iterator lives; the model does not forbid it. After such a store, `Next` fetches from the new handle, and its index is bounded only by the count captured at `get_diagnostics`, not by the new handle's count. `Valid()` does require the handles already fetched to agree with the unit's current handle.
- `Tu.DiagnosticIterator.SizeHint`: the `u32 as usize` cast is taken to be lossless, as it is on every target where `usize` has at least 32 bits.
- `Diagnostic::spelling`, `Diagnostic::location` and `File::file_name` only forward a foreign result through `::String::from` or `SourceLocation::from_obj`, which are not part of this model.
- `TranslationUnit::get_cursor`: the cursor module is not part of this model.
- `src/loc.rs`: its three location views only forward out-parameters that libclang writes.
- Rust's borrow checking of `File` and `SourceLocation` against their unit is not modelled. Of the iterator's borrow, only the requirement that its unit is live appears.
