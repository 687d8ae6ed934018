# rust_signals in Dafny

A model of the `rust_signals` crate (`src/lib.rs`): a reactive cell, `Signal<T>`,
that carries a `u32` generation counter bumped on every mutable access, and a
memoised view, `Derived`, that computes its output eagerly when it is created
and recomputes it on `get` when the generation marker of its source no longer
equals the baseline it recorded.

- `counter.dfy` (module `Counter`): `u32` and `wrapping_add(1)`.
- `signal.dfy` (module `Signals`): `Signal<T>` as a class with fields `inner`
  and `generation`, plus a ghost count of updates; `Cell<T>` as a class with one
  mutable field.
- `source.dfy` (module `Sources`): the three derivable sources (`SignalRef`,
  `DerivedSignalRef`, a pair) as one datatype, with `current_generation`,
  `compare_generation` and `get` as functions over the aliased signals.
  `compare_generation`'s contract states that comparing generations is
  structural equality, member by member for a pair. The lemmas prove that each
  generation is the update count plus one, modulo 2^32, and that with fewer
  than 2^32 updates per signal since the baseline the staleness test is exact.
- `derived.dfy` (module `Derivations`): `Derived` as a class; `new`/`derive`,
  `get`, `input_changed`, `output_signal` and the `as_derive_base`
  conversions.
- `scenarios.dfy` (module `Scenarios`): the crate's `test_memos`, a general
  "set, then get" client, invalidation through a pair, and the scenarios behind
  the findings below.

In one place the code does not do what it evidently means to do, and the model
follows the code. `Derived::get` compares the source's marker with
`output_gen` on every call (src/lib.rs:164-166). That comparison only makes
sense if a recomputation moves `output_gen` to the current marker. A view over
a view watches the output signal's generation (src/lib.rs:179-198), which only
makes sense if a recomputation advances that generation. The code does neither.
`Derived::get` takes `&self` and stores the new output with `Cell::set` through
the shared `Deref` of the output signal (src/lib.rs:158). So `output_gen` never
moves, and the output signal's generation stays at 1.
`Derivations.Derived.Get` models exactly this. `Derivations.Derived.GetTracked`
is the behaviour the code evidently intends (see "## Findings").

## Model

| member | source | states |
|---|---|---|
| `Counter.WrappingInc` | src/lib.rs:48-50 | the bumped generation is the old one plus one modulo 2^32, and always differs from it |
| `Counter.WrapInjective` | src/lib.rs:48-50 | fewer than 2^32 bumps never bring a counter back to its value; exactly 2^32 bumps always do |
| `Signals.Signal.constructor` | src/lib.rs:40-45 | a new signal holds the given value with generation 1 and no updates |
| `Signals.Signal.FlagUpdated` | src/lib.rs:47-50 | the generation advances by one, wrapping; the value is unchanged |
| `Signals.Signal.Set` | src/lib.rs:52-57 | the value becomes the argument and the generation advances by exactly one, wrapping |
| `Signals.Signal.Get` | src/lib.rs:59-62 | returns the stored value and changes nothing |
| `Signals.Signal.GetMut` | src/lib.rs:64-69 | advances the generation by one even though the value is not changed, and returns the value |
| `Signals.Signal.Generation` | src/lib.rs:71-74 | returns the current counter and changes nothing |
| `Signals.Signal.Deref` | src/lib.rs:87-93 | a read through `get`: returns the stored value and changes nothing |
| `Signals.Signal.DerefMutUpdate` | src/lib.rs:95-98 | a write through `deref_mut` stores the updated value and advances the generation exactly once |
| `Sources.CurrentGeneration` | src/lib.rs:208-218 | the marker of a reference is the aliased signal's counter (lines 113-115, 191-193); the marker of a pair is the pair of its members' markers; the marker's shape always matches the source |
| `Sources.Value` | src/lib.rs:216-222 | the value of a signal reference is the signal's value, that of a view reference is the value in the view's output cell (lines 117-119, 195-197), and that of a pair is the pair of the members' values |
| `Sources.CompareGeneration` | src/lib.rs:208-214 | `compare_generation` holds exactly when the current marker equals the given one, for references (lines 109-111, 187-189) and member-wise for pairs |
| `Sources.PairChangedIffMemberChanged` | src/lib.rs:212-214 | a pair counts as changed if and only if at least one member's current marker differs from its part of the baseline |
| `Sources.GenerationCountsUpdates` | src/lib.rs:40-57 | every aliased signal's generation is one plus the number of its updates, modulo 2^32, so a source's marker is determined by the update counts |
| `Sources.CompareDetectsUpdates` | src/lib.rs:164-166 | when no aliased signal has had 2^32 or more updates since the baseline, the generation comparison succeeds if and only if no aliased signal was updated since |
| `Derivations.Derived.constructor` | src/lib.rs:139-150 | the output cell holds the function of the source's current value, the baseline is the source's current marker, the output signal has generation 1, and the view is not stale |
| `Derivations.Derive` | src/lib.rs:22-28 | `derive` builds a new view over the given source with the same guarantees as `new` |
| `Derivations.Derived.OutputSignal` | src/lib.rs:152-154 | returns the view's own output signal, not a copy |
| `Derivations.Derived.InputChanged` | src/lib.rs:164-166 | true exactly when the source's current marker differs from the baseline |
| `Derivations.Derived.Get` | src/lib.rs:156-162 | recomputes from the source's current value exactly when stale, and otherwise returns the cached output. It never changes the baseline, the staleness, or the output signal's generation. If the cache was sound and fewer than 2^32 updates have happened, it returns the function of the source's current value |
| `Derivations.Derived.GetTracked` | src/lib.rs:156-162 | the corrected `get`. A recomputation also moves the baseline to the current marker and bumps the output signal's generation once, so the view is fresh afterwards |
| `Derivations.Derived.AsDeriveBase` | src/lib.rs:169-177 | a view's source aliases only its output signal and reads that signal's generation and cell value |
| `Derivations.SignalAsDeriveBase` | src/lib.rs:77-85 | a signal's source aliases only that signal and reads its generation and value |
| `Derivations.PairAsDeriveBase` | src/lib.rs:200-206 | a pair's source aliases both members and reads the pair of their markers and values |
| `Scenarios.TestMemos` | src/lib.rs:229-243 | over `Signal::new(1)` a doubling view reads 2; after `*number += 1` the signal reads 2 and the view 4 |
| `Scenarios.GetReflectsSet` | src/lib.rs:52-57 | after a `set` on the source signal, `get` returns the function of the new value and the view stays sound |
| `Scenarios.GetReflectsUpdate` | src/lib.rs:95-98 | after a write through `deref_mut` on the source signal, `get` returns the function of the updated value and the view stays sound |
| `Scenarios.StaysStaleAsWritten` | src/lib.rs:156-162 | after a change and a recomputing `get`, the view is still stale |
| `Scenarios.FreshAfterTrackedGet` | src/lib.rs:156-162 | with the corrected `get`, the view is fresh after recomputing |
| `Scenarios.ChainAsWritten` | src/lib.rs:156-162 | a view over a view never goes stale: after the signal changes from 1 to 2 and the first view reads 4, the second still returns 3 |
| `Scenarios.ChainTracked` | src/lib.rs:156-162 | with the corrected `get`, reading the first view makes the second stale, and it returns 5 |
| `Scenarios.PairInvalidation` | src/lib.rs:212-214 | changing only the first member of a pair makes the view stale; the recomputed value uses the new first member and the unchanged second |

## Left out

- The `Debug` impls (src/lib.rs:129-136 and the derived one on `Signal`): formatting only.
- Raw-pointer lifetimes and `unsafe`: the aliases are object references, and every aliased signal is taken to be alive.
- The traits `SignalDeriveBase`, `AsSignalDeriveBase` and `Derive` (src/lib.rs:7-31) are not modelled as type-level machinery. Sources are one datatype, and `derive` is one method over a source.
- Pairs in the model are homogeneous: both members carry values of one element type `T`, and a pair's value is a `Nested` couple, not a Rust tuple of two types. A `Derived<T, U>` still maps to a different output type.
- `Cell` is a class with one mutable field. `Box<dyn Fn>` is a total Dafny function value.
- Thread safety and concurrency: the crate has none.
- Nothing is proved about behaviour after 2^32 or more updates since the baseline. The wrap-around itself is modelled (`Counter.WrappingInc`), and `Counter.WrapInjective` shows that exactly 2^32 updates bring a counter back to its baseline. The staleness test is proved exact only below that bound.
- Signals.Signal.GetMut: returns the value, not a mutable borrow. A write through the borrow is modelled by `Signals.Signal.DerefMutUpdate`. Later writes through a borrow the caller keeps are not modelled.
- Field privacy: the model's fields are public, whereas Rust keeps `inner` and `generation` private. Nothing in the model writes `inner` outside `Set` and `DerefMutUpdate`.
- Derivations.Derived.Get: the "returns the function of the current value" guarantee needs `Sound()` and fewer than 2^32 updates since the baseline. Views over views break `Sound()` when the upstream view recomputes (finding 2).

## Findings

| source | as written | input that shows it | evidently intended | confidence | as-written member | corrected member |
|---|---|---|---|---|---|---|
| src/lib.rs:156-162 | a recomputing `get` stores the output with `Cell::set` and never updates `output_gen`, so the view stays stale and every later `get` recomputes | `Signal::new(1)`, `derive(x * 2)`, `set(2)`, `get()`: `input_changed()` is still true | `get` moves the baseline to the source's current generation, so repeated reads with no change compute once | likely; not executed | `Scenarios.StaysStaleAsWritten` | `Scenarios.FreshAfterTrackedGet` |
| src/lib.rs:158 | the output signal's generation is never bumped (the write goes through the shared `Deref`, not `Signal::set`), so a view over a view never sees a change | `Signal::new(1)`, `d1 = derive(x * 2)`, `d2 = d1.derive(y + 1)`, `set(2)`, `d1.get()` gives 4, `d2.get()` gives 3 | once `d1` has been read, `d2.get()` gives 5 | likely; not executed | `Scenarios.ChainAsWritten` | `Scenarios.ChainTracked` |
