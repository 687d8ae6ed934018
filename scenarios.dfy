/** Concrete uses of signals and derived views: the crate's own test, the
    behaviour of `get` as written against the one the code evidently intends, and
    invalidation through a pair source. */
module Scenarios {
  import opened Counter
  import opened Signals
  import opened Sources
  import opened Derivations

  /** `|number| number * 2`; a view over one signal only ever sees an `Atom`. */
  function Doubled(v: Nested<int>): int {
    if v.Atom? then v.atom * 2 else 0
  }

  /** `|x| x + 1` over one source. */
  function Incremented(v: Nested<int>): int {
    if v.Atom? then v.atom + 1 else 0
  }

  /** `|(a, b)| a + b` over a pair of signals. */
  function Sum(v: Nested<int>): int {
    if v.Couple? && v.left.Atom? && v.right.Atom? then v.left.atom + v.right.atom else 0
  }

  /** The crate's `test_memos`: a doubling view over `Signal::new(1)` reads 2;
      after `*number += 1` the signal reads 2 and the view 4. */
  method TestMemos() returns (before: int, first: int, after: int, second: int)
    ensures before == 1 && first == 2
    ensures after == 2 && second == 4
  {
    var number := new Signal(1);
    var double := Derive(SignalAsDeriveBase(number), Doubled);
    before := number.Deref();
    first := double.Get();
    number.DerefMutUpdate(x => x + 1);
    after := number.Deref();
    second := double.Get();
  }

  /** After a `set` on the source signal, `get` yields the function of the new
      value, provided the signal has had fewer than 2^32 updates since the
      view's baseline. */
  method GetReflectsSet<T, U>(d: Derived<T, U>, s: Signal<T>, v: T) returns (r: U)
    requires d.base == SignalRef(s) && d.Valid() && d.Sound()
    requires Within(Updates(d.base), d.mark) && s.updates + 1 < d.mark.atom + Modulus
    modifies s, d.output.inner
    ensures s.inner == v && r == d.fn(Atom(v))
    ensures d.Valid() && d.Sound()
  {
    s.Set(v);
    r := d.Get();
  }

  /** The same for the other mutation path: after a write through `deref_mut`,
      `get` yields the function of the updated value. */
  method GetReflectsUpdate<T, U>(d: Derived<T, U>, s: Signal<T>, update: T -> T) returns (r: U)
    requires d.base == SignalRef(s) && d.Valid() && d.Sound()
    requires Within(Updates(d.base), d.mark) && s.updates + 1 < d.mark.atom + Modulus
    modifies s, d.output.inner
    ensures s.inner == update(old(s.inner)) && r == d.fn(Atom(s.inner))
    ensures d.Valid() && d.Sound()
  {
    s.DerefMutUpdate(update);
    r := d.Get();
  }

  /** As written, a view stays stale after `get` has recomputed it: the
      baseline never moves, so every later `get` recomputes again. */
  method StaysStaleAsWritten() returns (staleBefore: bool, staleAfter: bool)
    ensures staleBefore && staleAfter
  {
    var number := new Signal(1);
    var double := Derive(SignalAsDeriveBase(number), Doubled);
    number.Set(2);
    staleBefore := double.InputChanged();
    var _ := double.Get();
    staleAfter := double.InputChanged();
  }

  /** With the baseline moved on recomputation, the view is fresh again. */
  method FreshAfterTrackedGet() returns (staleBefore: bool, staleAfter: bool)
    ensures staleBefore && !staleAfter
  {
    var number := new Signal(1);
    var double := Derive(SignalAsDeriveBase(number), Doubled);
    number.Set(2);
    staleBefore := double.InputChanged();
    var _ := double.GetTracked();
    staleAfter := double.InputChanged();
  }

  /** As written, a view over another view never sees the change: after the
      signal goes from 1 to 2 and the first view is read (4), the second view
      still yields 1 * 2 + 1 = 3, because the first view's output generation
      stays at 1. */
  method ChainAsWritten() returns (first: int, second: int, secondStale: bool)
    ensures first == 4 && second == 3 && !secondStale
  {
    var number := new Signal(1);
    var double := Derive(SignalAsDeriveBase(number), Doubled);
    var next := Derive(double.AsDeriveBase(), Incremented);
    number.Set(2);
    first := double.Get();
    secondStale := next.InputChanged();
    second := next.Get();
  }

  /** With the output generation bumped on recomputation, reading the first view
      makes the second one stale, and it then yields 4 + 1 = 5. */
  method ChainTracked() returns (first: int, second: int, secondStale: bool)
    ensures first == 4 && second == 5 && secondStale
  {
    var number := new Signal(1);
    var double := Derive(SignalAsDeriveBase(number), Doubled);
    var next := Derive(double.AsDeriveBase(), Incremented);
    number.Set(2);
    first := double.GetTracked();
    secondStale := next.InputChanged();
    second := next.GetTracked();
  }

  /** A view over a pair goes stale when only the first member changes, and the
      recomputed value uses the new first member and the unchanged second. */
  method PairInvalidation() returns (stale: bool, sum: int)
    ensures stale && sum == 5 + 10
  {
    var a := new Signal(1);
    var b := new Signal(10);
    var both := PairAsDeriveBase(SignalAsDeriveBase(a), SignalAsDeriveBase(b));
    assert Aliased(both) == {a, b} && Frame(both) == {a, b};
    var total := Derive(both, Sum);
    assert total.outputGen == Couple(Atom(1), Atom(1));
    a.Set(5);
    assert Frame(both) == {a, b} && Consistent(both);
    assert CurrentGeneration(both) == Couple(Atom(2), Atom(1));
    assert Value(both) == Couple(Atom(5), Atom(10));
    assert total.Valid();
    stale := total.InputChanged();
    sum := total.Get();
  }
}
