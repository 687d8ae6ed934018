/** `Derived<Base, Output>`: a memoised view of a source, computed eagerly at
    construction and recomputed on `get` when the source's generation marker
    no longer matches the baseline. */
module Derivations {
  import opened Counter
  import opened Signals
  import opened Sources

  class Derived<T, U> {
    /** The source handle; it aliases, and does not own, the signals it reads. */
    const base: Source<T>
    /** The cached output: a signal wrapping a cell, so that the view can itself
        be derived from. */
    const output: Signal<Cell<U>>
    /** The baseline generation marker `output_gen`. `get` never writes it; it is
        a variable only because the corrected `GetTracked` does. */
    var outputGen: Gen
    /** The computation (`Box<dyn Fn(Base::Value) -> Output>`). */
    const fn: Nested<T> -> U
    /** The update counts of the aliased signals at the baseline. */
    ghost var mark: Nested<nat>

    /** The output signal and its cell are not aliased by the source, every
        aliased signal keeps its counter invariant, and the baseline marker is
        the one that the baseline update counts correspond to. */
    ghost predicate Valid()
      reads this, output, Aliased(base)
    {
      && output !in Frame(base)
      && output.inner !in Frame(base)
      && this !in Frame(base)
      && output.Valid()
      && Consistent(base)
      && Fits(base, mark)
      && Fits(base, outputGen)
      && outputGen == Wrapped(mark)
    }

    /** The cache is correct whenever no aliased signal has been updated since
        the baseline. */
    ghost predicate Sound()
      reads this, output, output.inner, Aliased(base), Frame(base)
    {
      Updates(base) == mark ==> output.inner.value == fn(Value(base))
    }

    /** `Derived::new`: computes the output from the source's current value at
        once and takes the source's current generation as the baseline. */
    constructor (base: Source<T>, fn: Nested<T> -> U)
      requires Consistent(base)
      ensures Valid() && Sound()
      ensures this.base == base && this.fn == fn
      ensures fresh(output) && fresh(output.inner)
      ensures output.inner.value == fn(Value(base))
      ensures output.generation == 1 && output.updates == 0
      ensures outputGen == CurrentGeneration(base) && mark == Updates(base)
      ensures !InputChanged()
    {
      ghost var aliased := Frame(base);
      FrameAllocated(base);
      GenerationCountsUpdates(base);
      var cell := new Cell(fn(Value(base)));
      output := new Signal(cell);
      outputGen := CurrentGeneration(base);
      this.base := base;
      this.fn := fn;
      mark := Updates(base);
    }

    /** `output_signal`: the output signal itself, not a copy. */
    method OutputSignal() returns (o: Signal<Cell<U>>)
      ensures o == output
    {
      o := output;
    }

    /** `input_changed`: the source's current marker differs from the baseline. */
    function InputChanged(): (changed: bool)
      reads this, Aliased(base)
      requires Fits(base, outputGen)
      ensures changed <==> CurrentGeneration(base) != outputGen
    {
      !CompareGeneration(base, outputGen)
    }

    /** `get`, as written: when the input has changed, the new output is stored
        with `Cell::set` through the shared dereference of the output signal.
        Neither the baseline nor the output signal's generation moves, so the
        view stays stale and every later `get` recomputes. */
    method Get() returns (r: U)
      requires Valid()
      modifies output.inner
      ensures Valid()
      ensures outputGen == old(outputGen) && output.generation == old(output.generation)
      ensures InputChanged() == old(InputChanged())
      ensures output.inner.value
           == if old(InputChanged()) then fn(Value(base)) else old(output.inner.value)
      ensures r == output.inner.value
      ensures old(Sound()) && Within(Updates(base), mark) ==> r == fn(Value(base)) && Sound()
    {
      FrameAllocated(base);
      ghost var frame, value, u := Frame(base), Value(base), Updates(base);
      // `*self.output` dereferences the output signal to its cell.
      var cell := output.inner;
      if InputChanged() {
        cell.value := fn(Value(base));
        assert Frame(base) == frame;
        assert Value(base) == value && Updates(base) == u && Consistent(base);
      }
      r := cell.value;
      if Within(Updates(base), mark) {
        CompareDetectsUpdates(base, mark);
      }
    }

    /** `get` as the code evidently intends it: a recomputation also moves the
        baseline to the source's current marker (otherwise comparing against
        `output_gen` would be pointless) and bumps the output signal's generation
        (which a `DerivedSignalRef` watches), so the view is fresh afterwards and
        views derived from it see the change. */
    method GetTracked() returns (r: U)
      requires Valid()
      modifies this, output, output.inner
      ensures Valid()
      ensures !InputChanged() && outputGen == CurrentGeneration(base)
      ensures output.inner == old(output.inner)
      ensures output.inner.value
           == if old(InputChanged()) then fn(Value(base)) else old(output.inner.value)
      ensures output.generation
           == if old(InputChanged()) then WrappingInc(old(output.generation)) else old(output.generation)
      ensures output.updates == old(output.updates) + if old(InputChanged()) then 1 else 0
      ensures r == output.inner.value
      ensures old(Sound()) && Within(Updates(base), old(mark)) ==> r == fn(Value(base))
      ensures old(InputChanged()) || old(Sound()) ==> Sound()
    {
      if InputChanged() {
        Refresh();
      } else if Within(Updates(base), mark) {
        CompareDetectsUpdates(base, mark);
      }
      r := output.inner.value;
    }

    /** The recomputation step of `GetTracked`: store the new output, bump the
        output signal and take the source's current marker as the baseline. */
    method Refresh()
      requires Valid()
      modifies this, output, output.inner
      ensures Valid() && Sound()
      ensures outputGen == CurrentGeneration(base) && mark == Updates(base)
      ensures Value(base) == old(Value(base)) && Updates(base) == old(Updates(base))
      ensures output.inner == old(output.inner) && output.inner.value == fn(Value(base))
      ensures output.generation == WrappingInc(old(output.generation))
      ensures output.updates == old(output.updates) + 1
    {
      GenerationCountsUpdates(base);
      Publish(fn(Value(base)));
      outputGen := CurrentGeneration(base);
      mark := Updates(base);
    }

    /** Stores a new output and bumps the output signal, as `Signal::set` on
        the output would; the source reads the same afterwards. */
    method Publish(v: U)
      requires Valid()
      modifies output, output.inner
      ensures Valid()
      ensures output.inner == old(output.inner) && output.inner.value == v
      ensures output.generation == WrappingInc(old(output.generation))
      ensures output.updates == old(output.updates) + 1
      ensures Value(base) == old(Value(base)) && Updates(base) == old(Updates(base))
      ensures CurrentGeneration(base) == old(CurrentGeneration(base))
    {
      FrameAllocated(base);
      output.FlagUpdated();
      var cell := output.Deref();
      cell.value := v;
    }

    /** `as_derive_base` for a view: a reference to its output signal. */
    function AsDeriveBase(): (src: Source<U>)
      reads this, output
      ensures Aliased(src) == {output} && Frame(src) == {output, output.inner}
      ensures Value(src) == Atom(output.inner.value)
      ensures CurrentGeneration(src) == Atom(output.generation)
    {
      DerivedSignalRef(output)
    }
  }

  /** `as_derive_base` for a signal: a non-owning reference to it. */
  function SignalAsDeriveBase<T>(s: Signal<T>): (src: Source<T>)
    reads s
    ensures Aliased(src) == {s} && Frame(src) == {s}
    ensures Value(src) == Atom(s.inner) && CurrentGeneration(src) == Atom(s.generation)
  {
    SignalRef(s)
  }

  /** `as_derive_base` for a pair: the pair of the members' sources. */
  function PairAsDeriveBase<T>(a: Source<T>, b: Source<T>): (src: Source<T>)
    reads Aliased(a), Aliased(b), Frame(a), Frame(b)
    ensures Aliased(src) == Aliased(a) + Aliased(b)
    ensures Value(src) == Couple(Value(a), Value(b))
    ensures CurrentGeneration(src) == Couple(CurrentGeneration(a), CurrentGeneration(b))
  {
    PairRef(a, b)
  }

  /** `Derive::derive`: a new view over the given source. */
  method Derive<T, U>(base: Source<T>, fn: Nested<T> -> U) returns (d: Derived<T, U>)
    requires Consistent(base)
    ensures d.Valid() && d.Sound()
    ensures d.base == base && d.fn == fn
    ensures fresh(d) && fresh(d.output) && fresh(d.output.inner)
    ensures d.output.inner.value == fn(Value(base))
    ensures d.output.generation == 1 && d.output.updates == 0
    ensures d.outputGen == CurrentGeneration(base) && d.mark == Updates(base)
    ensures !d.InputChanged()
  {
    d := new Derived(base, fn);
  }
}
