/** Derivable sources: what a `Derived` reads from. A source reports a generation
    marker and a value; a plain signal, a derived view's output signal, and a
    pair of sources are the three kinds. */
module Sources {
  import opened Counter
  import opened Signals

  /** One marker or value per aliased signal: a single one for a signal reference,
      a couple of them for a pair. Used for generations (`u32`), values (`T`) and
      ghost update counts (`nat`). */
  datatype Nested<X> = Atom(atom: X) | Couple(left: Nested<X>, right: Nested<X>)

  /** A generation marker: `u32` for a signal reference, a tuple for a pair. */
  type Gen = Nested<u32>

  /** The three kinds of derivable source. The references do not own the signal
      they alias; every aliased signal is taken to be alive. */
  datatype Source<T> =
    | SignalRef(signal: Signal<T>)
    | DerivedSignalRef(output: Signal<Cell<T>>)
    | PairRef(first: Source<T>, second: Source<T>)

  /** The marker or value `n` has the shape that the source `src` produces. */
  predicate Fits<T, X>(src: Source<T>, n: Nested<X>) {
    match src
    case PairRef(a, b) => n.Couple? && Fits(a, n.left) && Fits(b, n.right)
    case _ => n.Atom?
  }

  /** The signals a source aliases. */
  function Aliased<T>(src: Source<T>): set<object> {
    match src
    case SignalRef(s) => {s}
    case DerivedSignalRef(o) => {o}
    case PairRef(a, b) => Aliased(a) + Aliased(b)
  }

  /** Everything reading the source's value touches: the aliased signals and, for
      a derived view's output, the cell inside it. */
  ghost function Frame<T>(src: Source<T>): (fr: set<object>)
    reads Aliased(src)
    ensures Aliased(src) <= fr
  {
    match src
    case SignalRef(s) => {s}
    case DerivedSignalRef(o) => {o, o.inner}
    case PairRef(a, b) => Frame(a) + Frame(b)
  }

  /** Every object a source reads is allocated. */
  lemma {:induction false} FrameAllocated<T>(src: Source<T>)
    ensures forall o | o in Aliased(src) :: allocated(o)
    ensures forall o | o in Frame(src) :: allocated(o)
  {
    match src
    case SignalRef(_) =>
    case DerivedSignalRef(_) =>
    case PairRef(a, b) =>
      FrameAllocated(a);
      FrameAllocated(b);
  }

  /** `current_generation`: the aliased signal's counter, or the pair of the
      members' markers. */
  function CurrentGeneration<T>(src: Source<T>): (g: Gen)
    reads Aliased(src)
    ensures Fits(src, g)
  {
    match src
    case SignalRef(s) => Atom(s.generation)
    case DerivedSignalRef(o) => Atom(o.generation)
    case PairRef(a, b) => Couple(CurrentGeneration(a), CurrentGeneration(b))
  }

  /** `compare_generation`: a reference compares its current generation with the
      one given; a pair asks both members and takes the conjunction. Either way
      this is structural equality with the current marker. */
  function CompareGeneration<T>(src: Source<T>, other: Gen): (same: bool)
    reads Aliased(src)
    requires Fits(src, other)
    ensures same <==> CurrentGeneration(src) == other
  {
    match src
    case SignalRef(_) => CurrentGeneration(src) == other
    case DerivedSignalRef(_) => CurrentGeneration(src) == other
    case PairRef(a, b) => CompareGeneration(a, other.left) && CompareGeneration(b, other.right)
  }

  /** `get`: a copy of the aliased signal's value, the value in a derived view's
      output cell, or the pair of the members' values. */
  function Value<T>(src: Source<T>): (v: Nested<T>)
    reads Aliased(src), Frame(src)
    ensures Fits(src, v)
  {
    match src
    case SignalRef(s) => Atom(s.inner)
    case DerivedSignalRef(o) => Atom(o.inner.value)
    case PairRef(a, b) => Couple(Value(a), Value(b))
  }

  /** How many times each aliased signal has been updated. */
  ghost function Updates<T>(src: Source<T>): (t: Nested<nat>)
    reads Aliased(src)
    ensures Fits(src, t)
  {
    match src
    case SignalRef(s) => Atom(s.updates)
    case DerivedSignalRef(o) => Atom(o.updates)
    case PairRef(a, b) => Couple(Updates(a), Updates(b))
  }

  /** Every aliased signal keeps its counter invariant. */
  ghost predicate Consistent<T>(src: Source<T>)
    reads Aliased(src)
  {
    match src
    case SignalRef(s) => s.Valid()
    case DerivedSignalRef(o) => o.Valid()
    case PairRef(a, b) => Consistent(a) && Consistent(b)
  }

  /** The generation marker that a tree of update counts corresponds to. */
  function Wrapped(t: Nested<nat>): Gen {
    match t
    case Atom(n) => Atom(Wrap(1 + n))
    case Couple(l, r) => Couple(Wrapped(l), Wrapped(r))
  }

  /** `now` has the shape of `mark` and every count in it is at least the one
      in `mark` and fewer than 2^32 above it. */
  ghost predicate Within(now: Nested<nat>, mark: Nested<nat>) {
    match mark
    case Atom(m) => now.Atom? && m <= now.atom < m + Modulus
    case Couple(l, r) => now.Couple? && Within(now.left, l) && Within(now.right, r)
  }

  /** A pair counts as changed exactly when one of its members has changed. */
  lemma PairChangedIffMemberChanged<T>(a: Source<T>, b: Source<T>, ga: Gen, gb: Gen)
    requires Fits(a, ga) && Fits(b, gb)
    ensures !CompareGeneration(PairRef(a, b), Couple(ga, gb))
        <==> CurrentGeneration(a) != ga || CurrentGeneration(b) != gb
  {
  }

  /** Each aliased signal's generation is its update count, offset by 1, modulo 2^32. */
  lemma {:induction false} GenerationCountsUpdates<T>(src: Source<T>)
    requires Consistent(src)
    ensures CurrentGeneration(src) == Wrapped(Updates(src))
  {
    match src
    case SignalRef(_) =>
    case DerivedSignalRef(_) =>
    case PairRef(a, b) =>
      GenerationCountsUpdates(a);
      GenerationCountsUpdates(b);
  }

  /** Fewer than 2^32 updates per signal leave distinct markers distinct. */
  lemma {:induction false} WrappedInjective(now: Nested<nat>, mark: Nested<nat>)
    requires Within(now, mark)
    ensures Wrapped(now) == Wrapped(mark) <==> now == mark
  {
    match mark
    case Atom(m) =>
      WrapInjective(1 + m, 1 + now.atom);
    case Couple(l, r) =>
      WrappedInjective(now.left, l);
      WrappedInjective(now.right, r);
  }

  /** The staleness test is exact while no aliased signal has been updated 2^32
      or more times since the baseline: comparing against the baseline's marker
      succeeds iff no aliased signal has been updated since. */
  lemma CompareDetectsUpdates<T>(src: Source<T>, mark: Nested<nat>)
    requires Consistent(src) && Fits(src, mark)
    requires Within(Updates(src), mark)
    ensures Fits(src, Wrapped(mark))
    ensures CompareGeneration(src, Wrapped(mark)) <==> Updates(src) == mark
  {
    WrappedFits(src, mark);
    GenerationCountsUpdates(src);
    WrappedInjective(Updates(src), mark);
  }

  lemma {:induction false} WrappedFits<T>(src: Source<T>, t: Nested<nat>)
    requires Fits(src, t)
    ensures Fits(src, Wrapped(t))
  {
    match src
    case PairRef(a, b) =>
      WrappedFits(a, t.left);
      WrappedFits(b, t.right);
    case _ =>
  }
}
