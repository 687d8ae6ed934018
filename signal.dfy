/** `Signal<T>`: a value plus a generation counter bumped on every mutable access. */
module Signals {
  import opened Counter

  /** Rust's `std::cell::Cell<T>`: a slot whose value can be replaced through a
      shared reference. A `Derived` keeps its cached output in one. */
  class Cell<T> {
    var value: T

    constructor (value: T)
      ensures this.value == value
    {
      this.value := value;
    }
  }

  class Signal<T> {
    var inner: T
    var generation: u32
    /** How many times `flag_updated` has run since construction. */
    ghost var updates: nat

    /** The counter is the number of updates, offset by the initial 1, modulo 2^32. */
    ghost predicate Valid()
      reads this
    {
      generation == Wrap(1 + updates)
    }

    /** `Signal::new`: the generation starts at 1. */
    constructor (value: T)
      ensures Valid()
      ensures inner == value && generation == 1 && updates == 0
    {
      inner := value;
      generation := 1;
      updates := 0;
    }

    /** `flag_updated`: one wrapping increment of the generation; the value stays. */
    method FlagUpdated()
      requires Valid()
      modifies this
      ensures Valid()
      ensures generation == WrappingInc(old(generation)) && updates == old(updates) + 1
      ensures inner == old(inner)
    {
      WrapSucc(1 + updates);
      generation := WrappingInc(generation);
      updates := updates + 1;
    }

    /** `set`: bumps the generation, then replaces the value. */
    method Set(value: T)
      requires Valid()
      modifies this
      ensures Valid()
      ensures inner == value
      ensures generation == WrappingInc(old(generation)) && updates == old(updates) + 1
    {
      FlagUpdated();
      inner := value;
    }

    /** `get`: the value, read without touching the generation. */
    method Get() returns (r: T)
      ensures r == inner
    {
      r := inner;
    }

    /** `generation`: the current counter. */
    method Generation() returns (g: u32)
      ensures g == generation
    {
      g := generation;
    }

    /** `Deref::deref`: a read through `get`. */
    method Deref() returns (r: T)
      ensures r == inner
    {
      r := Get();
    }

    /** `get_mut`: bumps the generation before handing out the value for writing,
        whether or not the caller then writes. */
    method GetMut() returns (r: T)
      requires Valid()
      modifies this
      ensures Valid()
      ensures r == inner && inner == old(inner)
      ensures generation == WrappingInc(old(generation)) && updates == old(updates) + 1
    {
      FlagUpdated();
      r := inner;
    }

    /** `*signal = update(*signal)` through `DerefMut::deref_mut`, which is
        `get_mut`: one bump, then the write through the borrow. */
    method DerefMutUpdate(update: T -> T)
      requires Valid()
      modifies this
      ensures Valid()
      ensures inner == update(old(inner))
      ensures generation == WrappingInc(old(generation)) && updates == old(updates) + 1
    {
      var current := GetMut();
      inner := update(current);
    }
  }
}
