/** Generation counters: Rust's `u32` and its wrapping increment. */
module Counter {

  /** Rust's `u32`, the type of a signal's generation counter. */
  newtype u32 = x: int | 0 <= x < 0x1_0000_0000

  /** 2^32: generation arithmetic is modulo this. */
  const Modulus: nat := 0x1_0000_0000

  /** `u32::wrapping_add(1)`: the successor, where 0xFFFF_FFFF wraps round to 0. */
  function WrappingInc(g: u32): (r: u32)
    ensures r as int == (g as int + 1) % Modulus
    ensures r != g
  {
    if g == 0xFFFF_FFFF then 0 else g + 1
  }

  /** The counter value reached from 0 after n wrapping increments. */
  function Wrap(n: nat): u32 {
    (n % Modulus) as u32
  }

  /** One more increment advances Wrap by exactly one wrapping step. */
  lemma WrapSucc(n: nat)
    ensures Wrap(n + 1) == WrappingInc(Wrap(n))
  {
  }

  /** Fewer than 2^32 increments never bring a counter back to where it was;
      2^32 of them always do (the wrap-around that `wrapping_add` accepts). */
  lemma WrapInjective(a: nat, b: nat)
    requires a <= b
    ensures b < a + Modulus ==> (Wrap(a) == Wrap(b) <==> a == b)
    ensures b == a + Modulus ==> Wrap(a) == Wrap(b)
  {
  }
}
