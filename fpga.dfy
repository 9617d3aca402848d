/** Value types shared by both host programs: the complex sample `float2`,
    the timing record `fpga_t` returned by the orchestrator, and the
    fixed-width integer arithmetic the C code relies on. */
module Fpga {

  /** A single-precision complex sample. Floating point is modelled by reals:
      the only values the core ever creates are small integers, which a
      `float` holds exactly. */
  datatype Float2 = Float2(x: real, y: real)

  /** `fpga_t`: timings in milliseconds and a validity flag (1 = valid). */
  datatype Timing = Timing(pcieReadMs: real, pcieWriteMs: real, execMs: real, valid: int)

  /** The record mTranspose starts from and returns when it rejects its input. */
  const NoTiming := Timing(0.0, 0.0, 0.0, 0)

  datatype Option<T> = None | Some(value: T)

  const Pow32: int := 0x1_0000_0000

  /** Reduction of an integer to a 32-bit `unsigned`, as C's conversion does. */
  function Wrap32(x: int): (r: nat)
    ensures r < Pow32
    ensures 0 <= x < Pow32 ==> r == x
    ensures (x - r) % Pow32 == 0
  {
    x % Pow32
  }

  /** C's signed division, which rounds toward zero: the remainder a - d * q is smaller
      than d in size and never has the opposite sign of a. */
  function TruncDiv(a: int, d: int): (q: int)
    requires d > 0
    ensures 0 <= a ==> 0 <= a - d * q < d
    ensures a < 0 ==> -d < a - d * q <= 0
  {
    if 0 <= a then a / d else -((-a) / d)
  }

  /** Six readings of the monotonic millisecond clock taken by one orchestrated call,
      in the order the code samples them. */
  datatype Stamps = Stamps(t0: real, t1: real, t2: real, t3: real, t4: real, t5: real)

  /** The clock is monotonic: later readings are never smaller. */
  predicate Monotone(s: Stamps)
  {
    s.t0 <= s.t1 <= s.t2 <= s.t3 <= s.t4 <= s.t5
  }
}
