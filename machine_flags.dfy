/** The machine record's constants: the flag bits of the `flags` word, the string buffer
    sizes, and the tick arithmetic on the 32-bit `tPong` timestamp. */
module MachineFlags {
  import opened DataSource

  /** The five named bits of the flag word, as their numeric values. */
  const ENABLED: u32 := 0x01    // try to contact the machine
  const BUSY: u32 := 0x02       // machine offline or busy
  const DETACHING: u32 := 0x04  // machine being detached
  const DETACHED1: u32 := 0x08  // the connection thread has exited
  const DETACHED2: u32 := 0x10  // the inactivity thread has exited
  const DETACHED: u32 := 0x18   // both completion bits

  /** Buffer sizes of the string fields, terminator included. */
  const HOSTNAME_MAX: nat := 128
  const PORT_MAX: nat := 16
  const USERNAME_MAX: nat := 64
  const PASSWORD_MAX: nat := 64
  const DESCR_MAX: nat := 256

  /** The bits of the flag word above the five named ones. */
  newtype Upper = x: int | 0 <= x < 0x800_0000

  /** The flag word, bit by bit: one field per named bit, and the remaining 27 bits,
      which the machine code never touches, carried along as one number. The DETACHED
      mask of the source is the pair `detached1`, `detached2`. */
  datatype Flags = Flags(enabled: bool, busy: bool, detaching: bool,
                         detached1: bool, detached2: bool, upper: Upper)

  const NO_FLAGS := Flags(false, false, false, false, false, 0)

  function Bit(b: bool): (n: nat)
    ensures n < 2
  {
    if b then 1 else 0
  }

  /** The Uint32 a flag word denotes: bit 0 is ENABLED, bit 4 is DETACHED2, the upper
      bits from bit 5 on. */
  function Word(f: Flags): (n: u32)
    ensures n as int == Bit(f.enabled) + 2 * Bit(f.busy) + 4 * Bit(f.detaching)
                        + 8 * Bit(f.detached1) + 16 * Bit(f.detached2) + 32 * f.upper as int
  {
    (Bit(f.enabled) + 2 * Bit(f.busy) + 4 * Bit(f.detaching) + 8 * Bit(f.detached1)
     + 16 * Bit(f.detached2) + 32 * f.upper as int) as u32
  }

  /** `k` split into its lowest bit `r` and the rest `q`. */
  lemma Halve(k: int, r: int, q: int)
    requires 0 <= r < 2 && k == r + 2 * q
    ensures k % 2 == r && k / 2 == q
  {
  }

  /** Euclidean division by two splits off the lowest bit. */
  lemma LowBit(k: int)
    ensures 0 <= k % 2 < 2 && k == k % 2 + 2 * (k / 2)
  {
  }

  /** The flag word a Uint32 denotes, bit by bit, lowest bit first. Reading it back
      into a number gives the same number. */
  function FromWord(n: u32): (f: Flags)
    ensures Word(f) == n
  {
    var k0 := n as int;
    var k1 := k0 / 2;
    var k2 := k1 / 2;
    var k3 := k2 / 2;
    var k4 := k3 / 2;
    var k5 := k4 / 2;
    LowBit(k0);
    LowBit(k1);
    LowBit(k2);
    LowBit(k3);
    LowBit(k4);
    Flags(k0 % 2 == 1, k1 % 2 == 1, k2 % 2 == 1, k3 % 2 == 1, k4 % 2 == 1, k5 as Upper)
  }

  /** Writing a flag word and reading it back is the identity; with FromWord's own
      contract, Word and FromWord are inverse bijections. */
  lemma FlagsThroughWord(f: Flags)
    ensures FromWord(Word(f)) == f
  {
    var k0 := Word(f) as int;
    var q1 := Bit(f.busy) + 2 * Bit(f.detaching) + 4 * Bit(f.detached1) + 8 * Bit(f.detached2)
              + 16 * f.upper as int;
    var q2 := Bit(f.detaching) + 2 * Bit(f.detached1) + 4 * Bit(f.detached2) + 8 * f.upper as int;
    var q3 := Bit(f.detached1) + 2 * Bit(f.detached2) + 4 * f.upper as int;
    var q4 := Bit(f.detached2) + 2 * f.upper as int;
    Halve(k0, Bit(f.enabled), q1);
    Halve(q1, Bit(f.busy), q2);
    Halve(q2, Bit(f.detaching), q3);
    Halve(q3, Bit(f.detached1), q4);
    Halve(q4, Bit(f.detached2), f.upper as int);
  }

  /** Each named constant is a single bit, its own and no other: the five are pairwise
      disjoint, so setting or clearing one never disturbs another. */
  lemma FlagsAreDistinctBits()
    ensures FromWord(ENABLED) == NO_FLAGS.(enabled := true)
    ensures FromWord(BUSY) == NO_FLAGS.(busy := true)
    ensures FromWord(DETACHING) == NO_FLAGS.(detaching := true)
    ensures FromWord(DETACHED1) == NO_FLAGS.(detached1 := true)
    ensures FromWord(DETACHED2) == NO_FLAGS.(detached2 := true)
    ensures FromWord(DETACHED) == NO_FLAGS.(detached1 := true, detached2 := true)
    ensures DETACHED == DETACHED1 + DETACHED2
    ensures Word(NO_FLAGS) == 0
  {
  }

  /** Milliseconds since `tPong` as the Uint32 subtraction `now - tPong` computes it:
      modulo 2^32, so a tick counter that wrapped still gives the short interval. */
  function Elapsed(now: u32, tPong: u32): (e: u32)
    ensures now >= tPong ==> e == now - tPong
    ensures now < tPong ==> e as int == 0x1_0000_0000 - (tPong - now) as int
  {
    ((now as int - tPong as int) % 0x1_0000_0000) as u32
  }
}
