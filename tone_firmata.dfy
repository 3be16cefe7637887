/** The Arduino side of the custom tone command (toneFirmata.cpp): the sysex
    handler that turns a data payload into a call of the core library's
    `tone` or `noTone`. The two calls are returned as a `Command` value. */
module ToneFirmata {

  /** An unsigned 8-bit value, the C type `byte`. */
  newtype byte = x: int | 0 <= x < 256

  datatype Option<T> = None | Some(value: T)

  /** The call the handler makes: `tone(pin, frequency, duration)` or `noTone(pin)`. */
  datatype Command =
    | Tone(pin: byte, frequency: nat, duration: nat)
    | NoTone(pin: byte)

  /** 2^k. */
  function Pow2(k: nat): (p: nat)
    ensures p >= 1
  {
    if k == 0 then 1 else 2 * Pow2(k - 1)
  }

  /** C's bitwise or `a | b` on non-negative integers, bit by bit from the
      least significant end. */
  function BitOr(a: nat, b: nat): nat
    decreases a + b
  {
    if a == 0 then b
    else if b == 0 then a
    else 2 * BitOr(a / 2, b / 2) + (if a % 2 == 1 || b % 2 == 1 then 1 else 0)
  }

  /** Or-ing a value below 2^k into a multiple of 2^k is addition: the bits
      do not overlap. */
  lemma {:induction false} BitOrDisjoint(a: nat, b: nat, k: nat)
    requires a < Pow2(k)
    ensures BitOr(a, b * Pow2(k)) == a + b * Pow2(k)
  {
    if k == 0 || a == 0 || b == 0 {
    } else {
      assert b * Pow2(k) == 2 * (b * Pow2(k - 1));
      BitOrDisjoint(a / 2, b, k - 1);
    }
  }

  /** Or-ing two values below 2^n stays below 2^n. */
  lemma {:induction false} BitOrBound(a: nat, b: nat, n: nat)
    requires a < Pow2(n) && b < Pow2(n)
    ensures BitOr(a, b) < Pow2(n)
    decreases a + b
  {
    if a == 0 || b == 0 {
    } else {
      BitOrBound(a / 2, b / 2, n - 1);
    }
  }

  /** `lo | (hi << 7)` evaluated in C `int` (16 bits on the AVR boards): both
      bytes are promoted to `int` before the shift, so no bit of `hi` is lost
      and the result stays below 2^15. */
  function Join7(lo: byte, hi: byte): (v: nat)
    ensures v < 0x8000
    ensures lo < 128 ==> v == lo as int + 128 * hi as int
  {
    assert Pow2(7) == 128 && Pow2(15) == 0x8000;
    BitOrBound(lo as nat, hi as nat * 128, 15);
    if lo < 128 then BitOrDisjoint(lo as nat, hi as nat, 7); BitOr(lo as nat, hi as nat * 128)
    else BitOr(lo as nat, hi as nat * 128)
  }

  /** `toneFirmata_sysex(argc, argv)`, with the payload given as the
      sequence of its `argc` bytes. `None` is the early return for a payload
      shorter than five bytes. */
  function HandleSysex(argv: seq<byte>): (c: Option<Command>)
    ensures c.None? <==> |argv| < 5
    ensures c.Some? ==> c.value.pin == argv[0]
    ensures c.Some? && c.value.Tone? ==> 0 < c.value.frequency < 0x8000 && c.value.duration < 0x8000
  {
    if |argv| < 5 then None
    else
      var pin := argv[0];
      var frequency := Join7(argv[1], argv[2]);
      var duration := Join7(argv[3], argv[4]);
      if frequency > 0 then Some(Tone(pin, frequency, duration)) else Some(NoTone(pin))
  }

  /** Firmata data bytes carry 7 bits. */
  predicate SevenBit(argv: seq<byte>)
  {
    forall i :: 0 <= i < |argv| ==> argv[i] < 128
  }

  /** With 7-bit data bytes the handler rebuilds both 14-bit values from
      their low/high pairs and calls `tone` exactly when the frequency is
      positive; otherwise `noTone` on the same pin, the duration unused. */
  lemma HandleSevenBit(argv: seq<byte>)
    requires 5 <= |argv|
    requires SevenBit(argv)
    ensures var frequency := argv[1] as int + 128 * argv[2] as int;
            var duration := argv[3] as int + 128 * argv[4] as int;
            && frequency < 16384 && duration < 16384
            && HandleSysex(argv) ==
                 if frequency > 0 then Some(Tone(argv[0], frequency, duration))
                 else Some(NoTone(argv[0]))
  {
    assert argv[1] < 128 && argv[2] < 128 && argv[3] < 128 && argv[4] < 128;
  }
}
