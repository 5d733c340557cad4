/** Rounding, and the eight-bit quantiser with error feedback (src/rtl_tcp.c).
    Floats are exact reals here. */
module Quantiser {
  import opened Frame

  /** `lrint` in the default rounding mode: to nearest, ties to even. */
  function Round(x: real): (r: int)
    ensures -0.5 <= x - r as real <= 0.5
    ensures x - r as real == 0.5 || x - r as real == -0.5 ==> r % 2 == 0
  {
    var f := x.Floor;
    var d := x - f as real;
    if d < 0.5 then f
    else if d > 0.5 then f + 1
    else if f % 2 == 0 then f else f + 1
  }

  /** The level a sample should have: full scale mapped to 0..255, clamped. */
  function Level(value: real): (r: real)
    ensures 0.0 <= r <= 255.0
  {
    var v := value / 32768.0;
    var clamped := if v < -1.0 then -1.0 else if v > 1.0 then 1.0 else v;
    clamped * 127.5 + 127.5
  }

  /** Silence is the middle level, full scale either end, and in between the level
      follows the sample in proportion; outside full scale it stays at the end. */
  lemma LevelIs(value: real)
    ensures -32_768.0 <= value <= 32_768.0 ==> (Level(value) - 127.5) * 32_768.0 == value * 127.5
    ensures value >= 32_768.0 ==> Level(value) == 255.0
    ensures value <= -32_768.0 ==> Level(value) == 0.0
  {
  }

  /** One quantised sample and the error carried to the next. */
  datatype Quantum = Quantum(byte: Byte, error: real)

  ghost predicate SmallError(e: real) {
    -0.5 <= e <= 0.5
  }

  function Encode(value: real, error: real): (r: Quantum)
    requires SmallError(error)
    ensures SmallError(r.error)
    ensures r.byte as real + r.error == Level(value) + error
  {
    var target := Level(value) + error;
    var encoded := Round(target);
    var byte := if encoded < 0 then 0 else if encoded > 255 then 255 else encoded;
    RoundInRange(target);
    Quantum(byte, target - byte as real)
  }

  /** The clamp never adds error: only a tie at either end is clamped. */
  lemma RoundInRange(target: real)
    requires -0.5 <= target <= 255.5
    ensures 0 <= Round(target) <= 256 && (Round(target) == 256 ==> target == 255.5)
  {
    var f := target.Floor;
    if f < 0 {
      assert f == -1;
    }
  }

  /** A run of the quantiser from a carried error. */
  function EncodeAll(values: seq<real>, error: real): (r: (seq<Byte>, real))
    requires SmallError(error)
    ensures |r.0| == |values| && SmallError(r.1)
  {
    if values == [] then ([], error)
    else
      var (bytes, carried) := EncodeAll(values[..|values| - 1], error);
      var q := Encode(values[|values| - 1], carried);
      (bytes + [q.byte], q.error)
  }

  function SumBytes(bytes: seq<Byte>): int {
    if bytes == [] then 0 else SumBytes(bytes[..|bytes| - 1]) + bytes[|bytes| - 1] as int
  }

  function SumLevels(values: seq<real>): real {
    if values == [] then 0.0 else SumLevels(values[..|values| - 1]) + Level(values[|values| - 1])
  }

  /** However long it runs, the emitted bytes add up to the ideal levels up to
      the carried errors; from a reset they are never more than 1/2 apart. */
  lemma {:induction false} NoDrift(values: seq<real>, error: real)
    requires SmallError(error)
    ensures var (bytes, carried) := EncodeAll(values, error);
            SumBytes(bytes) as real + carried == SumLevels(values) + error
    ensures error == 0.0 ==>
              -0.5 <= SumBytes(EncodeAll(values, error).0) as real - SumLevels(values) <= 0.5
  {
    if values != [] {
      var front := values[..|values| - 1];
      NoDrift(front, error);
      var (bytes, carried) := EncodeAll(front, error);
      var q := Encode(values[|values| - 1], carried);
      assert (bytes + [q.byte])[..|bytes|] == bytes;
    }
  }
}
