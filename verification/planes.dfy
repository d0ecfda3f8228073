/**
  The bit-plane encoder of the monitor daemon (`format_pwms`).

  Every brightness is quantised to a `pwm_res`-bit level, and the sixteen
  levels are transposed into `pwm_res` frames of sixteen bits: frame `i`
  holds bit `i` of every output's level, frame 0 being the least significant.
  The renderer later shows frame `i` for a time proportional to 2^i, which
  turns the frames back into brightness.

  A frame (`std::bitset<16>`) is written out as its 16 bits, bit `j` (the bit
  for driver output `j`) at index `j`.
*/
module Planes {
  import opened Common

  /** Bit depth of the PWM driver (`pwm_res`). */
  const PwmRes: nat := 6

  /** Bits per frame: one per driver output. */
  const FrameBits: nat := 16

  /** One bit plane for the 16 driver outputs. */
  type Frame = f: seq<bool> | |f| == FrameBits witness seq(16, _ => false)

  /** The largest level, `2^pwm_res - 1`; brightness 1 maps to it. */
  function MaxLevel(): (m: nat)
    ensures m + 1 == Pow2(PwmRes)
  {
    Pow2(PwmRes) - 1
  }

  /** One past the largest `uint16_t`. */
  const Uint16Limit: real := 65536.0

  /**
    `static_cast<uint16_t>(f * (2^pwm_res - 1))`: the scaled brightness
    truncated toward zero. The conversion is undefined when the truncated value
    does not fit in 16 bits (`None`).
  */
  function Quantise(f: real): (r: Option<nat>)
    ensures r.Some? <==> -1.0 < f * (MaxLevel() as real) < Uint16Limit
    ensures r.Some? && f >= 0.0 ==>
              r.value as real <= f * (MaxLevel() as real) < r.value as real + 1.0
    ensures r.Some? && f < 0.0 ==> r.value == 0
  {
    var x := f * (MaxLevel() as real);
    if x <= -1.0 || x >= Uint16Limit then None
    else if x < 0.0 then Some(0)
    else Some(x.Floor)
  }

  /** Brightnesses from 0 to 1 give levels from 0 to the maximum; only full brightness reaches it. */
  lemma QuantiseUnitRange(f: real)
    requires 0.0 <= f <= 1.0
    ensures Quantise(f).Some? && Quantise(f).value <= MaxLevel()
    ensures Quantise(f).value == MaxLevel() <==> f == 1.0
  {
    var x := f * (MaxLevel() as real);
    assert MaxLevel() == 63;
    assert x <= 63.0;
  }

  /** Quantises every brightness, or fails if any conversion is undefined. */
  function QuantiseAll(pwms: seq<real>): (r: Option<seq<nat>>)
    ensures r.Some? <==> forall k :: 0 <= k < |pwms| ==> Quantise(pwms[k]).Some?
    ensures r.Some? ==> |r.value| == |pwms|
    ensures r.Some? ==> forall k :: 0 <= k < |pwms| ==> r.value[k] == Quantise(pwms[k]).value
  {
    if |pwms| == 0 then Some([])
    else
      match (QuantiseAll(pwms[..|pwms| - 1]), Quantise(pwms[|pwms| - 1]))
      case (Some(init), Some(last)) => Some(init + [last])
      case _ => None
  }

  /** Frame `i`: bit `i` of the level of each of the first 16 outputs. */
  function PlaneOf(levels: seq<nat>, i: nat): (f: Frame)
    requires |levels| >= FrameBits
  {
    seq(FrameBits, j requires 0 <= j < FrameBits => Bit(levels[j], i))
  }

  /**
    `format_pwms`: quantise each brightness and transpose the first 16 levels
    into `pwm_res` frames. Undefined (`None`) when a conversion overflows or
    there are fewer than 16 brightnesses to read.
  */
  function FormatPwms(pwms: seq<real>): (r: Option<seq<Frame>>)
    ensures r.Some? <==> |pwms| >= FrameBits && forall k :: 0 <= k < |pwms| ==> Quantise(pwms[k]).Some?
    ensures r.Some? ==> |r.value| == PwmRes
    ensures r.Some? ==> forall i, j :: 0 <= i < PwmRes && 0 <= j < FrameBits ==>
              r.value[i][j] == Bit(Quantise(pwms[j]).value, i)
  {
    match QuantiseAll(pwms)
    case None => None
    case Some(levels) =>
      if |levels| < FrameBits then None
      else Some(seq(PwmRes, i requires 0 <= i < PwmRes => PlaneOf(levels, i)))
  }

  /**
    The level of output `j` read back from the first `k` frames: bit `i`
    weighs 2^i, as it does in the time the renderer shows frame `i`.
  */
  function Rebuild(planes: seq<Frame>, j: nat, k: nat): (v: nat)
    requires j < FrameBits && k <= |planes|
    decreases k
  {
    if k == 0 then 0 else Rebuild(planes, j, k - 1) + (if planes[k - 1][j] then Pow2(k - 1) else 0)
  }

  /** Frames holding the bits of `n` for output `j` rebuild `n` modulo 2^k. */
  lemma {:induction false} RebuildBits(planes: seq<Frame>, j: nat, k: nat, n: nat)
    requires j < FrameBits && k <= |planes|
    requires forall i :: 0 <= i < k ==> planes[i][j] == Bit(n, i)
    ensures Rebuild(planes, j, k) == LowBits(n, k)
    decreases k
  {
    if k > 0 {
      RebuildBits(planes, j, k - 1, n);
    }
  }

  /**
    Reading the frames back gives each output's level modulo 2^pwm_res: a
    level that does not fit in `pwm_res` bits wraps around.
  */
  lemma FormatPwmsRoundTrip(pwms: seq<real>, j: nat)
    requires FormatPwms(pwms).Some? && j < FrameBits
    ensures Rebuild(FormatPwms(pwms).value, j, PwmRes) == Quantise(pwms[j]).value % Pow2(PwmRes)
  {
    var n := Quantise(pwms[j]).value;
    RebuildBits(FormatPwms(pwms).value, j, PwmRes, n);
    LowBitsIsMod(n, PwmRes);
  }

  /** In the unit range every brightness comes back as its own level. */
  lemma FormatPwmsUnitRoundTrip(pwms: seq<real>, j: nat)
    requires |pwms| >= FrameBits && j < FrameBits
    requires forall k :: 0 <= k < |pwms| ==> 0.0 <= pwms[k] <= 1.0
    ensures FormatPwms(pwms).Some?
    ensures Rebuild(FormatPwms(pwms).value, j, PwmRes) == Quantise(pwms[j]).value
  {
    forall k | 0 <= k < |pwms|
      ensures Quantise(pwms[k]).Some?
    {
      QuantiseUnitRange(pwms[k]);
    }
    var n := Quantise(pwms[j]).value;
    QuantiseUnitRange(pwms[j]);
    ModUnique(n, Pow2(PwmRes), 0, n);
    FormatPwmsRoundTrip(pwms, j);
  }

  /**
    Brightness above 1 wraps instead of saturating: brightness 2 has level 126,
    which is read back as 62, dimmer than full brightness (63).
  */
  lemma AboveOneWraps()
    ensures Quantise(2.0) == Some(126)
    ensures 126 % Pow2(PwmRes) == 62 < MaxLevel()
  {
    assert MaxLevel() == 63;
  }
}
