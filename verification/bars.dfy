/**
  The bar mapping of the monitor daemon: three smoothed readings (CPU load and
  RAM use in percent, SoC temperature in degrees Celsius) become brightness
  values for the 16 outputs of the LED driver.

  Each reading lights a group of five LEDs as a thermometer: the reading is cut
  into bands of `width` starting at `base`; every LED whose band is full is at
  full brightness, the LED of the first band that is not full gets the
  gamma-corrected fraction of that band, and the LEDs above it stay dark. The
  group's LEDs sit at driver outputs named by a layout vector. Brightness is a
  Dafny `real`; the gamma curve (`std::pow(x, 2.8)` in the C++) is a parameter.
*/
module Bars {
  import opened Common

  /** Outputs of the LED driver: one 16-bit shift register. */
  const Channels: nat := 16

  /** LEDs per bar. */
  const GroupSize: nat := 5

  /** Driver outputs of the CPU, RAM and temperature bars, lowest band first. */
  const CpuLayout: seq<nat> := [4, 3, 2, 1, 0]
  const RamLayout: seq<nat> := [9, 8, 7, 6, 5]
  const TempLayout: seq<nat> := [11, 10, 12, 13, 14]

  /** Per-colour intensity corrections; all three are 1 in the daemon. */
  const LedGreen: real := 1.0
  const LedYellow: real := 1.0
  const LedRed: real := 1.0

  /** One multiplier per driver output. The table has 15 entries for 16 outputs. */
  const Multipliers: seq<real> := [LedYellow, LedGreen, LedGreen, LedGreen, LedGreen,
                                   LedRed, LedYellow, LedGreen, LedGreen, LedGreen,
                                   LedGreen, LedGreen, LedYellow, LedRed, LedRed]

  /** Band geometry: CPU and RAM use bands of 20 from 0, temperature bands of 10 from 40. */
  const PercentWidth: real := 20.0
  const TempBase: real := 40.0
  const TempWidth: real := 10.0

  /** No output is named twice. */
  predicate Distinct(layout: seq<nat>) {
    forall i, j :: 0 <= i < j < |layout| ==> layout[i] != layout[j]
  }

  /** A layout that fits the outputs it is applied to. */
  predicate ValidLayout(layout: seq<nat>, outputs: nat) {
    && |layout| == GroupSize
    && Distinct(layout)
    && forall i :: 0 <= i < |layout| ==> layout[i] < outputs
  }

  /** Upper edge of band `i`. */
  function Threshold(base: real, width: real, i: nat): real {
    base + width * (i as real)
  }

  /** Band `j` is full: the reading is at or above its upper edge. */
  predicate Reached(v: real, base: real, width: real, j: nat) {
    v >= Threshold(base, width, j + 1)
  }

  /**
    `k` is the number of full bands of reading `v`: the first `k` bands are
    reached and, unless all five are, band `k` is not.
  */
  predicate FullBands(v: real, base: real, width: real, k: nat) {
    && k <= GroupSize
    && (forall j :: 0 <= j < k ==> Reached(v, base, width, j))
    && (k < GroupSize ==> !Reached(v, base, width, k))
  }

  /** Brightness of the partly lit LED of band `k`: gamma of the fraction of the band reached. */
  function Partial(v: real, base: real, width: real, gamma: real -> real, k: nat): (b: real)
    requires width > 0.0
  {
    gamma((v - Threshold(base, width, k)) / width)
  }

  /**
    `after` is `before` with the bar of reading `v` drawn on the outputs of
    `layout`, `k` bands being full.
  */
  predicate BarDrawn(before: seq<real>, after: seq<real>, layout: seq<nat>,
                     v: real, base: real, width: real, gamma: real -> real, k: nat)
    requires width > 0.0 && ValidLayout(layout, |before|)
  {
    && |after| == |before|
    && (forall c :: 0 <= c < |before| && c !in layout ==> after[c] == before[c])
    && (forall i :: 0 <= i < k && i < GroupSize ==> after[layout[i]] == 1.0)
    && (k < GroupSize ==> after[layout[k]] == Partial(v, base, width, gamma, k))
    && (forall i :: k < i < GroupSize ==> after[layout[i]] == before[layout[i]])
  }

  /**
    One bar loop of `led_pwms`: walk the bands from the lowest, light each full
    one, write the gamma-corrected fraction into the first one that is not full
    and stop there. Also returns how many bands were full.
  */
  method PlaceBar(out: seq<real>, layout: seq<nat>, v: real, base: real, width: real, gamma: real -> real)
    returns (r: seq<real>, full: nat)
    requires width > 0.0 && ValidLayout(layout, |out|)
    ensures FullBands(v, base, width, full)
    ensures BarDrawn(out, r, layout, v, base, width, gamma, full)
  {
    r := out;
    var i := 0;
    while i < GroupSize
      invariant 0 <= i <= GroupSize
      invariant |r| == |out|
      invariant forall j :: 0 <= j < i ==> Reached(v, base, width, j)
      invariant forall c :: 0 <= c < |out| && c !in layout[..i] ==> r[c] == out[c]
      invariant forall j :: 0 <= j < i ==> r[layout[j]] == 1.0
    {
      if Reached(v, base, width, i) {
        r := r[layout[i] := 1.0];
      } else {
        r := r[layout[i] := Partial(v, base, width, gamma, i)];
        full := i;
        assert forall c :: 0 <= c < |out| && c !in layout ==> c !in layout[..i];
        return;
      }
      i := i + 1;
    }
    full := GroupSize;
    assert layout[..i] == layout;
  }

  /** The number of full bands is determined by the reading. */
  lemma FullBandsUnique(v: real, base: real, width: real, k: nat, m: nat)
    requires FullBands(v, base, width, k) && FullBands(v, base, width, m)
    ensures k == m
  {
  }

  /**
    The number of full bands is the band index of the reading, `(v - base) / width`
    rounded down, clamped to 0 .. 5.
  */
  lemma FullBandsIsClampedFloor(v: real, base: real, width: real, k: nat)
    requires width > 0.0 && FullBands(v, base, width, k)
    ensures var q := ((v - base) / width).Floor;
            k == if q < 0 then 0 else if q > GroupSize then GroupSize else q
  {
    if k > 0 {
      assert Reached(v, base, width, k - 1);
      DivAtLeast(v - base, width, k as real);
    }
    if k < GroupSize {
      assert !Reached(v, base, width, k);
      DivAtLeast(v - base, width, (k + 1) as real);
    }
  }

  /** For a positive divisor, `d / w >= n` exactly when `d >= n * w`. */
  lemma DivAtLeast(d: real, w: real, n: real)
    requires w > 0.0
    ensures d >= n * w <==> d / w >= n
  {
    var x := d / w;
    assert d == x * w;
    if x >= n {
      assert x * w >= n * w;
    }
    if d >= n * w {
      assert x * w >= n * w;
    }
  }

  /** Sixteen dark outputs, as `std::vector<float> output(16)` starts. */
  function Dark(): (r: seq<real>)
    ensures |r| == Channels && forall c :: 0 <= c < Channels ==> r[c] == 0.0
  {
    seq(Channels, _ => 0.0)
  }

  /**
    The scaling loop as written: it runs over all 16 outputs and reads the
    multiplier table at each index, so with a shorter table the read at the
    first missing index is out of bounds and the result is undefined (`None`).
  */
  function ScaleAsWritten(out: seq<real>, mult: seq<real>): (r: Option<seq<real>>)
    requires |out| == Channels
    ensures r.Some? <==> |mult| >= Channels
    ensures r.Some? ==> r.value == Scale(out, mult)
  {
    if |mult| < Channels then None else Some(seq(Channels, i requires 0 <= i < Channels => out[i] * mult[i]))
  }

  /** The daemon's table is one entry short, so the scaling loop always reads past its end. */
  lemma ScalingReadsPastTable(out: seq<real>)
    requires |out| == Channels
    ensures |Multipliers| == Channels - 1
    ensures ScaleAsWritten(out, Multipliers) == None
  {
  }

  /**
    Scaling as intended: every output the table covers is multiplied by its
    entry, an output beyond the table is kept.
  */
  function Scale(out: seq<real>, mult: seq<real>): (r: seq<real>)
    ensures |r| == |out|
    ensures forall c :: 0 <= c < |out| && c < |mult| ==> r[c] == out[c] * mult[c]
    ensures forall c :: |mult| <= c < |out| ==> r[c] == out[c]
  {
    seq(|out|, c requires 0 <= c < |out| => if c < |mult| then out[c] * mult[c] else out[c])
  }

  /** Each layout names five distinct outputs of the driver. */
  lemma LayoutsValid()
    ensures ValidLayout(CpuLayout, Channels)
    ensures ValidLayout(RamLayout, Channels)
    ensures ValidLayout(TempLayout, Channels)
  {
  }

  /** No output belongs to two bars. */
  lemma LayoutsDisjoint()
    ensures forall i :: 0 <= i < GroupSize ==> CpuLayout[i] !in RamLayout && CpuLayout[i] !in TempLayout
    ensures forall i :: 0 <= i < GroupSize ==> RamLayout[i] !in TempLayout
  {
  }

  /** Together the bars cover outputs 0 .. 14; output 15 belongs to none of them. */
  lemma LayoutsCover()
    ensures forall c :: 0 <= c < Channels - 1 ==> c in CpuLayout || c in RamLayout || c in TempLayout
    ensures Channels - 1 !in CpuLayout && Channels - 1 !in RamLayout && Channels - 1 !in TempLayout
  {
    assert CpuLayout[4] == 0 && CpuLayout[3] == 1 && CpuLayout[2] == 2 && CpuLayout[1] == 3 && CpuLayout[0] == 4;
    assert RamLayout[4] == 5 && RamLayout[3] == 6 && RamLayout[2] == 7 && RamLayout[1] == 8 && RamLayout[0] == 9;
    assert TempLayout[1] == 10 && TempLayout[0] == 11 && TempLayout[2] == 12 && TempLayout[3] == 13 && TempLayout[4] == 14;
  }

  /**
    What a group of outputs shows for a reading with `k` full bands: full
    brightness below band `k`, the partial value at band `k`, dark above it.
  */
  predicate ShowsBar(out: seq<real>, layout: seq<nat>, v: real, base: real, width: real, gamma: real -> real, k: nat)
    requires width > 0.0 && ValidLayout(layout, |out|)
  {
    && (forall i :: 0 <= i < k && i < GroupSize ==> out[layout[i]] == 1.0)
    && (k < GroupSize ==> out[layout[k]] == Partial(v, base, width, gamma, k))
    && (forall i :: k < i < GroupSize ==> out[layout[i]] == 0.0)
  }

  /**
    The first two loops of `led_pwms`: the CPU and RAM bars drawn on dark
    outputs. The temperature outputs and output 15 stay dark.
  */
  method DrawPercentBars(cpu: real, ram: real, gamma: real -> real)
    returns (b: seq<real>, cpuFull: nat, ramFull: nat)
    ensures |b| == Channels
    ensures FullBands(cpu, 0.0, PercentWidth, cpuFull)
    ensures FullBands(ram, 0.0, PercentWidth, ramFull)
    ensures ShowsBar(b, CpuLayout, cpu, 0.0, PercentWidth, gamma, cpuFull)
    ensures ShowsBar(b, RamLayout, ram, 0.0, PercentWidth, gamma, ramFull)
    ensures forall i :: 0 <= i < GroupSize ==> b[TempLayout[i]] == 0.0
    ensures b[Channels - 1] == 0.0
  {
    LayoutsValid();
    LayoutsDisjoint();
    LayoutsCover();
    var a;
    a, cpuFull := PlaceBar(Dark(), CpuLayout, cpu, 0.0, PercentWidth, gamma);
    BarOnDark(Dark(), a, CpuLayout, cpu, 0.0, PercentWidth, gamma, cpuFull);
    b, ramFull := PlaceBar(a, RamLayout, ram, 0.0, PercentWidth, gamma);
    BarOnDark(a, b, RamLayout, ram, 0.0, PercentWidth, gamma, ramFull);
    BarKept(a, b, RamLayout, CpuLayout, cpu, 0.0, PercentWidth, gamma, cpuFull);
  }

  /**
    `led_pwms` with the scaling loop bounded by the table. `drawn` is the output
    vector before scaling: the CPU and RAM bars drawn on dark outputs and the
    temperature bar only when the temperature is above 40 degrees; `r` is
    `drawn` scaled by the multipliers.
  */
  method LedPwms(cpu: real, ram: real, temp: real, gamma: real -> real)
    returns (r: seq<real>, drawn: seq<real>, cpuFull: nat, ramFull: nat, tempFull: nat)
    ensures |r| == Channels && |drawn| == Channels
    ensures FullBands(cpu, 0.0, PercentWidth, cpuFull)
    ensures FullBands(ram, 0.0, PercentWidth, ramFull)
    ensures ShowsBar(drawn, CpuLayout, cpu, 0.0, PercentWidth, gamma, cpuFull)
    ensures ShowsBar(drawn, RamLayout, ram, 0.0, PercentWidth, gamma, ramFull)
    ensures temp > TempBase ==> FullBands(temp, TempBase, TempWidth, tempFull)
    ensures temp > TempBase ==> ShowsBar(drawn, TempLayout, temp, TempBase, TempWidth, gamma, tempFull)
    ensures temp <= TempBase ==> forall i :: 0 <= i < GroupSize ==> drawn[TempLayout[i]] == 0.0
    ensures drawn[Channels - 1] == 0.0
    ensures forall c :: 0 <= c < |Multipliers| ==> r[c] == drawn[c] * Multipliers[c]
    ensures r[Channels - 1] == 0.0
  {
    var b;
    b, cpuFull, ramFull := DrawPercentBars(cpu, ram, gamma);
    drawn, tempFull := DrawTempBar(b, cpu, ram, cpuFull, ramFull, temp, gamma);
    r := Scale(drawn, Multipliers);
  }

  /**
    The third loop of `led_pwms`: the temperature bar, drawn only above 40
    degrees, over the CPU and RAM bars already drawn in `b`.
  */
  method DrawTempBar(b: seq<real>, cpu: real, ram: real, cpuFull: nat, ramFull: nat, temp: real, gamma: real -> real)
    returns (drawn: seq<real>, tempFull: nat)
    requires |b| == Channels
    requires ShowsBar(b, CpuLayout, cpu, 0.0, PercentWidth, gamma, cpuFull)
    requires ShowsBar(b, RamLayout, ram, 0.0, PercentWidth, gamma, ramFull)
    requires forall i :: 0 <= i < GroupSize ==> b[TempLayout[i]] == 0.0
    requires b[Channels - 1] == 0.0
    ensures |drawn| == Channels
    ensures ShowsBar(drawn, CpuLayout, cpu, 0.0, PercentWidth, gamma, cpuFull)
    ensures ShowsBar(drawn, RamLayout, ram, 0.0, PercentWidth, gamma, ramFull)
    ensures temp > TempBase ==> FullBands(temp, TempBase, TempWidth, tempFull)
    ensures temp > TempBase ==> ShowsBar(drawn, TempLayout, temp, TempBase, TempWidth, gamma, tempFull)
    ensures temp <= TempBase ==> drawn == b
    ensures drawn[Channels - 1] == 0.0
  {
    if temp > TempBase {
      LayoutsValid();
      LayoutsDisjoint();
      drawn, tempFull := PlaceBar(b, TempLayout, temp, TempBase, TempWidth, gamma);
      BarOnDark(b, drawn, TempLayout, temp, TempBase, TempWidth, gamma, tempFull);
      BarKept(b, drawn, TempLayout, CpuLayout, cpu, 0.0, PercentWidth, gamma, cpuFull);
      BarKept(b, drawn, TempLayout, RamLayout, ram, 0.0, PercentWidth, gamma, ramFull);
      assert Channels - 1 !in TempLayout;
    } else {
      drawn, tempFull := b, 0;
    }
  }

  /** A bar drawn on outputs that were dark shows exactly the bar. */
  lemma BarOnDark(before: seq<real>, after: seq<real>, layout: seq<nat>,
                  v: real, base: real, width: real, gamma: real -> real, k: nat)
    requires width > 0.0 && ValidLayout(layout, |before|)
    requires BarDrawn(before, after, layout, v, base, width, gamma, k)
    requires forall i :: 0 <= i < GroupSize ==> before[layout[i]] == 0.0
    ensures ShowsBar(after, layout, v, base, width, gamma, k)
  {
  }

  /** Drawing a bar on `layout` leaves a bar shown on a disjoint layout `other` as it was. */
  lemma BarKept(before: seq<real>, after: seq<real>, layout: seq<nat>, other: seq<nat>,
                v: real, base: real, width: real, gamma: real -> real, k: nat)
    requires width > 0.0 && ValidLayout(other, |before|)
    requires |after| == |before|
    requires forall c :: 0 <= c < |before| && c !in layout ==> after[c] == before[c]
    requires forall i :: 0 <= i < GroupSize ==> other[i] !in layout
    requires ShowsBar(before, other, v, base, width, gamma, k)
    ensures ShowsBar(after, other, v, base, width, gamma, k)
  {
    assert forall i :: 0 <= i < GroupSize ==> after[other[i]] == before[other[i]];
  }

  /** With every multiplier 1, scaling leaves the bars as drawn. */
  lemma ScaleIsIdentity(out: seq<real>)
    requires |out| == Channels
    ensures Scale(out, Multipliers) == out
  {
    assert forall c :: 0 <= c < |Multipliers| ==> Multipliers[c] == 1.0;
  }
}
