/**
  The register words the single-file daemon writes for each pin event, per
  platform. This generation drives three pins (DATA, CLOCK, LATCH) and has
  its own pin table inside `sendFrame16`, `commitFrame`, `gpioInit` and
  `gpioDeinit`, separate from the split backends in `Gpio*`. Driving a line
  writes its output bit; claiming or releasing the pins performs the
  platform's `gpioInit` or `gpioDeinit` register writes.

  Raspberry Pi writes the set and clear words (7 and 10) whole, every other
  platform reads, modifies and writes one output word. The lemmas here compare
  that table with the split backends' headers.
*/
module MonolithPins {
  import opened Registers
  import opened Transmitter
  import Planes
  import GpioPi3
  import GpioC1
  import GpioC2
  import GpioN2

  /** The platforms the single-file daemon compiles for (Raspberry Pi 3 and 4 share one branch). */
  datatype Platform = RaspberryPi | OdroidN2 | OdroidC1 | OdroidC2

  /** Raspberry Pi: GPIO number of each line, and the set and clear words. */
  function PiPin(line: Line): (pin: nat)
    ensures pin < WordBits
  {
    match line
    case Data => 17
    case Clock => 27
    case Latch => 22
  }

  const PiSetWord: nat := 7
  const PiClearWord: nat := 10

  /** Read-modify-write platforms: the (output word, bit) each line is driven through. */
  function OutBit(p: Platform, line: Line): (b: (nat, nat))
    requires !p.RaspberryPi?
    ensures b.0 < PageWords && b.1 < WordBits
  {
    match p
    case OdroidN2 => (0x117, match line case Data => 3 case Clock => 4 case Latch => 7)
    case OdroidC1 => (match line
                      case Data => (0x10, 88 - 80)
                      case Clock => (0x0D, 116 - 97)
                      case Latch => (0x0D, 18))
    case OdroidC2 => (0x119, match line case Data => 19 case Clock => 11 case Latch => 9)
  }

  /** The three output bits of a read-modify-write platform. */
  function PinBits(p: Platform): (s: set<(nat, nat)>)
    requires !p.RaspberryPi?
  {
    {OutBit(p, Data), OutBit(p, Clock), OutBit(p, Latch)}
  }

  /** The register update for driving `line` to `level`. */
  function DriveRegs(p: Platform, rf: RegFile, line: Line, level: bool): (r: RegFile)
    requires IsPage(rf)
    ensures IsPage(r)
    ensures p.RaspberryPi? ==>
              var word := if level then PiSetWord else PiClearWord;
              SameOutside(rf, r, {word}) && r[word] == Bit(PiPin(line))
    ensures !p.RaspberryPi? ==> Forced(rf, r, {OutBit(p, line)}, level)
  {
    if p.RaspberryPi? then
      WriteWord(rf, if level then PiSetWord else PiClearWord, Bit(PiPin(line)))
    else
      var (w, b) := OutBit(p, line);
      if level then SetBit(rf, w, b) else ClearBit(rf, w, b)
  }

  /**
    The bits `gpioInit` and `gpioDeinit` may change on a read-modify-write
    platform: the direction bits, and on the N2 the whole multiplexer word,
    which its `gpioInit` zeroes.
  */
  function ConfigBits(p: Platform): (s: set<(nat, nat)>)
    requires !p.RaspberryPi?
    ensures DirBits(p) <= s
    ensures p.OdroidN2? ==> forall i :: 0 <= i < WordBits ==> (N2MuxWord, i) in s
  {
    DirBits(p) + (if p.OdroidN2? then set i: nat | i < WordBits :: (N2MuxWord, i) else {})
  }

  /**
    The register writes of `gpioInit` (`output`) or of `gpioDeinit` after its
    optional blanking frame (not `output`), per platform.
  */
  function ConfigureRegs(p: Platform, rf: RegFile, output: bool): (r: RegFile)
    requires IsPage(rf)
    ensures IsPage(r)
    ensures p.RaspberryPi? ==> SameOutside(rf, r, {1, 2})
    ensures !p.RaspberryPi? && !(p.OdroidN2? && output) ==> Forced(rf, r, DirBits(p), !output)
    ensures !p.RaspberryPi? ==> KeepsOutside(rf, r, ConfigBits(p))
  {
    match p
    case RaspberryPi => if output then PiInit(rf) else PiDeinit(rf)
    case OdroidN2 =>
      if output then
        N2InitKeepsOutside(rf);
        N2InitAsWritten(rf)
      else
        var r := DeinitDirs(p, rf);
        ForcedKeepsOutside(rf, r, DirBits(p), ConfigBits(p), true);
        r
    case _ =>
      var r := if output then InitDirs(p, rf) else DeinitDirs(p, rf);
      ForcedKeepsOutside(rf, r, DirBits(p), ConfigBits(p), !output);
      r
  }

  /** The register update for one event. Barriers write nothing. */
  function Apply(p: Platform, rf: RegFile, e: Event): (r: RegFile)
    requires IsPage(rf)
    ensures IsPage(r)
    ensures e.Fence? ==> r == rf
    ensures e.Drive? && !p.RaspberryPi? ==> Forced(rf, r, {OutBit(p, e.line)}, e.level)
    ensures e.Configure? && !p.RaspberryPi? ==> KeepsOutside(rf, r, ConfigBits(p))
    ensures e.Configure? && p.RaspberryPi? ==> SameOutside(rf, r, {1, 2})
  {
    match e
    case Fence => rf
    case Drive(line, level) => DriveRegs(p, rf, line, level)
    case Configure(output) => ConfigureRegs(p, rf, output)
  }

  /** The registers after a whole trace. */
  function ApplyAll(p: Platform, rf: RegFile, t: seq<Event>): (r: RegFile)
    requires IsPage(rf)
    ensures IsPage(r)
    ensures (forall k :: 0 <= k < |t| ==> t[k].Fence?) ==> r == rf
    decreases |t|
  {
    if |t| == 0 then rf else Apply(p, ApplyAll(p, rf, t[..|t| - 1]), t[|t| - 1])
  }

  /** Only the bits named in `bits` may differ. */
  predicate KeepsOutside(before: RegFile, after: RegFile, bits: set<(nat, nat)>) {
    && |after| == |before|
    && forall w: nat, i: nat {:trigger after[w][i]} :: w < |before| && i < WordBits && (w, i) !in bits ==>
         after[w][i] == before[w][i]
  }

  /** Forcing some bits keeps every bit outside any larger set. */
  lemma ForcedKeepsOutside(a: RegFile, b: RegFile, s: set<(nat, nat)>, t: set<(nat, nat)>, v: bool)
    requires Forced(a, b, s, v) && s <= t
    ensures KeepsOutside(a, b, t)
  {
    forall w: nat, i: nat | w < |a| && i < WordBits && (w, i) !in t
      ensures b[w][i] == a[w][i]
    {
      assert (w, i) !in s;
    }
  }

  /** Two updates that each keep the bits outside `s` together keep them. */
  lemma KeepsOutsideTrans(a: RegFile, b: RegFile, c: RegFile, s: set<(nat, nat)>)
    requires KeepsOutside(a, b, s) && KeepsOutside(b, c, s)
    ensures KeepsOutside(a, c, s)
  {
    forall w: nat, i: nat | w < |a| && i < WordBits && (w, i) !in s
      ensures c[w][i] == a[w][i]
    {
      assert b[w][i] == a[w][i];
    }
  }

  /** A larger set of bits that may differ. */
  lemma KeepsOutsideWiden(a: RegFile, b: RegFile, s: set<(nat, nat)>, t: set<(nat, nat)>)
    requires KeepsOutside(a, b, s) && s <= t
    ensures KeepsOutside(a, b, t)
  {
    forall w: nat, i: nat | w < |a| && i < WordBits && (w, i) !in t
      ensures b[w][i] == a[w][i]
    {
      assert (w, i) !in s;
    }
  }

  /** The N2 `gpioInit` as written changes only the direction bits and the multiplexer word. */
  lemma N2InitKeepsOutside(rf: RegFile)
    requires IsPage(rf)
    ensures KeepsOutside(rf, N2InitAsWritten(rf), ConfigBits(OdroidN2))
  {
    var r := N2InitAsWritten(rf);
    assert DirBits(OdroidN2) == {(N2DirWord, 3), (N2DirWord, 4), (N2DirWord, 7)};
    forall w: nat, i: nat | w < |rf| && i < WordBits && (w, i) !in ConfigBits(OdroidN2)
      ensures r[w][i] == rf[w][i]
    {
      if w == N2DirWord {
        assert i !in N2Pins;
      }
    }
  }

  /**
    On a read-modify-write platform a trace of drives and barriers, such as
    `sendFrame16` and `commitFrame` emit, changes no bit but the three output
    bits.
  */
  lemma {:induction false} TraceTouchesOnlyPins(p: Platform, rf: RegFile, t: seq<Event>)
    requires IsPage(rf) && !p.RaspberryPi?
    requires forall k :: 0 <= k < |t| ==> !t[k].Configure?
    ensures KeepsOutside(rf, ApplyAll(p, rf, t), PinBits(p))
    decreases |t|
  {
    if |t| > 0 {
      TraceTouchesOnlyPins(p, rf, t[..|t| - 1]);
      var mid := ApplyAll(p, rf, t[..|t| - 1]);
      var e := t[|t| - 1];
      if e.Drive? {
        assert Forced(mid, Apply(p, mid, e), {OutBit(p, e.line)}, e.level);
      }
    }
  }

  /**
    On a read-modify-write platform any trace, claiming and releasing the pins
    included, changes no bit but the three output bits and the bits
    `gpioInit`/`gpioDeinit` configure.
  */
  lemma {:induction false} TraceTouchesOnlyPinsAndConfig(p: Platform, rf: RegFile, t: seq<Event>)
    requires IsPage(rf) && !p.RaspberryPi?
    ensures KeepsOutside(rf, ApplyAll(p, rf, t), PinBits(p) + ConfigBits(p))
    decreases |t|
  {
    var all := PinBits(p) + ConfigBits(p);
    if |t| > 0 {
      TraceTouchesOnlyPinsAndConfig(p, rf, t[..|t| - 1]);
      var mid := ApplyAll(p, rf, t[..|t| - 1]);
      var r := Apply(p, mid, t[|t| - 1]);
      match t[|t| - 1]
      case Fence =>
      case Drive(line, level) =>
        ForcedKeepsOutside(mid, r, {OutBit(p, line)}, all, level);
        KeepsOutsideTrans(rf, mid, r, all);
      case Configure(_) =>
        KeepsOutsideWiden(mid, r, ConfigBits(p), all);
        KeepsOutsideTrans(rf, mid, r, all);
    }
  }


  /** The `gpioInit` and `gpioDeinit(1)` traces perform the configuration writes of their platform. */
  lemma ConfigureTraces(p: Platform, rf: RegFile)
    requires IsPage(rf)
    ensures ApplyAll(p, rf, GpioInit()) == ConfigureRegs(p, rf, true)
    ensures ApplyAll(p, rf, GpioDeinit(true)) == ConfigureRegs(p, rf, false)
  {
    assert GpioInit()[..0] == [] && GpioDeinit(true)[..0] == [];
  }

  /**
    On a read-modify-write platform a one-shot command such as `allon` ends
    with the three pins' direction bits set: the pins are inputs again.
  */
  lemma CommandReleasesPins(p: Platform, rf: RegFile, f: Planes.Frame)
    requires IsPage(rf) && !p.RaspberryPi?
    ensures forall b :: b in DirBits(p) ==> ApplyAll(p, rf, Command(f))[b.0][b.1]
  {
    ReleaseLastSetsDirs(p, rf, Command(f));
  }

  /** A trace that ends by releasing the pins leaves their direction bits set. */
  lemma ReleaseLastSetsDirs(p: Platform, rf: RegFile, t: seq<Event>)
    requires IsPage(rf) && !p.RaspberryPi?
    requires |t| > 0 && t[|t| - 1] == Configure(false)
    ensures forall b :: b in DirBits(p) ==> ApplyAll(p, rf, t)[b.0][b.1]
  {
    var mid := ApplyAll(p, rf, t[..|t| - 1]);
    assert ApplyAll(p, rf, t) == ConfigureRegs(p, mid, false);
    forall b | b in DirBits(p)
      ensures ApplyAll(p, rf, t)[b.0][b.1]
    {
      assert b.0 < PageWords && b.1 < WordBits;
    }
  }

  /** On a read-modify-write platform the output bit of a line holds the level it was last driven to. */
  lemma LastDriveWins(p: Platform, rf: RegFile, t: seq<Event>, line: Line, level: bool)
    requires IsPage(rf) && !p.RaspberryPi?
    requires |t| > 0 && t[|t| - 1] == Drive(line, level)
    ensures ApplyAll(p, rf, t)[OutBit(p, line).0][OutBit(p, line).1] == level
  {
  }

  /** The Raspberry Pi pins are the split backend's DATA, CLOCK and LATCH pins, driven the same way. */
  lemma PiMatchesBackend(rf: RegFile, line: Line, level: bool)
    requires IsPage(rf)
    ensures PiPin(Data) == GpioPi3.PinData && PiPin(Clock) == GpioPi3.PinClk && PiPin(Latch) == GpioPi3.PinLatch
    ensures PiSetWord == GpioPi3.SetOffset && PiClearWord == GpioPi3.ClearOffset
    ensures DriveRegs(RaspberryPi, rf, line, level) ==
            if level then GpioPi3.Set(rf, PiPin(line)) else GpioPi3.Clear(rf, PiPin(line))
  {
  }

  /** Odroid C1: the bank each bit is on agrees with the split backend's bank rule for its pin. */
  lemma C1MatchesBackend(rf: RegFile, line: Line, level: bool)
    requires IsPage(rf)
    ensures var pin := match line case Data => GpioC1.PinData case Clock => GpioC1.PinClk case Latch => GpioC1.PinLatch;
            OutBit(OdroidC1, line) == GpioC1.OutputBit(pin) &&
            DriveRegs(OdroidC1, rf, line, level) == if level then GpioC1.Set(rf, pin) else GpioC1.Clear(rf, pin)
  {
    var pin := match line case Data => GpioC1.PinData case Clock => GpioC1.PinClk case Latch => GpioC1.PinLatch;
    var r := DriveRegs(OdroidC1, rf, line, level);
    var s := if level then GpioC1.Set(rf, pin) else GpioC1.Clear(rf, pin);
    ForcedUnique(rf, r, s, {OutBit(OdroidC1, line)}, level);
  }

  /**
    Odroid C2: the single-file daemon drives the backend's pins through word
    0x119, the corrected backend word, not the header's decimal 119.
  */
  lemma C2MatchesCorrectedBackend(rf: RegFile, line: Line, level: bool)
    requires IsPage(rf)
    ensures var pin := match line case Data => GpioC2.PinData case Clock => GpioC2.PinClk case Latch => GpioC2.PinLatch;
            OutBit(OdroidC2, line) == (GpioC2.OutOffsetIntended, pin) &&
            OutBit(OdroidC2, line).0 != GpioC2.OutOffset &&
            DriveRegs(OdroidC2, rf, line, level) ==
              if level then GpioC2.SetIntended(rf, pin) else GpioC2.ClearIntended(rf, pin)
  {
    var pin := match line case Data => GpioC2.PinData case Clock => GpioC2.PinClk case Latch => GpioC2.PinLatch;
    var r := DriveRegs(OdroidC2, rf, line, level);
    var s := if level then GpioC2.SetIntended(rf, pin) else GpioC2.ClearIntended(rf, pin);
    ForcedUnique(rf, r, s, {OutBit(OdroidC2, line)}, level);
  }

  /** Odroid N2: likewise through word 0x117, not the header's decimal 117. */
  lemma N2MatchesCorrectedBackend(rf: RegFile, line: Line, level: bool)
    requires IsPage(rf)
    ensures var pin := match line case Data => GpioN2.PinData case Clock => GpioN2.PinClk case Latch => GpioN2.PinLatch;
            OutBit(OdroidN2, line) == (GpioN2.OutOffsetIntended, pin) &&
            OutBit(OdroidN2, line).0 != GpioN2.OutOffset &&
            DriveRegs(OdroidN2, rf, line, level) ==
              if level then GpioN2.SetIntended(rf, pin) else GpioN2.ClearIntended(rf, pin)
  {
    var pin := match line case Data => GpioN2.PinData case Clock => GpioN2.PinClk case Latch => GpioN2.PinLatch;
    var r := DriveRegs(OdroidN2, rf, line, level);
    var s := if level then GpioN2.SetIntended(rf, pin) else GpioN2.ClearIntended(rf, pin);
    ForcedUnique(rf, r, s, {OutBit(OdroidN2, line)}, level);
  }

  // ---------------------------------------------------------------------------
  // Odroid N2 `gpioInit`: direction bits and the pin multiplexer

  /** Direction word and multiplexer word of the single-file N2 branch. */
  const N2DirWord: nat := 0x116
  const N2MuxWord: nat := 0x1B3

  /** The GPIO numbers the N2 branch configures, X.3, X.4 and X.7. */
  const N2Pins: set<nat> := {3, 4, 7}

  /** Bit `i` of the multiplexer word belongs to the 4-bit function field of the pin `i / 4`. */
  predicate InMuxField(i: nat) {
    i / 4 in N2Pins
  }

  /** Clearing the direction bits of X.3, X.4 and X.7: the pins become outputs. */
  function N2DirOutputs(w: Word): (r: Word)
    ensures forall i :: 0 <= i < WordBits ==> (r[i] <==> w[i] && i !in N2Pins)
  {
    And(And(And(w, Not(Bit(3))), Not(Bit(4))), Not(Bit(7)))
  }

  /**
    The multiplexer update as written: the word is ANDed with each pin's field
    mask `0xF << k*4`, not with its complement. The three masks are disjoint,
    so no bit survives.
  */
  function N2MuxAsWritten(w: Word): (r: Word)
    ensures forall i :: 0 <= i < WordBits ==> !r[i]
  {
    And(And(And(w, Ones(12, 4)), Ones(16, 4)), Ones(28, 4))
  }

  /** The multiplexer update as intended: `&= ~(0xF << k*4)` clears exactly the three fields. */
  function N2MuxIntended(w: Word): (r: Word)
    ensures forall i :: 0 <= i < WordBits ==> (r[i] <==> w[i] && !InMuxField(i))
  {
    And(And(And(w, Not(Ones(12, 4))), Not(Ones(16, 4))), Not(Ones(28, 4)))
  }

  /** The N2 branch of `gpioInit` as written. */
  function N2InitAsWritten(rf: RegFile): (r: RegFile)
    requires IsPage(rf)
    ensures SameOutside(rf, r, {N2DirWord, N2MuxWord})
    ensures forall i :: 0 <= i < WordBits ==> (r[N2DirWord][i] <==> rf[N2DirWord][i] && i !in N2Pins)
    ensures r[N2MuxWord] == Zero()
  {
    var r := rf[N2DirWord := N2DirOutputs(rf[N2DirWord])][N2MuxWord := N2MuxAsWritten(rf[N2MuxWord])];
    assert r[N2MuxWord] == Zero();
    r
  }

  /** Every bit the intended N2 initialisation clears. */
  function N2InitBits(): (s: set<(nat, nat)>) {
    (set k | k in N2Pins :: (N2DirWord, k)) + (set i: nat | i < WordBits && InMuxField(i) :: (N2MuxWord, i))
  }

  /** The N2 branch of `gpioInit` as intended: the three direction bits and the three fields go to 0, nothing else changes. */
  function N2InitIntended(rf: RegFile): (r: RegFile)
    requires IsPage(rf)
    ensures Forced(rf, r, N2InitBits(), false)
  {
    rf[N2DirWord := N2DirOutputs(rf[N2DirWord])][N2MuxWord := N2MuxIntended(rf[N2MuxWord])]
  }

  /**
    The written update differs from the intended one exactly when the
    multiplexer word had a bit set outside the three pins' fields: those bits
    (other pins' functions) are cleared as well.
  */
  lemma N2MuxClobbersOtherPins(rf: RegFile)
    requires IsPage(rf)
    ensures N2InitAsWritten(rf) != N2InitIntended(rf) <==>
            exists i :: 0 <= i < WordBits && !InMuxField(i) && rf[N2MuxWord][i]
  {
    var a, b := N2InitAsWritten(rf), N2InitIntended(rf);
    if exists i :: 0 <= i < WordBits && !InMuxField(i) && rf[N2MuxWord][i] {
      var i :| 0 <= i < WordBits && !InMuxField(i) && rf[N2MuxWord][i];
      assert b[N2MuxWord][i] != a[N2MuxWord][i];
    } else {
      assert a[N2MuxWord] == b[N2MuxWord];
      assert a[N2DirWord] == b[N2DirWord];
      assert forall k :: 0 <= k < |rf| ==> a[k] == b[k];
    }
  }

  /** For instance the reset value with every bit set loses all 32 bits instead of 12. */
  lemma N2MuxExample(rf: RegFile)
    requires IsPage(rf) && rf[N2MuxWord] == Not(Zero())
    ensures N2InitAsWritten(rf)[N2MuxWord] == Zero()
    ensures N2InitIntended(rf)[N2MuxWord][0]
  {
  }

  // ---------------------------------------------------------------------------
  // Direction bits of `gpioInit` and `gpioDeinit` on the read-modify-write platforms

  /** The (direction word, bit) of each line: a 0 makes the pin an output. */
  function DirBit(p: Platform, line: Line): (b: (nat, nat))
    requires !p.RaspberryPi?
    ensures b.0 < PageWords && b.1 < WordBits
  {
    match p
    case OdroidN2 => (0x116, match line case Data => 3 case Clock => 4 case Latch => 7)
    case OdroidC1 => (match line
                      case Data => (0x0F, 8)
                      case Clock => (0x0C, 19)
                      case Latch => (0x0C, 18))
    case OdroidC2 => (0x118, match line case Data => 19 case Clock => 11 case Latch => 9)
  }

  /** The three direction bits of a read-modify-write platform. */
  function DirBits(p: Platform): (s: set<(nat, nat)>)
    requires !p.RaspberryPi?
  {
    {DirBit(p, Data), DirBit(p, Clock), DirBit(p, Latch)}
  }

  /** Clearing the direction bits of the three pins, in the source's order: the pins become outputs. */
  function InitDirs(p: Platform, rf: RegFile): (r: RegFile)
    requires IsPage(rf) && !p.RaspberryPi?
    ensures IsPage(r)
    ensures Forced(rf, r, DirBits(p), false)
  {
    var (w0, b0) := DirBit(p, Data);
    var (w1, b1) := DirBit(p, Clock);
    var (w2, b2) := DirBit(p, Latch);
    var r0 := ClearBit(rf, w0, b0);
    var r1 := ClearBit(r0, w1, b1);
    ForcedUnion(rf, r0, r1, {(w0, b0)}, {(w1, b1)}, false);
    var r2 := ClearBit(r1, w2, b2);
    ForcedUnion(rf, r1, r2, {(w0, b0)} + {(w1, b1)}, {(w2, b2)}, false);
    r2
  }

  /** `gpioDeinit` after the optional blanking frame: setting the same bits back, so the pins become inputs. */
  function DeinitDirs(p: Platform, rf: RegFile): (r: RegFile)
    requires IsPage(rf) && !p.RaspberryPi?
    ensures IsPage(r)
    ensures Forced(rf, r, DirBits(p), true)
  {
    var (w0, b0) := DirBit(p, Data);
    var (w1, b1) := DirBit(p, Clock);
    var (w2, b2) := DirBit(p, Latch);
    var r0 := SetBit(rf, w0, b0);
    var r1 := SetBit(r0, w1, b1);
    ForcedUnion(rf, r0, r1, {(w0, b0)}, {(w1, b1)}, true);
    var r2 := SetBit(r1, w2, b2);
    ForcedUnion(rf, r1, r2, {(w0, b0)} + {(w1, b1)}, {(w2, b2)}, true);
    r2
  }

  /** Each line's direction bit is its output bit in the word just below the output word. */
  lemma DirBitBelowOutBit(p: Platform, line: Line)
    requires !p.RaspberryPi?
    ensures DirBit(p, line) == (OutBit(p, line).0 - 1, OutBit(p, line).1)
  {
  }

  /**
    The split backends configure the same direction bits plus the one of
    their BLANK pin: C1 bit 6 of word 0x0C, C2 bit 3 of 0x118, N2 bit 2 of 0x116.
  */
  lemma BackendsAddBlankDir()
    ensures GpioC1.DirBits() == DirBits(OdroidC1) + {(0x0C, 6)}
    ensures GpioC2.DirBits() == DirBits(OdroidC2) + {(0x118, 3)}
    ensures GpioN2.DirBits() == DirBits(OdroidN2) + {(0x116, 2)}
  {
    GpioC1.DirBitsMatchPins();
    GpioC2.PinsMatchDirBits();
    GpioN2.PinsMatchDirBits();
  }

  /** Shutdown after startup restores the three direction bits and nothing else changed; both are idempotent. */
  lemma DeinitDirsAfterInitDirs(p: Platform, rf: RegFile)
    requires IsPage(rf) && !p.RaspberryPi?
    ensures DeinitDirs(p, InitDirs(p, rf)) == DeinitDirs(p, rf)
    ensures InitDirs(p, InitDirs(p, rf)) == InitDirs(p, rf)
  {
    var a := InitDirs(p, rf);
    ForcedTwice(rf, a, DeinitDirs(p, a), DirBits(p), false, true);
    ForcedUnique(rf, DeinitDirs(p, a), DeinitDirs(p, rf), DirBits(p), true);
    ForcedTwice(rf, a, InitDirs(p, a), DirBits(p), false, false);
    ForcedUnique(rf, InitDirs(p, a), a, DirBits(p), false);
  }

  /** The N2 direction update inside `N2InitAsWritten` is the platform's `InitDirs`. */
  lemma N2InitDirsAgree(rf: RegFile)
    requires IsPage(rf)
    ensures N2InitAsWritten(rf)[N2DirWord] == InitDirs(OdroidN2, rf)[N2DirWord]
  {
    var a, b := N2InitAsWritten(rf)[N2DirWord], InitDirs(OdroidN2, rf)[N2DirWord];
    assert DirBits(OdroidN2) == {(N2DirWord, 3), (N2DirWord, 4), (N2DirWord, 7)};
    assert forall i :: 0 <= i < WordBits ==> a[i] == b[i];
  }

  // ---------------------------------------------------------------------------
  // Raspberry Pi `gpioInit` and `gpioDeinit`: function-select fields of pins 17, 22 and 27

  /** Resetting the 3-bit fields of pins 17, 22 and 27 to 000 (input), in the source's order. */
  function PiClearFields(rf: RegFile): (r: RegFile)
    requires IsPage(rf)
    ensures IsPage(r)
    ensures SameOutside(rf, r, {1, 2})
  {
    AndWord(AndWord(AndWord(rf, 1, Not(Ones(7 * 3, 3))), 2, Not(Ones(2 * 3, 3))), 2, Not(Ones(7 * 3, 3)))
  }

  /** The Raspberry Pi branch of `gpioInit`: clear the three fields, then set each to 001 (output). */
  function PiInit(rf: RegFile): (r: RegFile)
    requires IsPage(rf)
    ensures IsPage(r)
    ensures SameOutside(rf, r, {1, 2})
  {
    OrWord(OrWord(OrWord(PiClearFields(rf), 1, Bit(7 * 3)), 2, Bit(2 * 3)), 2, Bit(7 * 3))
  }

  /** The Raspberry Pi branch of `gpioDeinit` after the optional blanking frame: the three fields back to input. */
  function PiDeinit(rf: RegFile): (r: RegFile)
    requires IsPage(rf)
    ensures IsPage(r)
    ensures SameOutside(rf, r, {1, 2})
  {
    PiClearFields(rf)
  }

  /** Startup is the split backend's per-pin mode change applied to DATA, LATCH and CLOCK. */
  lemma PiInitIsPerPin(rf: RegFile)
    requires IsPage(rf)
    ensures PiInit(rf) ==
            GpioPi3.WithMode(GpioPi3.WithMode(GpioPi3.WithMode(rf, 17, GpioPi3.Output), 22, GpioPi3.Output), 27, GpioPi3.Output)
  {
    FilesEqual(PiInit(rf),
      GpioPi3.WithMode(GpioPi3.WithMode(GpioPi3.WithMode(rf, 17, GpioPi3.Output), 22, GpioPi3.Output), 27, GpioPi3.Output));
  }

  /** Shutdown is the split backend's per-pin mode change back to input for the same three pins. */
  lemma PiDeinitIsPerPin(rf: RegFile)
    requires IsPage(rf)
    ensures PiDeinit(rf) ==
            GpioPi3.WithMode(GpioPi3.WithMode(GpioPi3.WithMode(rf, 17, GpioPi3.Input), 22, GpioPi3.Input), 27, GpioPi3.Input)
  {
    FilesEqual(PiDeinit(rf),
      GpioPi3.WithMode(GpioPi3.WithMode(GpioPi3.WithMode(rf, 17, GpioPi3.Input), 22, GpioPi3.Input), 27, GpioPi3.Input));
  }

  /** The split backend's startup is this one plus the BLANK pin 25 made an output. */
  lemma PiBackendAddsBlank(rf: RegFile)
    requires IsPage(rf)
    ensures GpioPi3.Init(rf) == GpioPi3.WithMode(PiInit(rf), GpioPi3.PinBlank, GpioPi3.Output)
  {
    var o := GpioPi3.Output;
    var x := GpioPi3.WithMode(GpioPi3.WithMode(rf, 17, o), 22, o);
    GpioPi3.InitIsPerPin(rf);
    PiInitIsPerPin(rf);
    GpioPi3.WithModeCommutes(x, 25, 27, o, o);
  }
}
