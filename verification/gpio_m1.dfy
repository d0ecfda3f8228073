/**
  The Odroid M1 backend (RockChip RK3568 GPIO blocks).

  Two 4096-byte windows are mapped: the main one, holding GPIO bank 0, and a
  second one for GPIO bank 3. Pin numbers follow the RockChip scheme
  32 * bank + 8 * group + index, with groups A, B, C, D numbered 0 to 3. In
  each bank, pins of groups A and B sit in the low half-word register pair
  starting at word 2, groups C and D in word 3, each at bit
  (8 * group + index) mod 16. Every store through `rk_gpio` also sets the
  bit 16 places higher, the RockChip write-enable for that bit.
*/
module GpioM1 {
  import opened Registers

  const PinData: nat := 16
  const PinClk: nat := 17
  const PinLatch: nat := 106
  const PinBlank: nat := 121

  /** The four pins the display uses. */
  const Pins: set<nat> := {PinData, PinClk, PinLatch, PinBlank}

  /** The two mapped windows. */
  datatype Maps = Maps(main: RegFile, bank3: RegFile)

  predicate ValidMaps(m: Maps) {
    IsPage(m.main) && IsPage(m.bank3)
  }

  /** The window `rk_gpio` picks: the bank 3 one when `g3` holds. */
  function Window(m: Maps, g3: bool): RegFile {
    if g3 then m.bank3 else m.main
  }

  /** A (window, word offset, bit) triple naming one direction or level bit. */
  type Target = (bool, nat, nat)

  /**
    Window `g3` of `after` is that of `before` with, for every target
    (g3, offset, bit) in `targets`, bit `bit` of word `offset` forced to `val`
    and bit `bit + 16` of the same word set; every other bit is kept.
  */
  predicate WindowForced(before: RegFile, after: RegFile, g3: bool, targets: set<Target>, val: bool) {
    && |after| == |before|
    && forall w: nat, i: nat {:trigger after[w][i]} :: w < |before| && i < WordBits ==>
         after[w][i] ==
           if (g3, w, i) in targets then val
           else if i >= 16 && (g3, w, i - 16) in targets then true
           else before[w][i]
  }

  /** Both windows are updated as `WindowForced` describes. */
  predicate RkForced(before: Maps, after: Maps, targets: set<Target>, val: bool) {
    && WindowForced(before.main, after.main, false, targets, val)
    && WindowForced(before.bank3, after.bank3, true, targets, val)
  }

  /** Targets that stay within the write-enable convention: the bit is in the low half. */
  predicate LowHalf(targets: set<Target>) {
    forall t :: t in targets ==> t.2 < 16
  }

  /**
    `rk_gpio(g3, offset, bit, val)`: read the word, set the write-enable bit
    `bit + 16`, set or clear bit `bit` according to `val`, and store the word
    back into the same window.
  */
  function RkGpio(m: Maps, g3: bool, offset: nat, bit: nat, val: bool): (r: Maps)
    requires ValidMaps(m) && offset < PageWords && bit < 16
    ensures ValidMaps(r)
    ensures RkForced(m, r, {(g3, offset, bit)}, val)
  {
    var gm := Window(m, g3);
    var buf := Or(gm[offset], Bit(bit + 16));
    var buf := if val then Or(buf, Bit(bit)) else And(buf, Not(Bit(bit)));
    var gm := WriteWord(gm, offset, buf);
    if g3 then m.(bank3 := gm) else m.(main := gm)
  }

  /**
    Two rounds on one window with the same value compose into one over the
    union of their targets, as long as no target bit is another's
    write-enable bit.
  */
  lemma WindowForcedUnion(a: RegFile, b: RegFile, c: RegFile, g3: bool, s: set<Target>, t: set<Target>, val: bool)
    requires LowHalf(s) && LowHalf(t)
    requires WindowForced(a, b, g3, s, val) && WindowForced(b, c, g3, t, val)
    ensures WindowForced(a, c, g3, s + t, val)
  {
    forall w: nat, i: nat | w < |a| && i < WordBits
      ensures c[w][i] ==
        if (g3, w, i) in s + t then val
        else if i >= 16 && (g3, w, i - 16) in s + t then true
        else a[w][i]
    {
      assert c[w][i] ==
        if (g3, w, i) in t then val
        else if i >= 16 && (g3, w, i - 16) in t then true
        else b[w][i];
      assert b[w][i] ==
        if (g3, w, i) in s then val
        else if i >= 16 && (g3, w, i - 16) in s then true
        else a[w][i];
    }
  }

  /** `WindowForcedUnion` for both windows at once. */
  lemma RkForcedUnion(a: Maps, b: Maps, c: Maps, s: set<Target>, t: set<Target>, val: bool)
    requires LowHalf(s) && LowHalf(t)
    requires RkForced(a, b, s, val) && RkForced(b, c, t, val)
    ensures RkForced(a, c, s + t, val)
  {
    WindowForcedUnion(a.main, b.main, c.main, false, s, t, val);
    WindowForcedUnion(a.bank3, b.bank3, c.bank3, true, s, t, val);
  }

  /** The display pins' targets, as word offsets and bits. */
  lemma DirTargetsValue()
    ensures DirTargets() == {(false, 3, 0)} + {(false, 3, 1)} + {(true, 2, 10)} + {(true, 3, 9)}
  {
    assert PinTarget(PinData) == (false, 3, 0);
    assert PinTarget(PinClk) == (false, 3, 1);
    assert PinTarget(PinLatch) == (true, 2, 10);
    assert PinTarget(PinBlank) == (true, 3, 9);
  }

  /**
    Where the RockChip numbering puts a pin's direction bit: the bank 3
    window for bank 3, word 2 for groups A and B and word 3 for groups C and
    D, bit (8 * group + index) mod 16.
  */
  function PinTarget(pin: nat): Target {
    var bank, group, index := pin / 32, (pin % 32) / 8, pin % 8;
    (bank == 3, 2 + group / 2, (8 * group + index) % 16)
  }

  /** The direction bits of the four display pins. */
  function DirTargets(): set<Target> {
    set p | p in Pins :: PinTarget(p)
  }

  /** Startup: make pins 0C.0, 0C.1, 3B.2 and 3D.1 outputs. */
  function Init(m: Maps): (r: Maps)
    requires ValidMaps(m)
    ensures ValidMaps(r)
    ensures RkForced(m, r, DirTargets(), true)
  {
    var r1 := RkGpio(m, false, 0x02 + 0x01, 0, true);
    var r2 := RkGpio(r1, false, 0x02 + 0x01, 1, true);
    var r3 := RkGpio(r2, true, 0x02, 10, true);
    var r4 := RkGpio(r3, true, 0x02 + 0x01, 9, true);
    RkForcedUnion(m, r1, r2, {(false, 3, 0)}, {(false, 3, 1)}, true);
    RkForcedUnion(m, r2, r3, {(false, 3, 0)} + {(false, 3, 1)}, {(true, 2, 10)}, true);
    RkForcedUnion(m, r3, r4, {(false, 3, 0)} + {(false, 3, 1)} + {(true, 2, 10)}, {(true, 3, 9)}, true);
    DirTargetsValue();
    r4
  }

  /** Shutdown: make the same four pins inputs again; the write-enable bits are set as well. */
  function Deinit(m: Maps): (r: Maps)
    requires ValidMaps(m)
    ensures ValidMaps(r)
    ensures RkForced(m, r, DirTargets(), false)
  {
    var r1 := RkGpio(m, false, 0x02 + 0x01, 0, false);
    var r2 := RkGpio(r1, false, 0x02 + 0x01, 1, false);
    var r3 := RkGpio(r2, true, 0x02, 10, false);
    var r4 := RkGpio(r3, true, 0x02 + 0x01, 9, false);
    RkForcedUnion(m, r1, r2, {(false, 3, 0)}, {(false, 3, 1)}, false);
    RkForcedUnion(m, r2, r3, {(false, 3, 0)} + {(false, 3, 1)}, {(true, 2, 10)}, false);
    RkForcedUnion(m, r3, r4, {(false, 3, 0)} + {(false, 3, 1)} + {(true, 2, 10)}, {(true, 3, 9)}, false);
    DirTargetsValue();
    r4
  }

  /** Forcing the same low-half targets twice on one window: the second value wins. */
  lemma WindowForcedTwice(a: RegFile, b: RegFile, c: RegFile, g3: bool, s: set<Target>, v: bool, u: bool)
    requires LowHalf(s)
    requires WindowForced(a, b, g3, s, v) && WindowForced(b, c, g3, s, u)
    ensures WindowForced(a, c, g3, s, u)
  {
    forall w: nat, i: nat | w < |a| && i < WordBits
      ensures c[w][i] ==
        if (g3, w, i) in s then u
        else if i >= 16 && (g3, w, i - 16) in s then true
        else a[w][i]
    {
      assert c[w][i] ==
        if (g3, w, i) in s then u
        else if i >= 16 && (g3, w, i - 16) in s then true
        else b[w][i];
      assert b[w][i] ==
        if (g3, w, i) in s then v
        else if i >= 16 && (g3, w, i - 16) in s then true
        else a[w][i];
    }
  }

  /** A window update is determined by the starting window, the targets and the value. */
  lemma WindowForcedUnique(a: RegFile, b: RegFile, c: RegFile, g3: bool, s: set<Target>, v: bool)
    requires WindowForced(a, b, g3, s, v) && WindowForced(a, c, g3, s, v)
    ensures b == c
  {
    forall w: nat, i: nat | w < |a| && i < WordBits
      ensures b[w][i] == c[w][i]
    {
      assert b[w][i] ==
        if (g3, w, i) in s then v
        else if i >= 16 && (g3, w, i - 16) in s then true
        else a[w][i];
      assert c[w][i] ==
        if (g3, w, i) in s then v
        else if i >= 16 && (g3, w, i - 16) in s then true
        else a[w][i];
    }
    FilesEqual(b, c);
  }

  /** Two rounds over the same targets equal the second round alone. */
  lemma RkForcedTwice(a: Maps, b: Maps, c: Maps, d: Maps, s: set<Target>, v: bool, u: bool)
    requires LowHalf(s)
    requires RkForced(a, b, s, v) && RkForced(b, c, s, u) && RkForced(a, d, s, u)
    ensures c == d
  {
    WindowForcedTwice(a.main, b.main, c.main, false, s, v, u);
    WindowForcedTwice(a.bank3, b.bank3, c.bank3, true, s, v, u);
    WindowForcedUnique(a.main, c.main, d.main, false, s, u);
    WindowForcedUnique(a.bank3, c.bank3, d.bank3, true, s, u);
  }

  /** A second `rk_gpio` call with the same arguments changes nothing. */
  lemma RkGpioIdempotent(m: Maps, g3: bool, offset: nat, bit: nat, val: bool)
    requires ValidMaps(m) && offset < PageWords && bit < 16
    ensures RkGpio(RkGpio(m, g3, offset, bit, val), g3, offset, bit, val) == RkGpio(m, g3, offset, bit, val)
  {
    var once := RkGpio(m, g3, offset, bit, val);
    RkForcedTwice(m, once, RkGpio(once, g3, offset, bit, val), once, {(g3, offset, bit)}, val, val);
  }

  /** Running startup twice is the same as running it once. */
  lemma InitIdempotent(m: Maps)
    requires ValidMaps(m)
    ensures Init(Init(m)) == Init(m)
  {
    DirTargetsValue();
    RkForcedTwice(m, Init(m), Init(Init(m)), Init(m), DirTargets(), true, true);
  }

  /** Running shutdown twice is the same as running it once. */
  lemma DeinitIdempotent(m: Maps)
    requires ValidMaps(m)
    ensures Deinit(Deinit(m)) == Deinit(m)
  {
    DirTargetsValue();
    RkForcedTwice(m, Deinit(m), Deinit(Deinit(m)), Deinit(m), DirTargets(), false, false);
  }

  /**
    Shutdown after startup gives what shutdown alone gives: the four
    direction bits 0 and their write-enable bits 1.
  */
  lemma DeinitAfterInit(m: Maps)
    requires ValidMaps(m)
    ensures Deinit(Init(m)) == Deinit(m)
  {
    DirTargetsValue();
    RkForcedTwice(m, Init(m), Deinit(Init(m)), Deinit(m), DirTargets(), true, false);
  }

  /** The RockChip pin number of bank/group/index, groups A to D being 0 to 3. */
  function PinNumber(bank: nat, group: nat, index: nat): nat {
    32 * bank + 8 * group + index
  }

  /**
    The labels on the startup calls, 0C.0, 0C.1, 3B.2 and 3D.1, are the
    header's pins; all four lie in bank 0 or bank 3, the two mapped windows,
    and each call's window, word and bit are the ones the numbering gives.
  */
  lemma LabelsMatchPins()
    ensures PinNumber(0, 2, 0) == PinData && PinNumber(0, 2, 1) == PinClk
    ensures PinNumber(3, 1, 2) == PinLatch && PinNumber(3, 3, 1) == PinBlank
    ensures forall p :: p in Pins ==> p / 32 == 0 || p / 32 == 3
    ensures DirTargets() == {(false, 3, 0), (false, 3, 1), (true, 2, 10), (true, 3, 9)}
    ensures LowHalf(DirTargets())
  {
    DirTargetsValue();
  }
}
