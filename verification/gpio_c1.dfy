/**
  The Odroid C1 backend (Amlogic S805 GPIO block).

  Pins are numbered globally; the Y bank starts at pin 80 and the X bank at
  pin 97. Each bank has an output word (0x10 for Y, 0x0D for X) and, one word
  below it, a direction word in which a 0 bit makes the pin an output.
*/
module GpioC1 {
  import opened Registers

  const PinData: nat := 88
  const PinClk: nat := 116
  const PinLatch: nat := 115
  const PinBlank: nat := 103

  /** The four pins the display uses. */
  const Pins: set<nat> := {PinData, PinClk, PinLatch, PinBlank}

  const OffX: nat := 0x0D
  const OffY: nat := 0x10
  const StartX: nat := 97
  const StartY: nat := 80

  /** Pins for which the shift `1 << (pin - START)` stays inside one word, in either bank. */
  predicate ValidPin(pin: nat) {
    StartY <= pin <= StartX + 31
  }

  /**
    The output (word, bit) the header's bank rule picks: the X bank for pins
    strictly above START_X, the Y bank otherwise.
  */
  function OutputBit(pin: nat): (loc: (nat, nat))
    requires ValidPin(pin)
    ensures loc.1 < WordBits
    ensures loc.0 == OffX <==> pin > StartX
    ensures loc.0 == OffX || loc.0 == OffY
    ensures pin == (if loc.0 == OffX then StartX else StartY) + loc.1
  {
    if pin > StartX then (OffX, pin - StartX) else (OffY, pin - StartY)
  }

  /** The bank rule with the X bank starting at START_X itself. */
  function OutputBitIntended(pin: nat): (loc: (nat, nat))
    requires ValidPin(pin)
    ensures loc.1 < WordBits
  {
    if pin >= StartX then (OffX, pin - StartX) else (OffY, pin - StartY)
  }

  /** The direction bit of a pin: the same bit of the word just below its output word. */
  function DirectionBit(pin: nat): (loc: (nat, nat))
    requires ValidPin(pin)
  {
    (OutputBitIntended(pin).0 - 1, OutputBitIntended(pin).1)
  }

  /** The direction bits of the four display pins. */
  function DirBits(): set<(nat, nat)> {
    set p | p in Pins :: DirectionBit(p)
  }

  /** `gpioSet`: set the pin's bit in its bank's output word. */
  function Set(rf: RegFile, pin: nat): (r: RegFile)
    requires IsPage(rf) && ValidPin(pin)
    ensures Forced(rf, r, {OutputBit(pin)}, true)
  {
    if pin > StartX then SetBit(rf, OffX, pin - StartX) else SetBit(rf, OffY, pin - StartY)
  }

  /** `gpioClear`: clear the pin's bit in its bank's output word. */
  function Clear(rf: RegFile, pin: nat): (r: RegFile)
    requires IsPage(rf) && ValidPin(pin)
    ensures Forced(rf, r, {OutputBit(pin)}, false)
  {
    if pin > StartX then ClearBit(rf, OffX, pin - StartX) else ClearBit(rf, OffY, pin - StartY)
  }

  /** Startup: clear the direction bits of Y.8, X.19, X.18 and X.6 (outputs). */
  function Init(rf: RegFile): (r: RegFile)
    requires IsPage(rf)
    ensures Forced(rf, r, DirBits(), false)
  {
    var r := ClearBit(rf, 0x0F, 8);
    var r := ClearBit(r, 0x0C, 19);
    var r := ClearBit(r, 0x0C, 18);
    ClearBit(r, 0x0C, 6)
  }

  /** Shutdown: set the same four direction bits again (inputs). */
  function Deinit(rf: RegFile): (r: RegFile)
    requires IsPage(rf)
    ensures Forced(rf, r, DirBits(), true)
  {
    var r := SetBit(rf, 0x0F, 8);
    var r := SetBit(r, 0x0C, 19);
    var r := SetBit(r, 0x0C, 18);
    SetBit(r, 0x0C, 6)
  }

  /** Setting a pin that is already set changes nothing. */
  lemma SetIdempotent(rf: RegFile, pin: nat)
    requires IsPage(rf) && ValidPin(pin)
    ensures Set(Set(rf, pin), pin) == Set(rf, pin)
  {
    ForcedTwice(rf, Set(rf, pin), Set(Set(rf, pin), pin), {OutputBit(pin)}, true, true);
    ForcedUnique(rf, Set(Set(rf, pin), pin), Set(rf, pin), {OutputBit(pin)}, true);
  }

  /** Set then clear leaves the pin's bit 0 and the file as clearing alone would. */
  lemma ClearAfterSet(rf: RegFile, pin: nat)
    requires IsPage(rf) && ValidPin(pin)
    ensures Clear(Set(rf, pin), pin) == Clear(rf, pin)
    ensures !Clear(Set(rf, pin), pin)[OutputBit(pin).0][OutputBit(pin).1]
  {
    ForcedTwice(rf, Set(rf, pin), Clear(Set(rf, pin), pin), {OutputBit(pin)}, true, false);
    ForcedUnique(rf, Clear(Set(rf, pin), pin), Clear(rf, pin), {OutputBit(pin)}, false);
  }

  /** Running startup twice is the same as running it once. */
  lemma InitIdempotent(rf: RegFile)
    requires IsPage(rf)
    ensures Init(Init(rf)) == Init(rf)
  {
    ForcedTwice(rf, Init(rf), Init(Init(rf)), DirBits(), false, false);
    ForcedUnique(rf, Init(Init(rf)), Init(rf), DirBits(), false);
  }

  /** Running shutdown twice is the same as running it once. */
  lemma DeinitIdempotent(rf: RegFile)
    requires IsPage(rf)
    ensures Deinit(Deinit(rf)) == Deinit(rf)
  {
    ForcedTwice(rf, Deinit(rf), Deinit(Deinit(rf)), DirBits(), true, true);
    ForcedUnique(rf, Deinit(Deinit(rf)), Deinit(rf), DirBits(), true);
  }

  /** Shutdown after startup leaves the four bits at 1 and every other bit as it was. */
  lemma DeinitAfterInit(rf: RegFile)
    requires IsPage(rf)
    ensures Deinit(Init(rf)) == Deinit(rf)
  {
    ForcedTwice(rf, Init(rf), Deinit(Init(rf)), DirBits(), false, true);
    ForcedUnique(rf, Deinit(Init(rf)), Deinit(rf), DirBits(), true);
  }

  /**
    The intended bank rule: a pin is on the X bank exactly when it is at or
    above START_X, and its bit is its distance from the start of its bank, so
    no two pins share an output bit.
  */
  lemma OutputBitIntendedBanks(pin: nat, other: nat)
    requires ValidPin(pin) && ValidPin(other)
    ensures OutputBitIntended(pin).0 == OffX <==> pin >= StartX
    ensures pin == (if OutputBitIntended(pin).0 == OffX then StartX else StartY) + OutputBitIntended(pin).1
    ensures pin != other ==> OutputBitIntended(pin) != OutputBitIntended(other)
  {
  }

  /** The strict comparison sends pin 97, the first X pin, to bit 17 of the Y bank. */
  lemma FirstXPinGoesToY()
    ensures ValidPin(StartX) && OutputBit(StartX) == (OffY, 17)
    ensures OutputBitIntended(StartX) == (OffX, 0)
  {
  }

  /** Apart from pin 97 the strict rule agrees with the intended one, and so on all four display pins. */
  lemma OutputBitAgreesElsewhere(pin: nat)
    requires ValidPin(pin) && pin != StartX
    ensures OutputBit(pin) == OutputBitIntended(pin)
  {
  }

  /**
    The bits startup and shutdown touch are those of the header's pins:
    88 - 80 = 8 on the Y bank and 116 - 97, 115 - 97, 103 - 97 = 19, 18, 6 on
    the X bank, each in the word one below the bank's output word.
  */
  lemma DirBitsMatchPins()
    ensures DirBits() == {(0x0F, 8), (0x0C, 19), (0x0C, 18), (0x0C, 6)}
    ensures OffY - 1 == 0x0F && OffX - 1 == 0x0C
    ensures forall p :: p in Pins ==> OutputBit(p) == OutputBitIntended(p)
  {
    assert DirectionBit(PinData) == (0x0F, 8);
    assert DirectionBit(PinClk) == (0x0C, 19);
    assert DirectionBit(PinLatch) == (0x0C, 18);
    assert DirectionBit(PinBlank) == (0x0C, 6);
  }
}
