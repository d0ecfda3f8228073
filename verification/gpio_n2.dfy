/**
  The Odroid N2 backend (Amlogic GPIO block, X bank).

  Pin numbers are bit positions within the bank's words. Word 0x116 is the
  direction word, in which a 0 bit makes the pin an output; the display is
  driven through the bank's output word.
*/
module GpioN2 {
  import opened Registers

  const PinData: nat := 3
  const PinClk: nat := 4
  const PinLatch: nat := 7
  const PinBlank: nat := 2

  /** The four pins the display uses. */
  const Pins: set<nat> := {PinData, PinClk, PinLatch, PinBlank}

  /** The direction word. */
  const DirOffset: nat := 0x116

  /** The output word as the header writes it: decimal 117. */
  const OutOffset: nat := 117

  /** The output word the monolithic daemon drives for the same pins: the word after the direction word. */
  const OutOffsetIntended: nat := 0x117

  /** The direction bits of the four display pins. */
  function DirBits(): set<(nat, nat)> {
    set p | p in Pins :: (DirOffset, p)
  }

  /** `gpioSet`: set bit `pin` of word 117. */
  function Set(rf: RegFile, pin: nat): (r: RegFile)
    requires IsPage(rf) && pin < WordBits
    ensures Forced(rf, r, {(OutOffset, pin)}, true)
  {
    SetBit(rf, 117, pin)
  }

  /** `gpioClear`: clear bit `pin` of word 117. */
  function Clear(rf: RegFile, pin: nat): (r: RegFile)
    requires IsPage(rf) && pin < WordBits
    ensures Forced(rf, r, {(OutOffset, pin)}, false)
  {
    ClearBit(rf, 117, pin)
  }

  /** `gpioSet` addressing the output word that follows the direction word. */
  function SetIntended(rf: RegFile, pin: nat): (r: RegFile)
    requires IsPage(rf) && pin < WordBits
    ensures Forced(rf, r, {(DirOffset + 1, pin)}, true)
  {
    SetBit(rf, OutOffsetIntended, pin)
  }

  /** `gpioClear` addressing the output word that follows the direction word. */
  function ClearIntended(rf: RegFile, pin: nat): (r: RegFile)
    requires IsPage(rf) && pin < WordBits
    ensures Forced(rf, r, {(DirOffset + 1, pin)}, false)
  {
    ClearBit(rf, OutOffsetIntended, pin)
  }

  /** Startup: clear the four direction bits (outputs). */
  function Init(rf: RegFile): (r: RegFile)
    requires IsPage(rf)
    ensures Forced(rf, r, DirBits(), false)
  {
    var r := ClearBit(rf, 0x116, 3);
    var r := ClearBit(r, 0x116, 4);
    var r := ClearBit(r, 0x116, 7);
    ClearBit(r, 0x116, 2)
  }

  /** Shutdown: set the four direction bits again (inputs). */
  function Deinit(rf: RegFile): (r: RegFile)
    requires IsPage(rf)
    ensures Forced(rf, r, DirBits(), true)
  {
    var r := SetBit(rf, 0x116, 3);
    var r := SetBit(r, 0x116, 4);
    var r := SetBit(r, 0x116, 7);
    SetBit(r, 0x116, 2)
  }

  /** Setting a pin that is already set changes nothing. */
  lemma SetIdempotent(rf: RegFile, pin: nat)
    requires IsPage(rf) && pin < WordBits
    ensures Set(Set(rf, pin), pin) == Set(rf, pin)
  {
    ForcedTwice(rf, Set(rf, pin), Set(Set(rf, pin), pin), {(OutOffset, pin)}, true, true);
    ForcedUnique(rf, Set(Set(rf, pin), pin), Set(rf, pin), {(OutOffset, pin)}, true);
  }

  /** Set then clear leaves the pin's bit 0 and the file as clearing alone would. */
  lemma ClearAfterSet(rf: RegFile, pin: nat)
    requires IsPage(rf) && pin < WordBits
    ensures Clear(Set(rf, pin), pin) == Clear(rf, pin)
    ensures !Clear(Set(rf, pin), pin)[OutOffset][pin]
  {
    ForcedTwice(rf, Set(rf, pin), Clear(Set(rf, pin), pin), {(OutOffset, pin)}, true, false);
    ForcedUnique(rf, Clear(Set(rf, pin), pin), Clear(rf, pin), {(OutOffset, pin)}, false);
  }

  /** Running startup twice is the same as running it once. */
  lemma InitIdempotent(rf: RegFile)
    requires IsPage(rf)
    ensures Init(Init(rf)) == Init(rf)
  {
    ForcedTwice(rf, Init(rf), Init(Init(rf)), DirBits(), false, false);
    ForcedUnique(rf, Init(Init(rf)), Init(rf), DirBits(), false);
  }

  /** Running shutdown twice is the same as running it once. */
  lemma DeinitIdempotent(rf: RegFile)
    requires IsPage(rf)
    ensures Deinit(Deinit(rf)) == Deinit(rf)
  {
    ForcedTwice(rf, Deinit(rf), Deinit(Deinit(rf)), DirBits(), true, true);
    ForcedUnique(rf, Deinit(Deinit(rf)), Deinit(rf), DirBits(), true);
  }

  /** Shutdown after startup leaves the four bits at 1 and every other bit as it was. */
  lemma DeinitAfterInit(rf: RegFile)
    requires IsPage(rf)
    ensures Deinit(Init(rf)) == Deinit(rf)
  {
    ForcedTwice(rf, Init(rf), Deinit(Init(rf)), DirBits(), false, true);
    ForcedUnique(rf, Deinit(Init(rf)), Deinit(rf), DirBits(), true);
  }

  /**
    The header's pins are four distinct bits of one word, so every shift is
    defined, and they are exactly the bits startup and shutdown touch.
  */
  lemma PinsMatchDirBits()
    ensures |Pins| == 4 && forall p :: p in Pins ==> p < WordBits
    ensures DirBits() == {(DirOffset, 3), (DirOffset, 4), (DirOffset, 7), (DirOffset, 2)}
  {
  }

  /**
    The decimal output offset is not the word after the direction word, so
    `gpioSet` never reaches the output word the monolithic daemon drives for
    the same pins (word 0x117): that word keeps its old value.
  */
  lemma SetMissesOutputWord(rf: RegFile, pin: nat)
    requires IsPage(rf) && pin < WordBits
    ensures OutOffset != DirOffset + 1
    ensures Set(rf, pin)[OutOffsetIntended] == rf[OutOffsetIntended]
  {
  }
}
