/**
  The Raspberry Pi 3/4 backend (BCM2835-style GPIO block).

  Pin modes live in 3-bit function-select fields, ten pins per word: pin `p`
  is configured by bits `3 * (p % 10)` .. `3 * (p % 10) + 2` of word `p / 10`.
  Mode 000 is input and 001 is output. Output levels are driven through the
  write-only set and clear words 7 and 10, where writing `1 << pin` acts on
  that pin alone.
*/
module GpioPi3 {
  import opened Registers

  const PinData: nat := 17
  const PinClk: nat := 27
  const PinLatch: nat := 22
  const PinBlank: nat := 25

  /** The four pins the display uses. */
  const Pins: set<nat> := {PinData, PinClk, PinLatch, PinBlank}

  /** Word offsets of the output set and clear registers. */
  const SetOffset: nat := 7
  const ClearOffset: nat := 10

  /** A function-select field, least significant bit first. */
  type Mode = m: seq<bool> | |m| == 3 witness [false, false, false]

  const Input: Mode := [false, false, false]
  const Output: Mode := [true, false, false]

  /** Word holding the function-select field of pin `p`. */
  function FselWord(p: nat): nat {
    p / 10
  }

  /** Lowest bit of the function-select field of pin `p`. */
  function FselShift(p: nat): (s: nat)
    ensures s + 3 <= 30
  {
    3 * (p % 10)
  }

  /** The function-select field of pin `p`. */
  function FselField(rf: RegFile, p: nat): Mode
    requires FselWord(p) < |rf|
  {
    rf[FselWord(p)][FselShift(p)..FselShift(p) + 3]
  }

  /**
    Whether bit `i` of word `w` belongs to the field of one of the display
    pins. Bits 30 and 31 of a function-select word belong to no pin.
  */
  predicate Configured(w: nat, i: nat) {
    i < 30 && 10 * w + i / 3 in Pins
  }

  /** Only the fields of the display pins may differ between the two files. */
  predicate OnlyPinFields(before: RegFile, after: RegFile) {
    && |after| == |before|
    && forall w, i :: 0 <= w < |before| && 0 <= i < WordBits && !Configured(w, i) ==>
         after[w][i] == before[w][i]
  }

  /**
    `after` is `before` with the field of every display pin set to `m` and
    every other bit kept.
  */
  predicate PinFieldsSet(before: RegFile, after: RegFile, m: Mode) {
    && |after| == |before|
    && forall w, i :: 0 <= w < |before| && 0 <= i < WordBits ==>
         after[w][i] == if Configured(w, i) then m[i % 3] else before[w][i]
  }

  /** `~(7 << shift)`: every bit except one 3-bit field. */
  function FieldHole(shift: nat): Word
    requires shift + 3 <= WordBits
  {
    Not(Ones(shift, 3))
  }

  /**
    The updates of word 1 at startup: the field of pin 17 is reset to 000 and
    then its low bit is set.
  */
  function InitWord1(w: Word): (r: Word)
    ensures forall i :: 0 <= i < WordBits ==> r[i] == if Configured(1, i) then Output[i % 3] else w[i]
  {
    Or(And(w, FieldHole(7 * 3)), Bit(7 * 3))
  }

  /**
    The updates of word 2 at startup: the fields of pins 22, 25 and 27 are
    reset to 000, and then their low bits are set.
  */
  function InitWord2(w: Word): (r: Word)
    ensures forall i :: 0 <= i < WordBits ==> r[i] == if Configured(2, i) then Output[i % 3] else w[i]
  {
    var w := And(And(And(w, FieldHole(2 * 3)), FieldHole(5 * 3)), FieldHole(7 * 3));
    Or(Or(Or(w, Bit(2 * 3)), Bit(5 * 3)), Bit(7 * 3))
  }

  /** The updates of word 2 at shutdown. */
  function DeinitWord2(w: Word): (r: Word)
    ensures forall i :: 0 <= i < WordBits ==> r[i] == if Configured(2, i) then Input[i % 3] else w[i]
  {
    And(And(And(w, FieldHole(2 * 3)), FieldHole(5 * 3)), FieldHole(7 * 3))
  }

  /**
    Startup: the four fields are reset to 000 and then set to 001 (output).
    The source interleaves the stores to words 1 and 2; they touch different
    words, so each word sees the same sequence of updates as here.
  */
  function Init(rf: RegFile): (r: RegFile)
    requires IsPage(rf)
    ensures PinFieldsSet(rf, r, Output)
  {
    rf[1 := InitWord1(rf[1])][2 := InitWord2(rf[2])]
  }

  /** Shutdown: reset the four fields to 000 (input). */
  function Deinit(rf: RegFile): (r: RegFile)
    requires IsPage(rf)
    ensures PinFieldsSet(rf, r, Input)
  {
    rf[1 := And(rf[1], FieldHole(7 * 3))][2 := DeinitWord2(rf[2])]
  }

  /** `gpioSet`: a blind store of `1 << pin` into the set word. */
  function Set(rf: RegFile, pin: nat): (r: RegFile)
    requires IsPage(rf) && pin < WordBits
    ensures SameOutside(rf, r, {SetOffset})
    ensures forall i :: 0 <= i < WordBits ==> (r[SetOffset][i] <==> i == pin)
  {
    WriteWord(rf, SetOffset, Bit(pin))
  }

  /** `gpioClear`: a blind store of `1 << pin` into the clear word. */
  function Clear(rf: RegFile, pin: nat): (r: RegFile)
    requires IsPage(rf) && pin < WordBits
    ensures SameOutside(rf, r, {ClearOffset})
    ensures forall i :: 0 <= i < WordBits ==> (r[ClearOffset][i] <==> i == pin)
  {
    WriteWord(rf, ClearOffset, Bit(pin))
  }

  // ----- reference definition: one field at a time -----

  /** Replace the function-select field of pin `p` by `m`, leaving everything else. */
  function WithMode(rf: RegFile, p: nat, m: Mode): (r: RegFile)
    requires FselWord(p) < |rf|
    ensures |r| == |rf|
    ensures forall w, i :: 0 <= w < |rf| && 0 <= i < WordBits ==>
      r[w][i] == if w == FselWord(p) && FselShift(p) <= i < FselShift(p) + 3 then m[i - FselShift(p)] else rf[w][i]
  {
    var w := rf[FselWord(p)];
    var s := FselShift(p);
    rf[FselWord(p) := w[..s] + m + w[s + 3..]]
  }

  /**
    Setting the display pins' fields leaves every other field alone and gives
    each display pin, located by the BCM2835 rule (word `p / 10`, shift
    `3 * (p % 10)`), exactly the mode written.
  */
  lemma PinFieldsSetMeaning(before: RegFile, after: RegFile, m: Mode)
    requires IsPage(before) && PinFieldsSet(before, after, m)
    ensures OnlyPinFields(before, after)
    ensures forall p :: p in Pins ==> FselField(after, p) == m
  {
    forall p | p in Pins
      ensures FselField(after, p) == m
    {
      var w, s := FselWord(p), FselShift(p);
      forall j | 0 <= j < 3
        ensures after[w][s + j] == m[j]
      {
        assert Configured(w, s + j);
      }
    }
  }

  /** After startup each display pin is an output and nothing else has changed. */
  lemma InitMakesOutputs(rf: RegFile)
    requires IsPage(rf)
    ensures OnlyPinFields(rf, Init(rf))
    ensures forall p :: p in Pins ==> FselField(Init(rf), p) == Output
  {
    PinFieldsSetMeaning(rf, Init(rf), Output);
  }

  /** After shutdown each display pin is an input, whatever it was before. */
  lemma DeinitMakesInputs(rf: RegFile)
    requires IsPage(rf)
    ensures OnlyPinFields(rf, Deinit(rf))
    ensures forall p :: p in Pins ==> FselField(Deinit(rf), p) == Input
  {
    PinFieldsSetMeaning(rf, Deinit(rf), Input);
  }

  /** Setting the pins' fields twice to the same or to different modes: the last write wins. */
  lemma PinFieldsSetTwice(a: RegFile, b: RegFile, c: RegFile, m: Mode, n: Mode)
    requires PinFieldsSet(a, b, m) && PinFieldsSet(b, c, n)
    ensures PinFieldsSet(a, c, n)
  {
  }

  /** The result of setting the pins' fields is determined by the starting file and the mode. */
  lemma PinFieldsSetUnique(a: RegFile, b: RegFile, c: RegFile, m: Mode)
    requires PinFieldsSet(a, b, m) && PinFieldsSet(a, c, m)
    ensures b == c
  {
    forall w, i | 0 <= w < |a| && 0 <= i < WordBits
      ensures b[w][i] == c[w][i]
    {
      assert b[w][i] == if Configured(w, i) then m[i % 3] else a[w][i];
    }
    FilesEqual(b, c);
  }

  /** Running startup twice is the same as running it once. */
  lemma InitIdempotent(rf: RegFile)
    requires IsPage(rf)
    ensures Init(Init(rf)) == Init(rf)
  {
    PinFieldsSetTwice(rf, Init(rf), Init(Init(rf)), Output, Output);
    PinFieldsSetUnique(rf, Init(Init(rf)), Init(rf), Output);
  }

  /** Running shutdown twice is the same as running it once. */
  lemma DeinitIdempotent(rf: RegFile)
    requires IsPage(rf)
    ensures Deinit(Deinit(rf)) == Deinit(rf)
  {
    PinFieldsSetTwice(rf, Deinit(rf), Deinit(Deinit(rf)), Input, Input);
    PinFieldsSetUnique(rf, Deinit(Deinit(rf)), Deinit(rf), Input);
  }

  /** Shutdown after startup leaves the register file as shutdown alone would. */
  lemma DeinitAfterInit(rf: RegFile)
    requires IsPage(rf)
    ensures Deinit(Init(rf)) == Deinit(rf)
  {
    PinFieldsSetTwice(rf, Init(rf), Deinit(Init(rf)), Output, Input);
    PinFieldsSetUnique(rf, Deinit(Init(rf)), Deinit(rf), Input);
  }

  /** Distinct pins own disjoint fields, so their mode updates commute. */
  lemma WithModeCommutes(rf: RegFile, p: nat, q: nat, m: Mode, n: Mode)
    requires FselWord(p) < |rf| && FselWord(q) < |rf| && p != q
    ensures WithMode(WithMode(rf, p, m), q, n) == WithMode(WithMode(rf, q, n), p, m)
  {
    FilesEqual(WithMode(WithMode(rf, p, m), q, n), WithMode(WithMode(rf, q, n), p, m));
  }

  /**
    Startup equals configuring the display pins one at a time, in the order
    of the source's comments; with `WithModeCommutes` any order gives the same file.
  */
  lemma InitIsPerPin(rf: RegFile)
    requires IsPage(rf)
    ensures Init(rf) == WithMode(WithMode(WithMode(WithMode(rf, 17, Output), 22, Output), 25, Output), 27, Output)
  {
    FilesEqual(Init(rf), WithMode(WithMode(WithMode(WithMode(rf, 17, Output), 22, Output), 25, Output), 27, Output));
  }

  /** The four display pins are distinct and each fits in one 32-bit set or clear word. */
  lemma PinsDistinctBelow32()
    ensures |Pins| == 4
    ensures forall p :: p in Pins ==> p < WordBits
  {
  }

  /** Set and clear are blind stores: the word they write does not depend on what the registers held before. */
  lemma SetClearForgetContents(rf1: RegFile, rf2: RegFile, pin: nat)
    requires IsPage(rf1) && IsPage(rf2) && pin < WordBits
    ensures Set(rf1, pin)[SetOffset] == Set(rf2, pin)[SetOffset]
    ensures Clear(rf1, pin)[ClearOffset] == Clear(rf2, pin)[ClearOffset]
  {
    assert Set(rf1, pin)[SetOffset] == Bit(pin) == Set(rf2, pin)[SetOffset];
    assert Clear(rf1, pin)[ClearOffset] == Bit(pin) == Clear(rf2, pin)[ClearOffset];
  }
}
