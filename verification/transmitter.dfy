/**
  The shift-register protocol of the monitor daemon (`sendFrame16`,
  `commitFrame`, and the frames `gpioDeinit`, `allon` and `alloff` send).

  The daemon talks to a serial-in, parallel-out LED driver over three pins:
  DATA, CLOCK and LATCH. What it does is a trace of pin events: a pin driven
  high or low, a memory barrier (`__sync_synchronize`), or the pins being
  claimed as outputs or released as inputs. The register words each platform
  writes for an event are in `MonolithPins`.

  The driver chip is modelled only as a reference decoder of a trace: the
  DATA level is shifted in on every rising edge of CLOCK, and a LATCH pulse
  (high, then low) shows the shifted bits on the outputs when it ends.
*/
module Transmitter {
  import opened Common
  import opened Planes

  datatype Line = Data | Clock | Latch

  datatype Event =
    | Fence                     // `__sync_synchronize()`
    | Drive(line: Line, level: bool)
    | Configure(output: bool)   // the pins claimed as outputs (true) or released as inputs

  /** The frame with every output off. */
  function Blank(): (f: Frame)
    ensures forall j :: 0 <= j < FrameBits ==> !f[j]
  {
    seq(FrameBits, _ => false)
  }

  /** The frame with every output on. */
  function Full(): (f: Frame)
    ensures forall j :: 0 <= j < FrameBits ==> f[j]
  {
    seq(FrameBits, _ => true)
  }

  /** 2^64: `unsigned long long` arithmetic is modulo this. */
  const ULongLimit: nat := 0x1_0000_0000_0000_0000

  /**
    `std::bitset<16>(v)` for an integer argument: the argument is converted to
    `unsigned long long` (taken modulo 2^64) and its low 16 bits are kept.
  */
  function FrameOfInt(v: int): (f: Frame) {
    seq(FrameBits, j requires 0 <= j < FrameBits => Bit(v % ULongLimit, j))
  }

  /** The "all ones" argument `-1` gives the full frame, `0` the blank one. */
  lemma FrameOfIntExtremes()
    ensures FrameOfInt(-1) == Full()
    ensures FrameOfInt(0) == Blank()
  {
    ULongLimitIsPow2();
    forall j | 0 <= j < FrameBits
      ensures FrameOfInt(-1)[j]
    {
      AllOnesBit(64, j);
    }
    assert FrameOfInt(-1) == Full();
    assert FrameOfInt(0) == Blank();
  }

  /** Every bit below `n` of 2^n - 1 is set. */
  lemma AllOnesBit(n: nat, j: nat)
    requires j < n
    ensures Bit(Pow2(n) - 1, j)
  {
    var m, h := Pow2(j), Pow2(n - j - 1);
    var p, q := Pow2(n), 2 * h - 1;
    assert p == (q + 1) * m by {
      Pow2Add(n - j, j);
      assert Pow2(n - j) == 2 * h == q + 1;
    }
    assert (p - 1) / m == q by {
      QuotientBelowMultiple(q, m);
    }
    assert q % 2 == 1 by {
      ModUnique(q, 2, h - 1, 1);
    }
  }

  lemma QuotientBelowMultiple(q: nat, m: nat)
    requires m > 0
    ensures ((q + 1) * m - 1) / m == q
  {
    assert (q + 1) * m == q * m + m;
    ModUnique((q + 1) * m - 1, m, q, m - 1);
  }

  lemma ULongLimitIsPow2()
    ensures Pow2(64) == ULongLimit
  {
    Pow2Of32();
    Pow2Add(32, 32);
  }

  lemma Pow2Of32()
    ensures Pow2(32) == 0x1_0000_0000
  {
    Pow2Of16();
    Pow2Add(16, 16);
  }

  lemma Pow2Of16()
    ensures Pow2(16) == 0x1_0000
  {
    assert Pow2(8) == 256;
    Pow2Add(8, 8);
  }

  /** One bit of `sendFrame16`: clock low, data to the bit, clock high. */
  function BitGroup(f: Frame, i: nat): (t: seq<Event>)
    requires i < FrameBits
    ensures |t| == 5
    ensures forall e :: e in t ==> e.Fence? || (e.Drive? && e.line != Latch)
    ensures forall k :: 0 <= k < |t| && t[k].Drive? && t[k].line == Data ==> 1 < k < |t| - 1 && t[k].level == f[FrameBits - 1 - i]
    ensures t[1] == Drive(Clock, false) && t[|t| - 1] == Drive(Clock, true)
  {
    [Fence, Drive(Clock, false), Drive(Data, f[FrameBits - 1 - i]), Fence, Drive(Clock, true)]
  }

  /** The first `n` bit groups of `sendFrame16`, most significant bit first. */
  function SendBits(f: Frame, n: nat): (t: seq<Event>)
    requires n <= FrameBits
    ensures |t| == 5 * n
    ensures forall e :: e in t ==> e.Fence? || (e.Drive? && e.line != Latch)
    decreases n
  {
    if n == 0 then [] else SendBits(f, n - 1) + BitGroup(f, n - 1)
  }

  /** `sendFrame16(f)`: the 16 bit groups; the latch is not touched. */
  function SendFrame16(f: Frame): (t: seq<Event>)
    ensures |t| == 5 * FrameBits
    ensures forall e :: e in t ==> e.Fence? || (e.Drive? && e.line != Latch)
  {
    SendBits(f, FrameBits)
  }

  /** `commitFrame()`: one latch pulse. */
  function CommitFrame(): (t: seq<Event>)
    ensures |t| == 4
    ensures forall e :: e in t ==> e.Fence? || (e.Drive? && e.line == Latch)
    ensures Drive(Latch, true) in t && t[|t| - 1] == Drive(Latch, false)
  {
    [Fence, Drive(Latch, true), Fence, Drive(Latch, false)]
  }

  /** `gpioInit()`, as far as the pins are concerned. */
  function GpioInit(): (t: seq<Event>)
    ensures |t| > 0
    ensures forall e :: e in t ==> e.Configure? && e.output
  {
    [Configure(true)]
  }

  /**
    `gpioDeinit(noclear)`: unless `noclear` is set, blank the display first;
    then release the pins.
  */
  function GpioDeinit(noclear: bool): (t: seq<Event>)
    ensures |t| > 0 && t[|t| - 1] == Configure(false)
    ensures noclear ==> t == [Configure(false)]
  {
    (if noclear then [] else SendFrame16(FrameOfInt(0)) + CommitFrame()) + [Configure(false)]
  }

  /** A one-shot command: claim the pins, send and show `f`, release the pins without blanking. */
  function Command(f: Frame): (t: seq<Event>)
    ensures |t| == 1 + 5 * FrameBits + 4 + 1
    ensures t[0] == Configure(true) && t[|t| - 1] == Configure(false)
  {
    var body := SendFrame16(f) + CommitFrame();
    assert |body| == 5 * FrameBits + 4;
    GpioInit() + body + GpioDeinit(true)
  }

  /** The `allon` command: every LED on, and left on when the pins are released. */
  function AllOn(): (t: seq<Event>)
    ensures |t| == 1 + 5 * FrameBits + 4 + 1
    ensures t[0] == Configure(true) && t[|t| - 1] == Configure(false)
  {
    Command(FrameOfInt(-1))
  }

  /** The `alloff` command: every LED off. */
  function AllOff(): (t: seq<Event>)
    ensures |t| == 1 + 5 * FrameBits + 4 + 1
    ensures t[0] == Configure(true) && t[|t| - 1] == Configure(false)
  {
    Command(FrameOfInt(0))
  }

  // ---------------------------------------------------------------------------
  // Reference decoder

  /** The driver as a trace decoder: shift register, shown outputs and the three pin levels. */
  datatype Driver = Driver(shift: Frame, shown: Frame, clock: bool, data: bool, latch: bool)

  /** A clocked-in bit enters at output 0 and every other bit moves one output up. */
  function ShiftIn(s: Frame, b: bool): (r: Frame)
    ensures r[0] == b
    ensures forall j :: 1 <= j < FrameBits ==> r[j] == s[j - 1]
  {
    [b] + s[..FrameBits - 1]
  }

  function Step(d: Driver, e: Event): (r: Driver) {
    match e
    case Fence => d
    case Configure(_) => d
    case Drive(Data, level) => d.(data := level)
    case Drive(Clock, level) =>
      if level && !d.clock then d.(clock := true, shift := ShiftIn(d.shift, d.data)) else d.(clock := level)
    case Drive(Latch, level) =>
      if !level && d.latch then d.(latch := false, shown := d.shift) else d.(latch := level)
  }

  /** The driver after a whole trace. */
  function Run(d: Driver, t: seq<Event>): (r: Driver)
    decreases |t|
  {
    if |t| == 0 then d else Step(Run(d, t[..|t| - 1]), t[|t| - 1])
  }

  /** Running a trace and then one more event. */
  lemma RunSnoc(d: Driver, t: seq<Event>, e: Event)
    ensures Run(d, t + [e]) == Step(Run(d, t), e)
  {
    assert (t + [e])[..|t + [e]| - 1] == t;
  }

  /** Running two traces one after the other. */
  lemma {:induction false} RunAppend(d: Driver, a: seq<Event>, b: seq<Event>)
    ensures Run(d, a + b) == Run(Run(d, a), b)
    decreases |b|
  {
    if |b| == 0 {
      assert a + b == a;
    } else {
      assert (a + b)[..|a + b| - 1] == a + b[..|b| - 1];
      RunAppend(d, a, b[..|b| - 1]);
    }
  }

  /** One bit group shifts in exactly its bit and leaves the clock high. */
  lemma BitGroupEffect(d: Driver, f: Frame, i: nat)
    requires i < FrameBits
    ensures Run(d, BitGroup(f, i)) ==
            d.(clock := true, data := f[FrameBits - 1 - i], shift := ShiftIn(d.shift, f[FrameBits - 1 - i]))
  {
    var b := f[FrameBits - 1 - i];
    var e0, e1, e2, e3, e4 := Fence, Drive(Clock, false), Drive(Data, b), Fence, Drive(Clock, true);
    var t1 := [] + [e0];
    var t2 := t1 + [e1];
    var t3 := t2 + [e2];
    var t4 := t3 + [e3];
    var low := d.(clock := false, data := b);
    assert BitGroup(f, i) == t4 + [e4];
    assert Run(d, t1) == d by {
      RunSnoc(d, [], e0);
    }
    assert Run(d, t2) == d.(clock := false) by {
      RunSnoc(d, t1, e1);
    }
    assert Run(d, t3) == low by {
      RunSnoc(d, t2, e2);
    }
    assert Run(d, t4) == low by {
      RunSnoc(d, t3, e3);
    }
    RunSnoc(d, t4, e4);
  }

  /**
    The shift register after `n` bit groups: the last `n` bits of `f`, most
    significant first in the order sent, at the bottom, and the old contents
    moved up by `n`.
  */
  function Loaded(s: Frame, f: Frame, n: nat): (r: Frame)
    requires n <= FrameBits
  {
    seq(FrameBits, k requires 0 <= k < FrameBits => if k < n then f[FrameBits - n + k] else s[k - n])
  }

  /** One more bit group extends the loaded bits by one. */
  lemma ShiftInLoaded(s: Frame, f: Frame, n: nat)
    requires n < FrameBits
    ensures ShiftIn(Loaded(s, f, n), f[FrameBits - 1 - n]) == Loaded(s, f, n + 1)
  {
    var a, b := ShiftIn(Loaded(s, f, n), f[FrameBits - 1 - n]), Loaded(s, f, n + 1);
    forall k | 0 <= k < FrameBits
      ensures a[k] == b[k]
    {
      if k > 0 {
        assert a[k] == Loaded(s, f, n)[k - 1];
      }
    }
  }

  /** A driver that has loaded `n - 1` bits of `f` has loaded `n` after the next bit group. */
  lemma LoadStep(d: Driver, mid: Driver, f: Frame, n: nat)
    requires 0 < n <= FrameBits
    requires mid.shift == Loaded(d.shift, f, n - 1) && mid.shown == d.shown && mid.latch == d.latch
    ensures var r := Run(mid, BitGroup(f, n - 1)); r.shift == Loaded(d.shift, f, n) && r.shown == d.shown && r.latch == d.latch
  {
    BitGroupEffect(mid, f, n - 1);
    ShiftInLoaded(d.shift, f, n - 1);
  }

  lemma {:induction false} SendBitsLoads(d: Driver, f: Frame, n: nat)
    requires n <= FrameBits
    ensures var r := Run(d, SendBits(f, n)); r.shift == Loaded(d.shift, f, n) && r.shown == d.shown && r.latch == d.latch
    decreases n
  {
    if n == 0 {
      assert Loaded(d.shift, f, 0) == d.shift;
    } else {
      var prefix := SendBits(f, n - 1);
      var mid := Run(d, prefix);
      assert mid.shift == Loaded(d.shift, f, n - 1) && mid.shown == d.shown && mid.latch == d.latch by {
        SendBitsLoads(d, f, n - 1);
      }
      assert Run(d, SendBits(f, n)) == Run(mid, BitGroup(f, n - 1)) by {
        assert SendBits(f, n) == prefix + BitGroup(f, n - 1);
        RunAppend(d, prefix, BitGroup(f, n - 1));
      }
      LoadStep(d, mid, f, n);
    }
  }

  /**
    Decoding `sendFrame16(f)`: whatever the driver held before, its shift
    register holds `f` afterwards; the outputs shown and the latch are untouched.
  */
  lemma SendFrame16Loads(d: Driver, f: Frame)
    ensures Run(d, SendFrame16(f)).shift == f
    ensures Run(d, SendFrame16(f)).shown == d.shown
    ensures Run(d, SendFrame16(f)).latch == d.latch
  {
    SendBitsLoads(d, f, FrameBits);
    assert Loaded(d.shift, f, FrameBits) == f;
  }

  /** `commitFrame()` shows what the shift register holds and leaves the latch low. */
  lemma CommitFrameShows(d: Driver)
    ensures Run(d, CommitFrame()).shown == d.shift
    ensures Run(d, CommitFrame()).shift == d.shift
    ensures !Run(d, CommitFrame()).latch
  {
    var e0, e1, e2, e3 := Fence, Drive(Latch, true), Fence, Drive(Latch, false);
    assert CommitFrame() == [] + [e0] + [e1] + [e2] + [e3];
    RunSnoc(d, [], e0);
    RunSnoc(d, [] + [e0], e1);
    RunSnoc(d, [] + [e0] + [e1], e2);
    RunSnoc(d, [] + [e0] + [e1] + [e2], e3);
  }

  /** Sending a frame and committing it shows exactly that frame. */
  lemma SendAndCommitShows(d: Driver, f: Frame)
    ensures Run(d, SendFrame16(f) + CommitFrame()).shown == f
  {
    RunAppend(d, SendFrame16(f), CommitFrame());
    SendFrame16Loads(d, f);
    CommitFrameShows(Run(d, SendFrame16(f)));
  }

  /** Whatever ran before, sending and committing a frame shows that frame. */
  lemma SendAndCommitShowsAfter(d: Driver, init: seq<Event>, f: Frame)
    ensures Run(d, init + SendFrame16(f) + CommitFrame()).shown == f
  {
    var tail := SendFrame16(f) + CommitFrame();
    assert init + SendFrame16(f) + CommitFrame() == init + tail;
    RunAppend(d, init, tail);
    SendAndCommitShows(Run(d, init), f);
  }

  /** `gpioDeinit()` turns every LED off before releasing the pins. */
  lemma DeinitBlanks(d: Driver)
    ensures Run(d, GpioDeinit(false)).shown == Blank()
  {
    var t := SendFrame16(FrameOfInt(0)) + CommitFrame();
    RunAppend(d, t, [Configure(false)]);
    SendAndCommitShows(d, FrameOfInt(0));
    FrameOfIntExtremes();
  }

  /** `gpioDeinit(1)` releases the pins and leaves the LEDs as they are. */
  lemma DeinitNoclearKeeps(d: Driver)
    ensures Run(d, GpioDeinit(true)) == d
  {
    assert GpioDeinit(true)[..0] == [];
  }

  /** `allon` leaves every LED on, and `alloff` every LED off, once the pins are released. */
  lemma AllOnAllOffShow(d: Driver)
    ensures Run(d, AllOn()).shown == Full()
    ensures Run(d, AllOff()).shown == Blank()
  {
    FrameOfIntExtremes();
    assert AllOn() == Command(Full());
    assert AllOff() == Command(Blank());
    ShowsThenKeeps(d, Full());
    ShowsThenKeeps(d, Blank());
  }

  /** Claiming the pins, sending and committing `f`, then releasing them with `noclear` shows `f`. */
  lemma ShowsThenKeeps(d: Driver, f: Frame)
    ensures Run(d, Command(f)).shown == f
  {
    var a := GpioInit();
    var b := SendFrame16(f) + CommitFrame();
    var c := GpioDeinit(true);
    assert Command(f) == (a + b) + c;
    assert Run(d, (a + b) + c) == Run(d, a + b) by {
      RunAppend(d, a + b, c);
      DeinitNoclearKeeps(Run(d, a + b));
    }
    assert Run(d, a + b) == Run(d, b) by {
      RunAppend(d, a, b);
      assert a[..0] == [];
    }
    SendAndCommitShows(d, f);
  }
}
