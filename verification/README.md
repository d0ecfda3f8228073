# pistackmond in Dafny

A model of the core of `pistackmond`, the daemon that drives the LED display
of a Pi/Odroid stack case, with proofs about it. The daemon:

- samples CPU load, RAM use and SoC temperature;
- turns them into three 5-LED thermometer bars;
- encodes the sixteen LED brightnesses as `pwm_res` binary-weighted bit planes;
- plays those planes through a serial-in, parallel-out LED driver chip on
  three (or, in the newer backends, four) GPIO pins.

The model covers two generations of the code, modelled separately and compared:

- the single-file daemon `sw/src/pistackmond.cpp`;
- the per-platform GPIO backends `sw/src/gpio_*.{h,cpp}`.

Where the two generations disagree, the lemmas in `MonolithPins` state the
difference rather than reconcile it.

Modules, one per file:

| module | file | what it holds |
|---|---|---|
| `Common` | common.dfy | `Option`, powers of two, bit `i` of a natural number, small arithmetic lemmas |
| `Registers` | registers.dfy | a 32-bit register word as 32 booleans, a 1024-word register file (one 4096-byte window), `|=`, `&=`, whole-word stores, and the `Forced` frame predicate ("these bits are forced to v, every other bit is kept") |
| `LineParser` | line_parser.dfy | `getIntsFromLine` and its stream semantics |
| `Bars` | bars.dfy | `led_pwms`: layouts, bars, multiplier scaling |
| `Planes` | planes.dfy | `format_pwms`: quantisation and bit-plane transposition |
| `Transmitter` | transmitter.dfy | `sendFrame16`, `commitFrame`, `gpioDeinit`, `allon`/`alloff` as traces of pin events, with a reference decoder of the driver chip |
| `Renderer` | renderer.dfy | the `PWM()` thread: snapshot, slot order, deadlines |
| `Sampler` | sampler.dfy | the `main` loop: divider, caches, missing sensor latch, refresh deadlines |
| `MonolithPins` | monolith_pins.dfy | the register words the single-file daemon writes per platform, compared with the split backends |
| `GpioPi3`, `GpioC1`, `GpioC2`, `GpioN2`, `GpioM1` | gpio_*.dfy | the split backends as transformers of register files |

Representation choices:

- A register word is a `seq<bool>` of 32 bits, and a frame (`std::bitset<16>`)
  a `seq<bool>` of 16 bits. Bit `i` is element `i` in both.
  - The C++ operators become bitwise statements: `|=`, `&= ~`, `1 << b`, and
    the 3-bit field splice.
  - No bit-vector arithmetic is involved.
- Brightnesses are Dafny `real`s.
  - The gamma curve `std::pow(x, led_gamma)` is a function parameter, so every
    bar property holds for any curve.
  - Float rounding is not modelled.
- Time is a whole number of microseconds.
  - Clock readings are taken at microsecond granularity. The daemon's
    `high_resolution_clock` comparisons can see lateness below a microsecond;
    the model cannot.
  - The clock is an input: each deadline update reads it twice, once to compare
    and once to restart, and both readings are passed in.
- The fetchers (`fetchCpu`, `fetchRam`, `fetchTemp`) are inputs: one `Reading`
  per refresh.
- The lock's `try_lock` is an `Option` snapshot: `None` when the lock was taken.
- The width of `long` depends on the build target. It is 32 bits on the ILP32
  targets (the ARMv7 Odroid C1, 32-bit Raspberry Pi OS) and 64 bits on the LP64
  ones, so `getIntsFromLine` takes the target (`LineParser.LongWidth`) as a
  parameter.

Where the code and its documentation disagree, the model follows the code:

- `format_pwms` truncates the scaled brightness (`static_cast<uint16_t>`); it
  does not round it.
- The comment on the last deinit line of `gpio_C2.cpp` says "X.9", but the bit
  written is 3.

## Model

| member | source | states |
|---|---|---|
| LineParser.ParseLong | sw/src/pistackmond.cpp:131-141 | extracting a `long` from one token succeeds only when the token starts with a digit, or with a sign followed by a digit, and the value lies in the range of `long` on the build target (32 bits on ILP32, 64 on LP64) |
| LineParser.LongRange | sw/src/pistackmond.cpp:131 | `long` spans -2^31 .. 2^31 - 1 on an ILP32 target and -2^63 .. 2^63 - 1 on an LP64 one |
| LineParser.LongWidthDecides | sw/src/pistackmond.cpp:141 | the token `2147483648` is dropped on an ILP32 target, such as the ARMv7 Odroid C1, and read as 2147483648 on an LP64 one |
| LineParser.ParseLongLeadingDigits | sw/src/pistackmond.cpp:141 | the extracted value is the leading run of digits, negated after `-`, whatever follows the run (`12abc` gives 12) |
| LineParser.ParseLongEmpty | sw/src/pistackmond.cpp:141 | an empty token yields no value |
| LineParser.SkipWhitespace | sw/src/pistackmond.cpp:140 | skipping whitespace stops at the first non-space character at or after the position, having passed only spaces |
| LineParser.ScanToken | sw/src/pistackmond.cpp:140 | reading a string stops at the next whitespace character or the end of the line |
| LineParser.WordsFromSqueeze | sw/src/pistackmond.cpp:140 | the words read are non-empty and space-free, and together they are the line with its whitespace removed |
| LineParser.ReadAndParse | sw/src/pistackmond.cpp:139-144 | one iteration of the loop: it consumes input (or reaches end of file), keeps the reading invariant, and at end of file its output is every word's value plus the repeated last value when the line ends in whitespace |
| LineParser.ScanLine | sw/src/pistackmond.cpp:139-144 | the whole loop, for any token parser that rejects the empty token: the values of the words in order, plus the repeated trailing value |
| LineParser.GetIntsFromLine | sw/src/pistackmond.cpp:127-146 | on a target with `long` width `w`, `getIntsFromLine` returns the value of every whitespace-separated word that starts with an integer fitting in a `long`, in order, plus the value of the last word a second time when the line ends in whitespace |
| LineParser.TrailingSpaceRepeats | sw/src/pistackmond.cpp:139-144 | the line `"7 "` has the single integer 7, but the loop returns `[7, 7]` |
| LineParser.ReadOnceIntended | sw/src/pistackmond.cpp:139-144 | a loop iteration that checks the extraction before using it keeps the invariant and ends with exactly the words' values |
| LineParser.ScanLineIntended | sw/src/pistackmond.cpp:139-144 | the checked loop returns exactly the values of the words, for any token parser |
| LineParser.GetIntsFromLineIntended | sw/src/pistackmond.cpp:127-146 | the evidently intended `getIntsFromLine`: exactly the values of the words that start with an integer, in order |
| LineParser.MemTotalWords | sw/src/pistackmond.cpp:269-270 | `"MemTotal:  8000 kB"` splits into the words `MemTotal:`, `8000` and `kB` |
| LineParser.ParseExamples | sw/src/pistackmond.cpp:269-270 | of those words only `8000` yields an integer |
| LineParser.MemTotalLine | sw/src/pistackmond.cpp:269-270 | `getIntsFromLine("MemTotal:  8000 kB")` is `[8000]`, so `.at(0)` reads the total |
| Bars.PlaceBar | sw/src/pistackmond.cpp:297-303 | one bar loop sets channels of fully reached bands to 1, the first band not reached to gamma of its fraction, stops there, and leaves every other channel as it was; it returns the number of full bands |
| Bars.FullBandsUnique | sw/src/pistackmond.cpp:297-303 | the number of full bands of a value is unique |
| Bars.FullBandsIsClampedFloor | sw/src/pistackmond.cpp:297-303 | that number is `floor((v - base) / width)` clamped to 0..5 |
| Bars.LayoutsValid | sw/src/pistackmond.cpp:73-75 | each layout vector has five distinct entries, all inside the sixteen outputs |
| Bars.LayoutsDisjoint | sw/src/pistackmond.cpp:73-75 | the three layouts share no output |
| Bars.LayoutsCover | sw/src/pistackmond.cpp:73-75 | together they cover outputs 0 to 14, and output 15 is in none of them |
| Bars.DrawPercentBars | sw/src/pistackmond.cpp:295-311 | the CPU and RAM loops on a dark output vector draw both bars (band width 20, base 0) and leave the temperature group and output 15 dark |
| Bars.DrawTempBar | sw/src/pistackmond.cpp:312-320 | above 40 degrees the temperature bar (band width 10, base 40) is drawn and the CPU and RAM bars are kept; at 40 or below nothing changes |
| Bars.LedPwms | sw/src/pistackmond.cpp:290-325 | `led_pwms`: all three bars as described, output 15 dark, and every output scaled by its multiplier |
| Bars.ScaleAsWritten | sw/src/pistackmond.cpp:322 | the scaling loop reads `led_pwm_multipliers[i]` for i < 16, so it is defined only when the table has at least 16 entries |
| Bars.ScalingReadsPastTable | sw/src/pistackmond.cpp:83-85 | the table has 15 entries, so the loop as written reads past its end |
| Bars.Scale | sw/src/pistackmond.cpp:322 | the corrected scaling: outputs with a multiplier are multiplied by it, the others are kept |
| Bars.ScaleIsIdentity | sw/src/pistackmond.cpp:80-85 | every multiplier is 1, so scaling changes nothing |
| Planes.MaxLevel | sw/src/pistackmond.cpp:337 | full brightness maps to `2^pwm_res - 1` |
| Planes.Quantise | sw/src/pistackmond.cpp:337 | the scaled brightness truncated toward zero; undefined when the truncated value does not fit in `uint16_t` |
| Planes.QuantiseUnitRange | sw/src/pistackmond.cpp:337 | brightness 0 to 1 gives a level from 0 to 63, and only brightness 1 gives 63 |
| Planes.QuantiseAll | sw/src/pistackmond.cpp:336-338 | every brightness is quantised, in order; the result is undefined if any conversion is |
| Planes.FormatPwms | sw/src/pistackmond.cpp:329-347 | `format_pwms` is defined exactly when there are at least 16 brightnesses and all conversions are defined; it yields `pwm_res` frames, and bit j of frame i is bit i of output j's level |
| Planes.FormatPwmsRoundTrip | sw/src/pistackmond.cpp:339-345 | summing frame bits times 2^i gives back each output's level modulo 2^pwm_res |
| Planes.FormatPwmsUnitRoundTrip | sw/src/pistackmond.cpp:339-345 | for brightnesses in 0..1 the frames rebuild each level exactly |
| Planes.AboveOneWraps | sw/src/pistackmond.cpp:337 | brightness 2 has level 126, read back as 62: above 1 the level wraps instead of saturating |
| Transmitter.FrameOfIntExtremes | sw/src/pistackmond.cpp:625 | `sendFrame16(-1)` sends all ones and `sendFrame16(0)` all zeros |
| Transmitter.BitGroup | sw/src/pistackmond.cpp:356-362 | one loop iteration of `sendFrame16` is five events that never touch the latch: the clock is driven low first and high last, and the only data drive sits strictly between them at level `f[15 - i]` |
| Transmitter.SendBits | sw/src/pistackmond.cpp:356-362 | the first n bit groups are 5n events that never touch the latch |
| Transmitter.SendFrame16 | sw/src/pistackmond.cpp:352-417 | `sendFrame16` is 80 events that never touch the latch |
| Transmitter.CommitFrame | sw/src/pistackmond.cpp:421-448 | `commitFrame` is four events, barriers and latch drives only; the latch is driven high and the last event drives it low |
| Transmitter.GpioInit | sw/src/pistackmond.cpp:452-512 | as far as the pins are concerned, `gpioInit` only claims them as outputs; it drives no line (its register writes are `MonolithPins.ConfigureRegs`, connected by `MonolithPins.ConfigureTraces`) |
| Transmitter.GpioDeinit | sw/src/pistackmond.cpp:516-521 | releasing the pins is the last event; with `noclear` it is the only one |
| Transmitter.Command | sw/src/pistackmond.cpp:623-636 | each one-shot command is 86 events: the pins claimed first, released last |
| Transmitter.AllOn | sw/src/pistackmond.cpp:623-629 | `allon` is such a command, claiming the pins first and releasing them last; what it shows is `Transmitter.AllOnAllOffShow` |
| Transmitter.AllOff | sw/src/pistackmond.cpp:630-636 | `alloff` likewise |
| Transmitter.BitGroupEffect | sw/src/pistackmond.cpp:356-362 | one bit group leaves the clock high and the data line at bit `15 - i`, and shifts that bit into the driver |
| Transmitter.SendBitsLoads | sw/src/pistackmond.cpp:356-362 | after n groups the driver holds the first n bits sent, most significant first, above its earlier contents; shown outputs and latch are unchanged |
| Transmitter.SendFrame16Loads | sw/src/pistackmond.cpp:352-417 | decoding `sendFrame16(f)` at the clock rises, first rise as most significant bit, rebuilds exactly `f`; nothing is shown yet |
| Transmitter.CommitFrameShows | sw/src/pistackmond.cpp:421-448 | one latch pulse shows the shifted bits and leaves the latch low |
| Transmitter.SendAndCommitShows | sw/src/pistackmond.cpp:594-596 | sending and committing a frame shows exactly that frame, whatever the driver held |
| Transmitter.SendAndCommitShowsAfter | sw/src/pistackmond.cpp:594-596 | the same after any earlier trace |
| Transmitter.DeinitBlanks | sw/src/pistackmond.cpp:516-521 | `gpioDeinit()` blanks the display |
| Transmitter.DeinitNoclearKeeps | sw/src/pistackmond.cpp:516-521 | `gpioDeinit(1)` leaves the driver untouched |
| Transmitter.AllOnAllOffShow | sw/src/pistackmond.cpp:623-636 | `allon` shows every output on and `alloff` every output off |
| Transmitter.ShowsThenKeeps | sw/src/pistackmond.cpp:623-636 | a one-shot command shows its frame and the frame persists after the pins are released |
| Renderer.Period | sw/src/pistackmond.cpp:565-568 | every hold period is at least `pwm_lsb_period` |
| Renderer.PeriodsDouble | sw/src/pistackmond.cpp:565-568 | the first period is 250 µs and each next one is twice the one before |
| Renderer.NextDeadline | sw/src/pistackmond.cpp:589-593 | with a clock that does not go backwards, the new deadline never moves back (it is at least one period after the old one) and is never left in the past (it is at least the reading compared with it); it is one period after the old deadline unless that was already late, and then one period after the second reading |
| Renderer.NextDeadlineBounds | sw/src/pistackmond.cpp:589-593 | with a clock that does not go backwards, the new deadline is at least one period after the old one and not in the past; it is either exactly one period after the old one or at least one period after now |
| Renderer.PlayCycle | sw/src/pistackmond.cpp:588-597 | the `for` loop plays pwm_res slots; slot i sends plane `(i + 1) mod pwm_res`, and its deadline follows from the previous one by the deadline rule with period i |
| Renderer.PwmPass | sw/src/pistackmond.cpp:579-597 | one pass keeps the new snapshot when the lock was free and the old one otherwise; a snapshot with fewer than pwm_res planes sends nothing and leaves the deadline alone |
| Renderer.SlotPlaneBijective | sw/src/pistackmond.cpp:594 | slot order `(i + 1) mod pwm_res` is a bijection on slots and planes, with an explicit inverse |
| Renderer.CycleCoversPlanes | sw/src/pistackmond.cpp:588-597 | every plane is played in exactly one slot of a cycle |
| Renderer.HoldTimes | sw/src/pistackmond.cpp:588-597 | when no deadline had to be reset, the plane latched in a slot stays until the next latch, exactly that plane's period later |
| Renderer.OnTimeWhenNotLate | sw/src/pistackmond.cpp:589-593 | no deadline of a cycle is reset when no clock reading was past the deadline it was compared with |
| Renderer.CycleEndsOnLastSlot | sw/src/pistackmond.cpp:594-596 | after a cycle the driver shows the last slot's frame |
| Renderer.LastSlotIsPlaneZero | sw/src/pistackmond.cpp:594 | the last slot of a cycle plays plane 0 |
| Sampler.RefreshPeriod | sw/src/pistackmond.cpp:53-55 | the refresh period is 100000 µs |
| Sampler.Initial | sw/src/pistackmond.cpp:654-657 | the loop starts with the counter at 0 and a temperature cache that does not count as missing |
| Sampler.Step | sw/src/pistackmond.cpp:659-669 | a refresh that reaches `ref_div` resets the counter and caches the CPU and RAM readings, and the temperature reading unless the sensor is missing; any other refresh only counts; a missing sensor's cache never changes |
| Sampler.Run | sw/src/pistackmond.cpp:657-669 | over any number of refreshes the counter stays in 0 .. `ref_div` - 1, and a missing sensor's cache stays as it was |
| Sampler.Feed | sw/src/pistackmond.cpp:671-673 | the cached CPU and RAM values are fed as they are; the fed temperature is never negative, and it differs from the cache exactly when the sensor is missing |
| Sampler.CounterIsRefreshesMod | sw/src/pistackmond.cpp:657-669 | after n refreshes the divider counter is n mod 5 |
| Sampler.FetchSchedule | sw/src/pistackmond.cpp:661 | refresh n + 1 fetches exactly when n + 1 is a multiple of 5 |
| Sampler.NoFetchIgnoresReadings | sw/src/pistackmond.cpp:661-673 | a refresh that does not fetch gives the same state whatever the fetchers would return, and feeds the cached values again |
| Sampler.MissingSensorLatches | sw/src/pistackmond.cpp:664-667 | a negative temperature reading marks the sensor missing, and 0 is fed |
| Sampler.MissingSensorIsPermanent | sw/src/pistackmond.cpp:664-673 | once missing, the cached temperature never changes and 0 is fed at every later refresh |
| Sampler.MissingSensorNeverRead | sw/src/pistackmond.cpp:664-667 | once missing, the temperature readings have no effect on any later state |
| Sampler.SampleFeeds | sw/src/pistackmond.cpp:659-673 | the loop feeds, at each refresh, the values of the state reached by the readings so far |
| Sampler.RefreshDeadlines | sw/src/pistackmond.cpp:683-687 | each refresh deadline follows from the previous one by the deadline rule with the refresh period |
| Sampler.RefreshesKeepPace | sw/src/pistackmond.cpp:683-687 | with a clock that does not go backwards, refresh k sleeps until at least k + 1 periods after the start and never until a time already past |
| GpioPi3.InitWord1 | sw/src/gpio_PI3.cpp:28-34 | word 1 after startup: the field of pin 17 is 001, every other bit is kept |
| GpioPi3.InitWord2 | sw/src/gpio_PI3.cpp:29-37 | word 2 after startup: the fields of pins 22, 25 and 27 are 001, every other bit is kept |
| GpioPi3.DeinitWord2 | sw/src/gpio_PI3.cpp:44-46 | word 2 after shutdown: those fields are 000, every other bit is kept |
| GpioPi3.Init | sw/src/gpio_PI3.cpp:27-37 | startup sets the four pins' fields to output and changes nothing else |
| GpioPi3.Deinit | sw/src/gpio_PI3.cpp:42-46 | shutdown sets them to input and changes nothing else |
| GpioPi3.InitMakesOutputs | sw/src/gpio_PI3.cpp:27-37 | after startup the 3-bit field of each of pins 17, 22, 25 and 27 (word p/10, shift 3(p mod 10)) reads 001, and no other field or word changed |
| GpioPi3.DeinitMakesInputs | sw/src/gpio_PI3.cpp:42-46 | after shutdown those fields read 000 whatever they held before, and no other field or word changed |
| GpioPi3.InitIdempotent | sw/src/gpio_PI3.cpp:27-37 | startup twice is startup once |
| GpioPi3.DeinitIdempotent | sw/src/gpio_PI3.cpp:42-46 | shutdown twice is shutdown once |
| GpioPi3.DeinitAfterInit | sw/src/gpio_PI3.cpp:27-46 | shutdown after startup is shutdown alone |
| GpioPi3.WithModeCommutes | sw/src/gpio_PI3.cpp:29-31 | mode changes of different pins commute, so the order of the updates does not matter |
| GpioPi3.InitIsPerPin | sw/src/gpio_PI3.cpp:27-37 | startup is the same as changing the mode of pins 17, 22, 25 and 27 to output one pin at a time |
| GpioPi3.WithMode | sw/src/gpio_PI3.cpp:28-37 | setting one pin's mode writes the 3-bit field at word p/10, shift 3(p mod 10), and keeps every other bit of every word |
| GpioPi3.PinsDistinctBelow32 | sw/src/gpio_PI3.h:16-19 | the four pins are distinct and below 32 |
| GpioPi3.Set | sw/src/gpio_PI3.h:32-34 | `gpioSet` stores exactly `1 << pin` into word 7 and touches no other word |
| GpioPi3.Clear | sw/src/gpio_PI3.h:36-38 | `gpioClear` stores exactly `1 << pin` into word 10 and touches no other word |
| GpioPi3.SetClearForgetContents | sw/src/gpio_PI3.h:32-38 | the stored word does not depend on what the register held before |
| GpioC1.Set | sw/src/gpio_C1.h:31-37 | `gpioSet` sets exactly the output bit the bank rule picks |
| GpioC1.Clear | sw/src/gpio_C1.h:39-45 | `gpioClear` clears exactly that bit |
| GpioC1.OutputBit | sw/src/gpio_C1.h:32-36 | the bank rule as written: the X word exactly when `pin > START_X`, else the Y word; the bit is below 32 and the bank start plus the bit gives the pin back |
| GpioC1.SetIdempotent | sw/src/gpio_C1.h:31-37 | setting twice is setting once |
| GpioC1.ClearAfterSet | sw/src/gpio_C1.h:31-45 | clearing after setting is clearing alone, and leaves the bit 0 |
| GpioC1.FirstXPinGoesToY | sw/src/gpio_C1.h:32 | the comparison is strict, so pin 97 (X.0) is written to bit 17 of the Y bank word |
| GpioC1.OutputBitIntendedBanks | sw/src/gpio_C1.h:21-24 | with `pin >= START_X` a pin lands in the X word exactly when it is at least 97; the bank start plus the bit gives the pin back, and distinct pins get distinct bits |
| GpioC1.OutputBitAgreesElsewhere | sw/src/gpio_C1.h:32-36 | the strict and the intended rule agree on every pin except 97 |
| GpioC1.Init | sw/src/gpio_C1.cpp:28-31 | startup clears bit 8 of word 0x0F and bits 19, 18 and 6 of word 0x0C, and nothing else |
| GpioC1.Deinit | sw/src/gpio_C1.cpp:37-40 | shutdown sets exactly those four bits |
| GpioC1.InitIdempotent | sw/src/gpio_C1.cpp:28-31 | startup twice is startup once |
| GpioC1.DeinitIdempotent | sw/src/gpio_C1.cpp:37-40 | shutdown twice is shutdown once |
| GpioC1.DeinitAfterInit | sw/src/gpio_C1.cpp:28-40 | shutdown after startup is shutdown alone: the four bits at 1, everything else as before startup |
| GpioC1.DirBitsMatchPins | sw/src/gpio_C1.cpp:28-31 | the four direction bits are those of the header pins 88, 116, 115 and 103: 88 - 80 = 8 on Y and 116, 115, 103 - 97 = 19, 18, 6 on X; each direction word sits one below its output word |
| GpioC2.Set | sw/src/gpio_C2.h:26-28 | `gpioSet` sets bit `pin` of word 119 (decimal) and nothing else |
| GpioC2.Clear | sw/src/gpio_C2.h:30-32 | `gpioClear` clears bit `pin` of word 119 and nothing else |
| GpioC2.SetIntended | sw/src/gpio_C2.h:27 | with the offset 0x119, the word above the direction word 0x118, set sets exactly that bit |
| GpioC2.ClearIntended | sw/src/gpio_C2.h:31 | and clear clears exactly that bit |
| GpioC2.SetIdempotent | sw/src/gpio_C2.h:26-28 | setting twice is setting once |
| GpioC2.ClearAfterSet | sw/src/gpio_C2.h:26-32 | clearing after setting is clearing alone, and leaves the bit 0 |
| GpioC2.SetMissesOutputWord | sw/src/gpio_C2.h:27 | word 119 is not 0x119, and setting a pin leaves word 0x119 unchanged |
| GpioC2.Init | sw/src/gpio_C2.cpp:28-31 | startup clears bits 19, 11, 9 and 3 of word 0x118 and nothing else |
| GpioC2.Deinit | sw/src/gpio_C2.cpp:36-39 | shutdown sets exactly those bits |
| GpioC2.InitIdempotent | sw/src/gpio_C2.cpp:28-31 | startup twice is startup once |
| GpioC2.DeinitIdempotent | sw/src/gpio_C2.cpp:36-39 | shutdown twice is shutdown once |
| GpioC2.DeinitAfterInit | sw/src/gpio_C2.cpp:28-39 | shutdown after startup is shutdown alone |
| GpioC2.PinsMatchDirBits | sw/src/gpio_C2.cpp:28-31 | the four header pins 19, 11, 9 and 3 are distinct, below 32, and exactly the bits startup clears |
| GpioN2.Set | sw/src/gpio_N2.h:26-28 | `gpioSet` sets bit `pin` of word 117 (decimal) and nothing else |
| GpioN2.Clear | sw/src/gpio_N2.h:30-32 | `gpioClear` clears bit `pin` of word 117 and nothing else |
| GpioN2.SetIntended | sw/src/gpio_N2.h:27 | with the offset 0x117, the word above the direction word 0x116, set sets exactly that bit |
| GpioN2.ClearIntended | sw/src/gpio_N2.h:31 | and clear clears exactly that bit |
| GpioN2.SetIdempotent | sw/src/gpio_N2.h:26-28 | setting twice is setting once |
| GpioN2.ClearAfterSet | sw/src/gpio_N2.h:26-32 | clearing after setting is clearing alone, and leaves the bit 0 |
| GpioN2.SetMissesOutputWord | sw/src/gpio_N2.h:27 | word 117 is not 0x117, and setting a pin leaves word 0x117 unchanged |
| GpioN2.Init | sw/src/gpio_N2.cpp:15-18 | startup clears bits 3, 4, 7 and 2 of word 0x116 and nothing else |
| GpioN2.Deinit | sw/src/gpio_N2.cpp:23-26 | shutdown sets exactly those bits |
| GpioN2.InitIdempotent | sw/src/gpio_N2.cpp:15-18 | startup twice is startup once |
| GpioN2.DeinitIdempotent | sw/src/gpio_N2.cpp:23-26 | shutdown twice is shutdown once |
| GpioN2.DeinitAfterInit | sw/src/gpio_N2.cpp:15-26 | shutdown after startup is shutdown alone |
| GpioN2.PinsMatchDirBits | sw/src/gpio_N2.cpp:15-18 | the four header pins 3, 4, 7 and 2 are distinct, below 32, and exactly the bits startup clears |
| GpioM1.RkGpio | sw/src/gpio_M1.cpp:51-58 | `rk_gpio` changes only the chosen window; in word `offset` it forces bit `bit` to `val` and sets bit `bit + 16`, and keeps every other bit of both windows |
| GpioM1.RkGpioIdempotent | sw/src/gpio_M1.cpp:53-57 | a second identical call changes nothing |
| GpioM1.Init | sw/src/gpio_M1.cpp:32-35 | startup sets the direction bit and its write-enable bit of the four targets, and nothing else |
| GpioM1.Deinit | sw/src/gpio_M1.cpp:40-43 | shutdown clears those direction bits and sets their write-enable bits, and nothing else |
| GpioM1.InitIdempotent | sw/src/gpio_M1.cpp:32-35 | startup twice is startup once |
| GpioM1.DeinitIdempotent | sw/src/gpio_M1.cpp:40-43 | shutdown twice is shutdown once |
| GpioM1.DeinitAfterInit | sw/src/gpio_M1.cpp:32-43 | shutdown after startup is shutdown alone |
| GpioM1.LabelsMatchPins | sw/src/gpio_M1.cpp:32-35 | the labels 0C.0, 0C.1, 3B.2 and 3D.1 are the header pins 16, 17, 106 and 121 by 32·bank + 8·group + index; the calls' (window, word, bit) are (main, 3, 0), (main, 3, 1), (bank 3, 2, 10), (bank 3, 3, 9), all in the low half-word |
| MonolithPins.DriveRegs | sw/src/pistackmond.cpp:355-401 | driving a line on Raspberry Pi stores exactly `1 << pin` into word 7 (high) or 10 (low) and touches no other word; elsewhere it forces the line's output bit to the level and keeps every other bit |
| MonolithPins.PiPin | sw/src/pistackmond.cpp:355-362 | the Raspberry Pi pin of each line (data 17, clock 27, latch 22, as `MonolithPins.PiMatchesBackend` states) is below 32, so `1 << pin` stays inside a word |
| MonolithPins.OutBit | sw/src/pistackmond.cpp:363-401 | the (output word, bit) each Odroid line is driven through lies inside the register page; the table itself is compared with the backends in the `*MatchesBackend` lemmas |
| MonolithPins.DirBit | sw/src/pistackmond.cpp:484-503 | the (direction word, bit) each Odroid line is configured through lies inside the register page; `MonolithPins.DirBitBelowOutBit` relates it to `OutBit` |
| MonolithPins.ConfigureRegs | sw/src/pistackmond.cpp:474-545 | claiming the pins is the platform's `gpioInit` writes and releasing them its `gpioDeinit` writes: on Raspberry Pi only words 1 and 2 change; on C1, C2 and N2 release sets exactly the direction bits, and claim clears them (on N2 it also zeroes the multiplexer word); nothing outside those bits changes |
| MonolithPins.Apply | sw/src/pistackmond.cpp:355-545 | a barrier writes nothing; a drive forces the line's output bit on the read-modify-write platforms; claiming or releasing the pins changes only the configuration bits (words 1 and 2 on Raspberry Pi) |
| MonolithPins.ApplyAll | sw/src/pistackmond.cpp:355-545 | a trace of barriers only leaves the registers as they were |
| MonolithPins.TraceTouchesOnlyPins | sw/src/pistackmond.cpp:363-442 | on the read-modify-write platforms, any trace of drives and barriers, such as `sendFrame16` and `commitFrame` emit, changes no bit other than the three lines' output bits |
| MonolithPins.TraceTouchesOnlyPinsAndConfig | sw/src/pistackmond.cpp:363-545 | on those platforms any trace, claiming and releasing the pins included, changes no bit other than the output bits, the direction bits and, on N2, the multiplexer word |
| MonolithPins.N2InitKeepsOutside | sw/src/pistackmond.cpp:484-493 | the N2 `gpioInit` as written changes only the three direction bits and the multiplexer word |
| MonolithPins.ConfigureTraces | sw/src/pistackmond.cpp:452-545 | the `gpioInit` trace performs the platform's startup writes and the `gpioDeinit(1)` trace its shutdown writes |
| MonolithPins.CommandReleasesPins | sw/src/pistackmond.cpp:623-636 | on the read-modify-write platforms `allon`, `alloff` and any one-shot command end with the three direction bits set: the pins are inputs again |
| MonolithPins.LastDriveWins | sw/src/pistackmond.cpp:363-442 | after a trace ending in a drive of a line, that line's output bit holds the level driven |
| MonolithPins.PiMatchesBackend | sw/src/pistackmond.cpp:355-362 | the Raspberry Pi pin table (17, 27, 22; words 7 and 10) is the split backend's, and driving a line is its `gpioSet`/`gpioClear` |
| MonolithPins.C1MatchesBackend | sw/src/pistackmond.cpp:376-388 | the Odroid C1 table picks the same output bits as the split backend's bank rule, and driving a line is its `gpioSet`/`gpioClear` |
| MonolithPins.C2MatchesCorrectedBackend | sw/src/pistackmond.cpp:389-401 | the Odroid C2 table writes word 0x119, not the backend's 119: driving a line is the corrected backend's set and clear |
| MonolithPins.N2MatchesCorrectedBackend | sw/src/pistackmond.cpp:363-375 | the Odroid N2 table writes word 0x117, not the backend's 117: driving a line is the corrected backend's set and clear |
| MonolithPins.N2DirOutputs | sw/src/pistackmond.cpp:486-488 | the N2 direction update clears bits 3, 4 and 7 of the word and keeps the others |
| MonolithPins.N2MuxAsWritten | sw/src/pistackmond.cpp:491-493 | ANDing the mux word with three disjoint masks leaves it 0, whatever it held |
| MonolithPins.N2MuxIntended | sw/src/pistackmond.cpp:491-493 | with `&= ~mask` the update clears the three pins' 4-bit mux fields and keeps every other bit |
| MonolithPins.N2InitAsWritten | sw/src/pistackmond.cpp:484-493 | the N2 startup as written changes only words 0x116 and 0x1B3: the direction bits of the three pins are cleared and the mux word becomes 0 |
| MonolithPins.N2InitIntended | sw/src/pistackmond.cpp:484-493 | the corrected startup clears the three direction bits and the three mux fields, and nothing else |
| MonolithPins.N2MuxClobbersOtherPins | sw/src/pistackmond.cpp:491-493 | the two startups differ exactly when the mux word has a set bit outside the three fields |
| MonolithPins.N2MuxExample | sw/src/pistackmond.cpp:491-493 | from an all-ones mux word, the code leaves 0 where the corrected update keeps bit 0 |
| MonolithPins.N2InitDirsAgree | sw/src/pistackmond.cpp:486-488 | the N2 direction word after startup is the generic direction update's |
| MonolithPins.InitDirs | sw/src/pistackmond.cpp:484-503 | startup on an Odroid clears the three lines' direction bits and nothing else |
| MonolithPins.DeinitDirs | sw/src/pistackmond.cpp:528-539 | shutdown on an Odroid sets exactly those bits |
| MonolithPins.DirBitBelowOutBit | sw/src/pistackmond.cpp:484-503 | each line's direction bit is the same bit of the word just below its output word |
| MonolithPins.BackendsAddBlankDir | sw/src/pistackmond.cpp:494-503 | each split backend's direction bits are the single-file daemon's plus the one for BLANK |
| MonolithPins.DeinitDirsAfterInitDirs | sw/src/pistackmond.cpp:484-539 | shutdown after startup is shutdown alone, and startup is idempotent |
| MonolithPins.PiClearFields | sw/src/pistackmond.cpp:476-478 | resetting the three mode fields touches words 1 and 2 only |
| MonolithPins.PiInit | sw/src/pistackmond.cpp:474-483 | the Raspberry Pi startup touches words 1 and 2 only |
| MonolithPins.PiDeinit | sw/src/pistackmond.cpp:524-527 | the Raspberry Pi shutdown touches words 1 and 2 only |
| MonolithPins.PiInitIsPerPin | sw/src/pistackmond.cpp:474-483 | the Raspberry Pi startup makes pins 17, 22 and 27 outputs, one mode change at a time |
| MonolithPins.PiDeinitIsPerPin | sw/src/pistackmond.cpp:524-527 | the Raspberry Pi shutdown makes those pins inputs |
| MonolithPins.PiBackendAddsBlank | sw/src/pistackmond.cpp:474-483 | the split backend's startup is this one plus BLANK (pin 25) made an output |

## Left out

- Opening `/dev/mem`, `mmap`, `close` and the base addresses: the register file is a value, and what the SoC does with a written word is not modelled.
- `fetchCpu`, `fetchRam`, `fetchTemp` and the files they read: their results are inputs (`Sampler.Reading`); only `getIntsFromLine` is modelled.
- `floatLP`, the CPU and RAM percentage arithmetic, and `std::pow`: these are float computations. The gamma curve is a parameter, and the filtered values reach `led_pwms` as plain inputs.
- Float rounding in the bar arithmetic, the scaling and the quantisation: reals are exact here, so a brightness whose float product lands just below a level boundary may quantise one level differently in the daemon.
- Threads, the mutex, `SCHED_FIFO`, the signal handler and the closing flags: a pass of the renderer loop is a method, and the lock is an `Option` snapshot.
- `sleep_for` and `sleep_until`: the clock is an input.
- The `gpioInit()` and `gpioDeinit()` calls around the renderer loop: their pin traces are modelled (`Transmitter.GpioInit`, `Transmitter.GpioDeinit`), but no lemma follows the loop from start to finish.
- `__sync_synchronize`: it is a `Fence` event and has no effect on the decoder.
- The Odroid M1 branches of the single-file daemon (`sendFrame16`, `commitFrame`, `gpioInit`, `gpioDeinit`, lines 402-414, 443-446, 504-509 and 540-544): an M1 build of that file does not compile. These branches are well-formed `#elif defined (ODROID_M1)` and so are compiled, but the `g3` constant (92-94) and the `rk_gpio` function (151-159) they call sit under the malformed `#ifdef defined(ODROID_M1)`, which drops them, and that hidden `rk_gpio` uses an undeclared `pin` as well. The register behaviour meant for the M1 is modelled from `gpio_M1.cpp` instead (`GpioM1`).
- `gpio_M1.cpp` as written does not compile either: `gpioInitImpl` and `gpioDeinitImpl` call `rk_gpio` (lines 32-43) before its definition at line 51, and `gpio_M1.h` declares no prototype. `GpioM1` models the evident meaning of the calls, as if `rk_gpio` were declared before use.
- `gpioSet` and `gpioClear` in `gpio_M1.h`: their bodies are commented out. Only the pin constants are used.
- Command-line dispatch other than `allon` and `alloff`, the build-time platform selection and `REG_GPIOMAP`.
- MonolithPins.TraceTouchesOnlyPins: stated for the read-modify-write platforms and for traces of drives and barriers only. On Raspberry Pi every drive overwrites word 7 or 10 whole, which `MonolithPins.DriveRegs` states instead. Traces that claim or release the pins are covered by `MonolithPins.TraceTouchesOnlyPinsAndConfig`.
- GpioC1.Set: pins outside 80..128 are excluded, because their shift `1 << (pin - START)` leaves the word, which is undefined behaviour in C++; the same holds for `GpioC1.Clear`.
- GpioC2.Set: pins from 32 on are excluded for the same reason, as in `GpioC2.Clear`, `GpioN2.Set` and `GpioN2.Clear`.
- GpioM1.RkGpio: requires `bit < 16`, since `1 << (bit + 16)` overflows `int` otherwise; every call site uses bits 0, 1, 9 and 10.
- Renderer.Period: the `uint32_t` conversion is not modelled, because 250 · 2^5 fits easily.
- LineParser.ParseLong: only decimal digits are read, as with the stream's default base; leading whitespace cannot occur, because the tokens contain none.
- Bars.LedPwms: states the scaled outputs for the 15 channels that have a multiplier, plus channel 15. The as-written loop is undefined at channel 15 (see Findings).

## Findings

| source | as written | input that shows it | evidently intended | confidence | as-written member | corrected member |
|---|---|---|---|---|---|---|
| sw/src/gpio_C1.h:32 | `pin > START_X` sends pin 97 (X.0) to the Y bank, bit 17 of word 0x10 | pin 97 | `pin >= START_X`: pin 97 is bit 0 of word 0x0D | medium, not executed | GpioC1.FirstXPinGoesToY | GpioC1.OutputBitIntendedBanks |
| sw/src/gpio_C2.h:27 | output word 119 (decimal) | any `gpioSet(pin)`: word 0x119, which the single-file daemon drives, is unchanged | 0x119, the word above the direction word 0x118 | high, not executed | GpioC2.SetMissesOutputWord | GpioC2.SetIntended |
| sw/src/gpio_N2.h:27 | output word 117 (decimal) | any `gpioSet(pin)`: word 0x117 is unchanged | 0x117, the word above the direction word 0x116 | high, not executed | GpioN2.SetMissesOutputWord | GpioN2.SetIntended |
| sw/src/pistackmond.cpp:139-144 | the loop tests `eof` before extracting and uses a failed extraction's stale token | the line `"7 "` gives `[7, 7]` | only successful extractions are parsed: `[7]` | high, not executed | LineParser.TrailingSpaceRepeats | LineParser.GetIntsFromLineIntended |
| sw/src/pistackmond.cpp:491-493 | `&= (0xF << k*4)` with three disjoint masks zeroes the whole mux word | mux word all ones: the result is 0 | `&= ~(0xF << k*4)`: only the three pins' fields are cleared | medium, not executed | MonolithPins.N2MuxClobbersOtherPins | MonolithPins.N2InitIntended |
| sw/src/pistackmond.cpp:322 | `i < 16` over the 15-entry `led_pwm_multipliers` | any call: `led_pwm_multipliers[15]` is read past the end | a 16th multiplier, or the loop bounded by the table; output 15 is always 0 either way | high, not executed | Bars.ScalingReadsPastTable | Bars.Scale |
