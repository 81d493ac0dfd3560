# Automatic poker-chip sorter: a Dafny model of its firmware core

The sorter is a delta robot driven by an HCS12 (MC9S12XDP512) board:
- Three stepper motors move an effector over the chip tray.
- A camera program on a PC classifies each chip's colour and sends one character back over the serial link.
- Switches, LEDs, a 20 x 4 character LCD and an eight-digit 7-segment display make up the operator panel.

This project models the firmware's core and proves what it promises:
- **Step coordination** (`Capstone`): Port A set, clear, toggle and read; motor direction set-up; `Cap_MoveEffector`, which steps three motors to their targets.
- **Programs that drive it**, each a small state machine updated by its main loop and its interrupts:
  - the motor test (`MotorTest`);
  - the operation mode (`SorterOperation`);
  - the test mode (`SorterTesting`).
- **Peripheral libraries**, modelled as the register bits they change or the bytes they send:
  - the periodic interrupt timer (`Pit`) and the enhanced capture timer (`Timer`);
  - PWM (`Pulse`) and the serial interface (`Sci`);
  - switches and LEDs (`SwitchLed`), the LCD (`Lcd`) and the 7-segment display (`Segs`);
  - port J and time formatting (`Misc`), terminal escape sequences (`EscSeq`) and the LTC2633 DAC (`Ltc2633`).
- **Colour classification** on the PC (`ColourDetection`).

Shared pieces:
- `Bits` holds the target's integer widths: `char` is 8 bits, `int` 16 and `long` 32. Every truncation the C code performs is written out (`Low8`, `Low16`, `Low32`).
- A register that the code changes by masked read-modify-write is a set of bit positions (`Mask`).
- `Text` holds C strings and decimal text.
- `Colours` holds the colour characters shared by the sorter's programs.

Modelling choices:
- Interrupt service routines are atomic methods on the shared fields.
- Anything the hardware sets is a field or a parameter the model does not control: status flags, switch pins, a received byte, an I2C acknowledge.
- Busy waits are left out; the state before and after them is modelled.

## Where the code and its comments differ

The model follows the code in each case below.
- `FormatTimeMs` (SCI/lib/misc.c) says it rounds the tenths, but it truncates them (`Misc.TenthsTruncate`). It also returns a pointer to its own stack buffer; the model returns the text as a value.
- `SWLPressed` (SCI/lib/swled.c) is documented as true only when every bit of the mask is set. It returns 1 when any bit of the mask is set (`SwitchLed.Board.Pressed`).
- `%i` is applied to `unsigned int` values in lib/escseq.c. A row, column or count from 0x8000 up therefore prints as a negative number (`EscSeq.LargeValuesPrintNegative`).
- The `FindFactors` prototype (SCI/lib/pit.c) speaks of MHz, but the code divides a bus rate in Hz by 10^6.
- `FindFactors`' exact-match test multiplies two 16-bit values, so the product wraps. The best-fit scan that follows still returns the first exact pair, so the result is the one intended (`Pit.FindFactors`).
- In `Segs_8H` (SCI/lib/segs.c) the cap of the value at 0xFF never fires, since the value is an `unsigned char`.
- `SCI/lib/segs.c` and `lib/Capstone.h` both use Port A bits 0 and 1: as the 7-segment strobe and mode lines, and as motor 1's step and direction lines.
- In ColourDetection/colour_detection.py:
  - The loops over `pixel_values` never change a count, because its lists stay empty.
  - A saturated pixel with a hue above 179 is counted in no category.
  - The `continue` meant to stop processing a pixel only moves on to the next hue range. The ranges are disjoint, so each pixel is still counted at most once.
- Headers the libraries need that are not part of this model: segs.h, misc.h, LTC2633.h, i2c.h and derivative.h. The constants taken in their place are:
  - `Segs_SegDec` is 0x80, the bit `Segs_Normal` uses for the decimal point.
  - The 7-segment lines are top = 0 and bottom = 1.
  - `PortJ_Option` is Off/On.
  - The LTC2633 channels are A, B and all.
  - The PWMCTL concatenation bits follow the MC9S12XDP512 register map.

## Model

| member | source | states |
|---|---|---|
| Capstone.MaskValues | lib/Capstone.h:13-23 | the Mask constants have the byte values of the PortAMasks enumeration |
| Capstone.ApplyOnlyTouchesMask | lib/Capstone.c:72-88 | `|=`, `&= ~` and `^=` change only the bits of their mask: set, cleared or inverted |
| Capstone.AdvanceDist | lib/Capstone.c:113-130 | each pass moves every motor not at its target one step closer, so the largest remaining distance drops by one |
| Capstone.PulseCount | lib/Capstone.c:107-135 | the stepping loop makes exactly as many pulsing passes as the furthest motor has steps to go |
| Capstone.PulseMaskAt | lib/Capstone.c:107-135 | pass k pulses motor i exactly when k is below that motor's distance to its target |
| Capstone.PulseMasksShrink | lib/Capstone.c:113-130 | a motor that has stopped pulsing is never pulsed again in the same move |
| Capstone.PendingMaskZero | lib/Capstone.c:132-135 | `motorsToMove` is 0 exactly when every counter has reached its target, the loop's exit condition |
| Capstone.UnionPulseMasks | lib/Capstone.c:107-135 | the pulses of a move cover exactly the motors that started away from their targets |
| Capstone.ReplayPulse | lib/Capstone.c:146-153 | one step pulse leaves its mask bits low and every other latch bit as it was |
| Capstone.ReplayPulses | lib/Capstone.c:107-135 | after all the pulses of a move, their bits are low and no other bit changed |
| Capstone.ReplayDirectionWrite | lib/Capstone.c:157-167 | the direction write clears the bit to count up, sets it to count down and writes nothing at the target |
| Capstone.ReplayDirections | lib/Capstone.c:99-101 | the three direction writes leave the latch DirectionsLatch describes |
| Capstone.ReplayMove | lib/Capstone.c:91-139 | replaying every write of a move yields MoveLatch: directions, enable, pulses, disable |
| Capstone.FinalLatch | lib/Capstone.c:91-139 | after a move the motors are disabled, the pump bit is untouched, each moved motor's direction bit tells its way and its pulse bit is low, and unmoved motors' bits are unchanged |
| Capstone.PulsePhaseMasks | lib/Capstone.c:107-135 | every write of the pulse phase touches StepPulse bits only, and at least one |
| Capstone.MoveOrder | lib/Capstone.c:91-139 | the direction writes come first, then one enable, then only step pulses, and the disable is the last write; the write count is directions + 2 per pass + 2 |
| Capstone.RepeatMoveIsQuiet | lib/Capstone.c:91-139 | a second move to the same targets only enables and disables the motors |
| Capstone.SynchronisedArrivalExample | lib/Capstone.c:107-135 | a move from (0,0,0) to (30,10,20) pulses all three motors for ten passes, motors 1 and 3 for ten, motor 1 alone for ten |
| Capstone.DirectionsSet | lib/Capstone.c:98-104 | after the direction writes and the enable, every travelling motor's direction bit points toward its target |
| Capstone.PulseKeepsDirections | lib/Capstone.c:113-134 | a pass's step pulse leaves the direction bits alone, so they stay right for the next pass |
| Capstone.MotorPort.constructor | lib/Capstone.c:93-95 | the static step counters start at 0 |
| Capstone.MotorPort.PortAInit | lib/Capstone.c:59-64 | every latch bit except MotorDisable goes low, MotorDisable keeps its value, DDRA becomes all outputs |
| Capstone.MotorPort.PortARead | lib/Capstone.c:67-70 | the result holds exactly the latch bits selected by the mask |
| Capstone.MotorPort.PortASet | lib/Capstone.c:73-76 | the mask bits go high, logged as one SetMask write |
| Capstone.MotorPort.PortAClear | lib/Capstone.c:79-82 | the mask bits go low, logged as one ClearMask write |
| Capstone.MotorPort.PortAToggle | lib/Capstone.c:85-88 | the mask bits are inverted, logged as one ToggleMask write |
| Capstone.MotorPort.MotorStep | lib/Capstone.c:146-153 | a set then a clear of the mask: the mask bits end low, counters unchanged |
| Capstone.MotorPort.SetMotorDirection | lib/Capstone.c:155-167 | the direction write and latch DirectionWrite/DirectionLatch describe; nothing at the target |
| Capstone.MotorPort.CountPass | lib/Capstone.c:109-130 | `motorsToMove` is the pulse bit of every motor off target, and each such counter moves one step the way its direction bit says |
| Capstone.MotorPort.StepMotors | lib/Capstone.c:106-135 | the loop ends with every counter at its target, having issued exactly the pulses PulseMasks lists and lowered their bits |
| Capstone.MotorPort.MoveEffector | lib/Capstone.c:90-139 | the counters end at the targets, the write log grows by MoveWrites and the latch ends as MoveLatch |
| Capstone.LeadingSolved | lib/Capstone.c:213-223 | the number of arms solved before the first arm with no solution |
| Capstone.CalcInvKin | lib/Capstone.c:208-226 | status 0 exactly when all three arms solve; otherwise -(arms solved + 1) read as a signed char, with the angles of the solved arms stored in order |
| Capstone.AngleToStep | lib/Capstone.c:228-232 | degrees times 3200 / 360, truncated toward zero |
| SwitchLed.MaskValues | lib/swled.h:24-41 | the LED and switch Mask constants have the byte values of eSWLLED and eSWLSwitch |
| SwitchLed.Board.constructor | SCI/lib/swled.c:69-71 | the port shows the given pins and the static `lastStates` starts at 0 |
| SwitchLed.Board.Init | SCI/lib/swled.c:25-30 | LED bits cleared and switch bits kept, LEDs made outputs, switch inputs enabled |
| SwitchLed.Board.Read | SCI/lib/swled.c:37-40 | the result holds exactly the port bits selected by the mask |
| SwitchLed.Board.Set | SCI/lib/swled.c:41-45 | the mask bits go high and every other bit keeps its value |
| SwitchLed.Board.Clear | SCI/lib/swled.c:46-50 | the mask bits go low and every other bit keeps its value |
| SwitchLed.Board.Toggle | SCI/lib/swled.c:51-55 | the mask bits are inverted and every other bit keeps its value |
| SwitchLed.Board.Pressed | SCI/lib/swled.c:60-66 | 1 exactly when some bit of the button mask is high, else 0 |
| SwitchLed.Board.SwitchTransition | SCI/lib/swled.c:69-82 | 1 exactly when the switch bits differ from the recorded state, 0 otherwise; afterwards the recorded state is the current one |
| SwitchLed.Board.TransitionSeenOnce | SCI/lib/swled.c:69-82 | asked twice with the switches unchanged, the second answer is 0 |
| SwitchLed.PressedMeansAnyBit | SCI/lib/swled.c:57-66 | with two switches in the mask and only one down, the any-bit test already counts it as pressed |
| Misc.Enabled | SCI/lib/misc.c:30-41 | the pins switched on: bit 0 exactly for pj0 On, bit 1 exactly for pj1 On |
| Misc.CrossedDirections | SCI/lib/misc.c:32-39 | the DDRJ bits the code clears: bit 1 for pj0 and bit 0 for pj1 |
| Misc.PortJ.constructor | SCI/lib/misc.c:26-27 | the four port J registers as earlier code left them |
| Misc.PortJ.Init | SCI/lib/misc.c:26-43 | PTJ bits 0 and 1 cleared; PPSJ and PIEJ gain the enabled pins; DDRJ loses the crossed bits, as written |
| Misc.PortJ.InitCorrected | SCI/lib/misc.c:25-43 | as Init but DDRJ loses the enabled pins themselves, so every enabled pin is an input with rising-edge interrupts |
| Misc.CrossedDirectionExample | SCI/lib/misc.c:30-35 | with J0 an output beforehand, Init(On, Off) enables J0's interrupt but leaves J0 an output; InitCorrected makes it an input |
| Misc.Split | SCI/lib/misc.c:52-64 | the split time is well formed, hours below 1194, and never later than `ms` nor 100 ms or more earlier |
| Misc.SplitUnique | SCI/lib/misc.c:52-64 | Split finds the only well-formed time within 100 ms below `ms` |
| Misc.TenthsTruncate | SCI/lib/misc.c:63-64 | 1999 ms becomes 0:00:01.9: the tenths are truncated although the comment says rounded |
| Misc.FormatTimeMs | SCI/lib/misc.c:66-67 | the text is at least 10 characters (exactly 10 below 100 hours) with ':' ':' '.' in place and digit fields between |
| Misc.FormatTimeMsRoundTrip | SCI/lib/misc.c:46-69 | each field of the text reads back as the split time's hours, minutes, seconds and tenths |
| Text.Decimal | SCI/lib/misc.c:67 | `%d`/`%lu` of a natural: one or more digits, no leading zero, one digit exactly below 10 |
| Text.Pad2 | SCI/lib/misc.c:67 | `%02d`: at least two digits, exactly two below 100 |
| Text.DecimalRoundTrip | SCI/lib/misc.c:67 | reading printed decimal digits back gives the number |
| Text.Pad2RoundTrip | SCI/lib/misc.c:67 | reading a zero-padded number back gives the number |
| EscSeq.DirectionOf | lib/escseq.h:50-56 | ESC_CursorDirection values 0-3 name Up, Down, Backwards, Forwards; nothing else is a direction |
| EscSeq.SignedDecimal | lib/escseq.c:25 | `%i` of an `unsigned int`: below 0x8000 the digits of the value; from 0x8000 up a '-' and the digits of 0x10000 minus the value |
| EscSeq.CursorHome | lib/escseq.c:23-26 | the text starts with ESC '[' and ends with 'H' |
| EscSeq.Ecma48Final | lib/escseq.c:28 | the final byte ECMA-48 assigns to each movement: A up, B down, C forward, D backward |
| EscSeq.Ecma48Direction | lib/escseq.c:28 | the movement a final byte A-D names, inverse of Ecma48Final |
| EscSeq.MoveCursor | lib/escseq.c:29-46 | as written; a direction outside the enumeration leaves the buffer unchanged |
| EscSeq.MoveCursorCorrected | lib/escseq.c:28-46 | the sequence with ECMA-48's final bytes; a direction outside the enumeration leaves the buffer unchanged |
| EscSeq.ParseControl | lib/escseq.c:22-28 | a parsed control sequence starts with ESC '[' and its final byte is the text's last character |
| EscSeq.NumberRoundTrip | lib/escseq.c:25 | a value below 0x8000 prints as digits without ';' that read back as the value |
| EscSeq.CursorHomeRoundTrip | lib/escseq.c:22-26 | for row and column below 0x8000 the sequence parses as parameters [row, column] with final 'H' |
| EscSeq.LargeValuesPrintNegative | lib/escseq.c:25 | a row from 0x8000 up prints with a minus sign and the sequence no longer parses |
| EscSeq.MoveCursorRoundTrip | lib/escseq.c:29-46 | for a count below 0x8000 the sequence parses as [count] with the coded final byte |
| EscSeq.HorizontalMovesSwapped | lib/escseq.c:39-44 | as written, Backwards emits ECMA-48's cursor-forward and Forwards its cursor-backward |
| EscSeq.VerticalMovesAgree | lib/escseq.c:33-38 | Up and Down emit ECMA-48's cursor-up and cursor-down |
| EscSeq.MoveCursorCorrectedRoundTrip | lib/escseq.c:28-46 | the corrected sequence parses as [count] with a final byte ECMA-48 reads as the requested movement |
| Ltc2633.Command | lib/LTC2633.c:39-45 | command nibble 0010 (write and update) with address 0000 for A, 0001 for B and 1111 for any other selection |
| Ltc2633.DacCode | lib/LTC2633.c:47-51 | the code the DAC assembles from the two data bytes is below 4096 |
| Ltc2633.WriteChan | lib/LTC2633.c:34-54 | -1 and nothing written exactly when the address is not acknowledged; otherwise status 0 and three bytes (command, MSB, LSB), a stop only after the last, carrying the value's low twelve bits |
| Ltc2633.CodeRoundTrip | lib/LTC2633.c:47-51 | the DAC reads the value modulo 4096 back from the MSB/LSB bytes, and a 12-bit value exactly |
| Ltc2633.LsbIsLowNibble | lib/LTC2633.c:51 | the LSB byte is the value's low nibble shifted up, with a zero low nibble |
| Ltc2633.Example0123 | lib/LTC2633.c:48-51 | 0x0123 is sent as 0x12 then 0x30, as the comments say |
| Timer.ClampPrescale | lib/timer.c:46-48 | a prescale outside 0-7 becomes 7 (divide by 128); one inside is kept |
| Timer.Scaled | lib/timer.c:126-138 | ticks per second times the duration, as an `unsigned long` product below 2^32 |
| Timer.MilliCount | lib/timer.c:126-130 | when the product does not reach 1000 * 2^16, the result is the whole number of ticks in `ms` milliseconds |
| Timer.MicroCount | lib/timer.c:134-138 | as written: when the wrapped product does not reach 10^6 * 2^16, the result is the whole number of its millionths |
| Timer.MilliCountZero | lib/timer.c:157-163 | an offset of 0 ms is 0 counts, so Timer_Sleep's channel is armed at TCNT itself |
| Timer.CountsAt20MHz | lib/timer.c:126-138 | at 20 MHz 1 ms is 20000 ticks at prescale 1 and 156 at prescale 128; 1 us is 20 ticks |
| Timer.OffsetWrapsPastOneCycle | lib/timer.c:35-58 | an offset of 4 ms at 20 MHz wraps to 14464 counts, as the header says more than one cycle does not work |
| Timer.MicroCountWraps | lib/timer.c:137 | 1000 us at 20 MHz gives 2820 as written; the intended count is 20000 |
| Timer.MicroCountWide | lib/timer.c:134-138 | with the product not truncated, the result is the whole number of ticks in `us` microseconds whenever that fits 16 bits |
| Timer.Ect.constructor | lib/timer.c:21 | every timer register cleared, the counter at a given value |
| Timer.Ect.SetClock | lib/timer.c:44-51 | globalBusClock set; TSCR2 bits 0-2 hold the clamped prescale and its other bits are kept |
| Timer.Ect.ArmChannel | lib/timer.c:53-118 | the channel becomes an output compare with its pin action in its own TCTL bits, TC armed TCNT plus the offset count (mod 2^16), flag cleared, interrupt enabled or disabled by the mode; all else kept |
| Timer.Ect.SetPinAction | lib/timer.c:62-104 | TCTL1 and TCTL2 become the pin-action registers of the channel's case |
| Timer.Ect.PinActionRegisters | lib/timer.c:62-104 | the action code lands in the channel's two bits of TCTL2 (channels 0-3) or TCTL1 (4-7); every other bit and the other register are kept |
| Timer.Ect.Prescale | lib/timer.c:9 | the prescale read from TSCR2 is below 8 |
| Timer.Ect.Init | lib/timer.c:39-122 | SetClock then ArmChannel, and the timer enabled |
| Timer.Ect.Sleep | lib/timer.c:145-182 | the timer ends enabled exactly when it was; TC6 has moved on ms times the one-millisecond count; channel 6 an output compare with no pin action, no interrupt, flag cleared; the default 20 MHz / prescale 1 when the timer was off; every other TSCR2 and TCTL1 bit kept |
| Timer.Ect.ArmSleepChannel | lib/timer.c:149-164 | reports whether the timer was off; channel 6 armed at TCNT, polling, disconnected, on the running clock or on 20 MHz undivided; every other TSCR2 and TCTL1 bit kept |
| Timer.Ect.WaitMilliseconds | lib/timer.c:169-177 | after `ms` passes TC6 is the start count plus `ms` one-millisecond counts (mod 2^16); the flag and every other register as before |
| Pit.NumCycles | SCI/lib/pit.c:126-128 | the cycle count is an `unsigned long`: the interval times the bus rate divided down to whole MHz first, below 2^32 |
| Pit.ScanIsFirstClosest | SCI/lib/pit.c:142-194 | the scan from a factor on returns the running best or a candidate (f, n / f) from there on, never farther than any candidate examined, and strictly closer than every earlier candidate when it changed |
| Pit.ScanKeepsExact | SCI/lib/pit.c:176-180 | once the best pair is exact, no later pair replaces it (strict comparison) |
| Pit.BestFitIsFirstClosest | SCI/lib/pit.c:124-198 | more than 256 * 65536 cycles gives (255, 65535); otherwise a pair with 1 <= f8 <= 255 and f16 < 65536, closest to the count among the examined pairs and (255, 65535), the earliest on ties |
| Pit.ExactIsSmallestFactor | SCI/lib/pit.c:142-157 | when an exact 8-bit by 16-bit factoring exists, the result is exact and its 8-bit factor the smallest that works |
| Pit.ExactPairBelowLongest | SCI/lib/pit.c:124-164 | an exact pair with an 8-bit factor below 255 lies below the starting pair's product |
| Pit.TenMillisecondsAt20MHz | SCI/lib/pit.c:128-157 | 10 ms at 20 MHz is 200000 cycles, found as (4, 50000) |
| Pit.TwoThousandCycles | SCI/lib/pit.c:142-157 | 2000 cycles are found as (1, 2000) |
| Pit.Product16 | SCI/lib/pit.c:152 | the product of two `unsigned int`s is below 2^16, and the true product when that fits |
| Pit.SixteenBitProduct | SCI/lib/pit.c:149-152 | the 16-bit product matches the count exactly when the count is below 65536 and the pair is exact, so the early return fires only for such counts |
| Pit.AbsDiff | SCI/lib/pit.c:160-172 | the signed difference negated when negative is the distance between the count and the pair's product |
| Pit.FindFactors | SCI/lib/pit.c:120-200 | the loop as written returns BestFit of the cycle count |
| Pit.PeriodicTimer.constructor | SCI/lib/pit.c:33 | the PIT registers cleared |
| Pit.PeriodicTimer.Init | SCI/lib/pit.c:33-77 | the channel's load registers hold each factor minus one, wrapped to the register's width; its flag cleared, its interrupt enable as asked, the channel enabled, micro time base 1 for channel 1, PITE and PITFRZ set; the other channel's registers kept |
| Pit.ZeroIntervalWraps | SCI/lib/pit.c:43-60 | a zero interval yields (1, 0), so the 16-bit load register gets 0 - 1 = 0xFFFF |
| Pulse.GroupValues | SCI/lib/pulse.h:40-44 | the two groups are 0x33 and 0xCC: disjoint, and together every channel |
| Pulse.Paired | SCI/lib/pulse.c:70-86 | the 16-bit channel is odd and in the same pair; it equals the given channel exactly when that one is odd |
| Pulse.ConcatBit | SCI/lib/pulse.c:99-114 | the concatenation bit of a pair lies in PWMCTL's upper nibble (CON01 .. CON67) |
| Pulse.ConcatBitsDistinct | SCI/lib/pulse.c:100-114 | two odd channels share a concatenation bit only when they are the same channel |
| Pulse.HalvesRecombine | SCI/lib/pulse.c:177-195 | the high and low bytes written into a concatenated pair recombine to the 16-bit value |
| Pulse.Pwm.constructor | SCI/lib/pulse.c:39 | the PWM registers cleared |
| Pulse.Pwm.SetClockPrescales | SCI/lib/pulse.c:120-143 | Group A: bits 0-2 of PWMPRCLK become the stage-1 prescale, its other bits kept, PWMSCLA the stage-2 divider; any other channel: bits 4-6 and PWMSCLB; nothing else changes |
| Pulse.Pwm.SetPeriod8 | SCI/lib/pulse.c:145-175 | only the channel's PWMPER byte changes, to the period |
| Pulse.Pwm.SetDuty8 | SCI/lib/pulse.c:197-228 | only the channel's PWMDTY byte changes, to the duty |
| Pulse.Pwm.SetPeriod16 | SCI/lib/pulse.c:177-195 | an odd channel's pair of period bytes reads back as the 16-bit period; an even channel writes nothing |
| Pulse.Pwm.SetDuty16 | SCI/lib/pulse.c:230-249 | an odd channel's pair of duty bytes reads back as the 16-bit duty; an even channel writes nothing |
| Pulse.Pwm.SetPolarity | SCI/lib/pulse.c:251-264 | the channel's PWMPOL bit is set exactly for positive polarity; every other bit and register kept |
| Pulse.Pwm.SelectClock | SCI/lib/pulse.c:266-296 | the channel's PCLK bit is set exactly when the stage-2 value is non-zero; every other bit and register kept |
| Pulse.Pwm.ChannelControl | SCI/lib/pulse.c:298-310 | the channel's PWME bit is set exactly when enabling; every other bit and register kept |
| Pulse.Pwm.Init8 | SCI/lib/pulse.c:39-60 | the channel's period, duty, clock choice, polarity and its group's prescales as given, and the channel enabled; the other group's prescale field and scale register and PWMCTL kept |
| Pulse.Pwm.Init16 | SCI/lib/pulse.c:62-118 | on the paired odd channel: the byte pairs read back as period and duty, other pairs untouched, clock choice, polarity and its group's prescales as given (the other group's kept), exactly the pair's concatenation bit added, the channel enabled |
| Sci.Bps | SCI/lib/sci.c:39-80 | each baud enum stands for its bit rate, 75 to 115200 |
| Sci.Divisor | SCI/lib/sci.c:39-80 | SCI0BD is the bus over 16 times the bit rate, computed in tenths and rounded half up: within half a unit of the tenths value whenever it fits 16 bits |
| Sci.DivisorsAt20MHz | SCI/lib/sci.c:39-80 | at 20 MHz, 9600 baud gives 130, 115200 gives 11 and 75 gives 16667 |
| Sci.Sci0.constructor | SCI/lib/sci.c:36 | the SCI idle: nothing received or sent, the transmitter empty |
| Sci.Sci0.Init | SCI/lib/sci.c:36-88 | SCI0BD is the divisor for the bus and rate; receiver and transmitter on; RIE set exactly in interrupt mode |
| Sci.Sci0.Read | SCI/lib/sci.c:94-104 | -1 exactly when no byte has arrived, the caller's byte then untouched; otherwise 0 with the received byte |
| Sci.Sci0.ReadTwice | SCI/lib/sci.c:94-104 | a second read with no new byte returns -1 and keeps the first read's byte |
| Sci.Sci0.TxByteNonBlock | SCI/lib/sci.c:130-140 | 0 and the byte sent exactly when the transmitter was empty; otherwise -1 and nothing sent |
| Sci.Sci0.TxByteBlock | SCI/lib/sci.c:118-125 | once the hardware empties the transmitter, the byte is sent |
| Sci.Sci0.TxStr | SCI/lib/sci.c:143-151 | the characters before the first NUL are sent in order; the NUL is not |
| Text.CString | SCI/lib/sci.c:146 | the characters before the first NUL: a prefix of the bytes without a NUL, followed by a NUL or the end |
| Text.CStringEndsAtFirstNul | SCI/lib/sci.c:146-150 | a walk stopping at the first NUL or the end has covered exactly the C string |
| Lcd.AddrXY | SCI/lib/lcd.c:139-162 | off the display (column > 19 or row > 3) the address is 0; on it, the row's base address from the header's scheme plus the column, below 0x68 |
| Lcd.AddrXYRoundTrip | SCI/lib/lcd.h:20-24 | every on-display position's address leads back to that position under the header's address table |
| Lcd.AddrXYInjective | SCI/lib/lcd.c:139-161 | distinct on-display positions have distinct addresses |
| Lcd.AddrCommand | SCI/lib/lcd.c:132-136 | the instruction has bit 7 set and the address's low seven bits |
| Lcd.DispControlCommand | SCI/lib/lcd.c:211-220 | display control with the display on (0x0C), bit 1 exactly when the cursor is asked for, bit 0 exactly when blinking is |
| Lcd.Display.constructor | SCI/lib/lcd.c:103 | nothing sent yet |
| Lcd.Display.InstByte | SCI/lib/lcd.c:103-115 | one instruction byte appended |
| Lcd.Display.DataByte | SCI/lib/lcd.c:117-129 | one data byte appended |
| Lcd.Display.Addr | SCI/lib/lcd.c:132-136 | the set-address instruction appended |
| Lcd.Display.SetAddrXY | SCI/lib/lcd.c:139-162 | the set-address instruction for AddrXY appended |
| Lcd.Display.String | SCI/lib/lcd.c:165-170 | one data byte per character before the NUL, in order |
| Lcd.Display.StringXY | SCI/lib/lcd.c:198-202 | the position's set-address instruction, then the string's data bytes |
| Lcd.Display.ClearLine | SCI/lib/lcd.c:205-208 | column 0 of the row addressed, then twenty spaces |
| Lcd.Display.WrappingString | SCI/lib/lcd.c:173-195 | for each of the first min(length, 80) characters, in order, an address instruction for column i mod 20 of row i / 20 and then the character; earlier output kept |
| Lcd.Display.DispControl | SCI/lib/lcd.c:211-220 | the display-control instruction appended |
| Lcd.Display.Clear | SCI/lib/lcd.c:223-226 | the clear-display instruction 0x01 appended |
| Lcd.Display.Home | SCI/lib/lcd.c:229-232 | the return-home instruction 0x02 appended |
| Lcd.WrappedCharacterPosition | SCI/lib/lcd.c:180-194 | the address given to character i shows column i mod 20 of row i / 20 |
| Lcd.DataBytes | SCI/lib/lcd.c:168-169 | one data write per character, each carrying that character |
| Segs.LineIndex | SCI/lib/segs.c:144 | a line's number is 0 or 1 |
| Segs.CustomCommand | SCI/lib/segs.c:60-64 | the address's low three bits under the no-decode bank A command 0b01111 |
| Segs.NormalCommand | SCI/lib/segs.c:83-90 | the address's low three bits under the hex-decode bank A command 0b01011 |
| Segs.CustomData | SCI/lib/segs.c:66-67 | the pattern with only the decimal-point bit inverted |
| Segs.NormalData | SCI/lib/segs.c:86-96 | the value's low nibble, bits 4-6 clear, and bit 7 clear exactly when the decimal point is on |
| Segs.CustomDataInvolution | SCI/lib/segs.c:56-67 | inverting the decimal-point bit twice gives the pattern back |
| Segs.LineEnd | SCI/lib/segs.c:144-162 | the rightmost digit of a line is 3 + 4 * line |
| Segs.HexWrites | SCI/lib/segs.c:150-151 | four writes |
| Segs.DecimalWrites | SCI/lib/segs.c:177-181 | four writes |
| Segs.ErrWrites | SCI/lib/segs.c:233-238 | three writes |
| Segs.ClearWrites | SCI/lib/segs.c:203-225 | one clear per digit from lo to hi - 1, in order |
| Segs.HexRoundTrip | SCI/lib/segs.c:137-152 | the four nibbles Segs_16H writes recombine to the value |
| Segs.HexLayout | SCI/lib/segs.c:144-151 | nibble i goes to digit 3 + 4 * line - i |
| Segs.NibblesRecombine | SCI/lib/segs.c:151 | a 16-bit value is the sum of its four nibbles' place values |
| Segs.NibbleOfLow8 | SCI/lib/segs.c:151 | the `(uchar)` cast keeps the low nibble |
| Segs.DecimalRoundTrip | SCI/lib/segs.c:155-182 | for a value up to 9999 the four written digits are decimal digits that recombine to the value |
| Segs.DecimalDigit | SCI/lib/segs.c:179-180 | write i carries the value's i-th decimal digit |
| Segs.DecimalLayout | SCI/lib/segs.c:162-181 | decimal digit i goes to digit 3 + 4 * line - i |
| Segs.DigitsRecombine | SCI/lib/segs.c:177-181 | a value up to 9999 is the sum of its four decimal digits' place values |
| Segs.ErrLayout | SCI/lib/segs.c:228-239 | E at digit 4 * line, then the custom r pattern 0b11101010 at the next two digits, sent with its decimal-point bit inverted |
| Segs.ClearedPositions | SCI/lib/segs.c:203-225 | clearing digits lo to hi - 1 addresses exactly those digits |
| Segs.ClearLinePositions | SCI/lib/segs.c:217-225 | Segs_ClearLine addresses exactly the four digits of its line |
| Segs.ClearAllPositions | SCI/lib/segs.c:203-208 | Segs_ClearAll addresses all eight digits |
| Segs.Display.constructor | SCI/lib/segs.c:41 | nothing written, port A as other code left it |
| Segs.Display.Send | SCI/lib/segs.c:24-77 | one (command, data) pair written; port A ends with the strobe high and the mode line low, its other bits kept |
| Segs.Display.Custom | SCI/lib/segs.c:58-78 | one write of the custom command and data |
| Segs.Display.Normal | SCI/lib/segs.c:81-107 | one write of the hex-decode command and data |
| Segs.Display.Clear | SCI/lib/segs.c:211-214 | one blank custom write to the digit |
| Segs.Display.Show16H | SCI/lib/segs.c:137-152 | the four nibble writes, in order |
| Segs.Display.Show16D | SCI/lib/segs.c:155-182 | Err and no digits above 9999; otherwise the four decimal-digit writes, in order |
| Segs.Display.Show8H | SCI/lib/segs.c:185-200 | the high nibble at the address, the low nibble at the next digit (0 after digit 7); the two nibbles recombine to the value |
| Segs.Display.ClearAll | SCI/lib/segs.c:203-208 | digits 0 to 7 cleared in order; port A ends with the strobe high and the mode line low, its other bits kept |
| Segs.Display.ClearLine | SCI/lib/segs.c:217-225 | the line's four digits cleared left to right; port A ends with the strobe high and the mode line low, its other bits kept |
| Segs.Display.SayErr | SCI/lib/segs.c:228-239 | the three Err writes |
| Segs.Display.Init | SCI/lib/segs.c:41-53 | strobe and mode lines made outputs, port B all outputs, all eight digits cleared; port A ends with the strobe high and the mode line low, its other bits kept |
| ColourDetection.Insert | ColourDetection/colour_detection.py:170-173 | assigning a key keeps every existing key in its place, adds at most one key at the end, leaves exactly the old keys and the new one, and never lists a key twice |
| ColourDetection.Zero | ColourDetection/colour_detection.py:167-173 | every category present with count 0 |
| ColourDetection.EveryCategoryIsAKey | ColourDetection/colour_detection.py:167-173 | every category is one of the result keys |
| ColourDetection.HueCategory | ColourDetection/colour_detection.py:36-45 | a hue has a category exactly when it is at most 179 |
| ColourDetection.ExactlyOneRange | ColourDetection/colour_detection.py:36-45 | a hue up to 179 lies in exactly one range, the one whose category HueCategory names; a larger hue in none |
| ColourDetection.RangesAreContiguous | ColourDetection/colour_detection.py:36-45 | the ranges run from 0 to 179 in ascending order, each starting one past the end of the last, so they are disjoint and cover 0-179 |
| ColourDetection.Classify | ColourDetection/colour_detection.py:177-198 | saturation above 127: the hue's category; otherwise white when the value is above 127 and black when not; no category only for a saturated pixel with hue above 179 |
| ColourDetection.BumpAll | ColourDetection/colour_detection.py:186-189 | every category keeps an entry |
| ColourDetection.Counts | ColourDetection/colour_detection.py:175-198 | every category keeps an entry |
| ColourDetection.TotalOfBump | ColourDetection/colour_detection.py:186-198 | counting a category adds one to the total |
| ColourDetection.TotalCounts | ColourDetection/colour_detection.py:175-198 | every pixel is counted at most once, and exactly once when it has a category |
| ColourDetection.TotalWithinHueRange | ColourDetection/colour_detection.py:175-198 | with every hue at most 179 the counts add up to the number of pixels |
| ColourDetection.BumpOne | ColourDetection/colour_detection.py:196-198 | counting a single category adds one to its entry only |
| ColourDetection.BumpAllStep | ColourDetection/colour_detection.py:186-189 | counting one more category adds one to its entry only |
| ColourDetection.NewTally | ColourDetection/colour_detection.py:167-173 | the keys are white, black, red, orange, yellow, green, blue, purple, pink in that order, every count 0 |
| ColourDetection.CountPixel | ColourDetection/colour_detection.py:175-198 | one pass adds one to the pixel's category and nothing else; the `continue` leaves the result unchanged because at most one range matches |
| ColourDetection.CategorizePixels | ColourDetection/colour_detection.py:155-219 | the keys in the order above, and the counts are the reference tally of the pixels |
| ColourDetection.InitialKeys | ColourDetection/colour_detection.py:167-173 | the initialisation loop yields the keys in the order above, red once |
| ColourDetection.InitialTally | ColourDetection/colour_detection.py:167-173 | keys and counts left by the initialisation loop are the full key order, each counted zero times |
| ColourDetection.KeyOrderDistinct | ColourDetection/colour_detection.py:167-173 | no key appears twice |
| ColourDetection.KeysPrefix | ColourDetection/colour_detection.py:168-173 | each of the first seven ranges adds the next key of the order |
| ColourDetection.AnalyseCategories | ColourDetection/colour_detection.py:222-226 | a key whose count is the maximum, and no earlier key reaches it: the first maximum in insertion order |
| ColourDetection.MaxCount | ColourDetection/colour_detection.py:223 | the largest count: no key exceeds it and some key reaches it |
| MotorTest.PressStaysInRange | MotorTest/Sources/main.c:94-107 | a press keeps `mStep` within 0..500 on a multiple of 50; it falls only on Up and rises only on Down when Up could not move |
| MotorTest.PressIsFiftyPulses | MotorTest/Sources/main.c:94-107 | a press that moves sends every motor 50 steps, in exactly 50 pulse passes |
| MotorTest.Harness.constructor | MotorTest/Sources/main.c:35-69 | `mStep` and the lockout 0; the LEDs cleared; PORTA initialised with MotorDisable kept |
| MotorTest.Harness.Pass | MotorTest/Sources/main.c:89-110 | a press is handled only with the lockout at 0 and a switch transition; it sets the lockout to 10 and moves `mStep` as PressedStep says, sending the motors there with Cap_MoveEffector, and leaves yellow and the moving LED out; otherwise nothing moves; with the lockout at 0 the recorded switch state becomes the current one |
| MotorTest.Harness.HandlePress | MotorTest/Sources/main.c:92-109 | Up takes 50 off when that stays at or above 0, else Down adds 50 when that stays at or below 500; the motors are moved only when `mStep` changes; yellow, and green or red for the move, end out |
| MotorTest.Harness.MoveAll | MotorTest/Sources/main.c:96-106 | `mStep` set and all three motors moved there with Cap_MoveEffector's writes; the LED lit for the move ends out |
| MotorTest.PressLeds | MotorTest/Sources/main.c:91-108 | the LEDs a handled press leaves out: yellow always, green exactly when `mStep` fell (Up), red exactly when it rose (Down) |
| MotorTest.Harness.Pit0Tick | MotorTest/Sources/main.c:123-129 | `pitFlag` raised; a positive lockout counted down by one, never below 0 |
| SorterOperation.NextState | PokerChipSorter_Operation/Sources/main.c:148-174 | the running state machine always moves to another state |
| SorterOperation.StateCycle | PokerChipSorter_Operation/Sources/main.c:148-174 | Isolate, Analyse, Pickup, Deliver form one cycle: four passes return to the start and two or three do not |
| SorterOperation.SelectScreen | PokerChipSorter_Operation/Sources/main.c:189-246 | the count screen with the counters exactly in count mode; in status mode the stopped screen exactly when not running, else the current state's screen |
| SorterOperation.Toggled | PokerChipSorter_Operation/Sources/main.c:372 | `displayMode ^= 1` always changes the mode |
| SorterOperation.Sorter.constructor | PokerChipSorter_Operation/Sources/main.c:79-118 | stopped, status mode, Isolate, all counts 0, no lockout, a display update pending |
| SorterOperation.Sorter.UpdateDisplay | PokerChipSorter_Operation/Sources/main.c:189-246 | the screen SelectScreen chooses is shown; no state changes |
| SorterOperation.Sorter.UpdateColour | PokerChipSorter_Operation/Sources/main.c:278-317 | a colour character adds one (mod 2^16) to its own counter only; any other character changes no counter and stops the sorter; the colour line is shown only in status mode |
| SorterOperation.Sorter.ResetCount | PokerChipSorter_Operation/Sources/main.c:319-325 | all six counters become 0 |
| SorterOperation.Sorter.MainPass | PokerChipSorter_Operation/Sources/main.c:123-182 | a pending display update shows SelectScreen's screen first; stopped: red lit, green out, state and counters unchanged, no update pending; running: the state advances, a red chip counted and its colour line shown in status mode on leaving Analyse, a display update requested, green lit and red and yellow out |
| SorterOperation.Sorter.Advance | PokerChipSorter_Operation/Sources/main.c:148-174 | the state becomes NextState of the old one; only the Analyse step changes a counter (red + 1) and, in status mode, shows the red colour line |
| SorterOperation.Sorter.Pit0Int | PokerChipSorter_Operation/Sources/main.c:330-335 | a positive lockout counted down by one, never below 0; nothing else changes |
| SorterOperation.Sorter.IntJ | PokerChipSorter_Operation/Sources/main.c:337-375 | both flags acknowledged; with the lockout at 0, PJ0 toggles running and restarts at Isolate, else PJ1 clears the counts with Middle held or toggles the display mode; an acting press sets the lockout to 10 and requests a display update; with the lockout set only the flags change |
| SorterTesting.NextTest | PokerChipSorter_Testing/Sources/main.c:145-151 | Right stays among the four tests, wrapping from ChipSorting to Instructions |
| SorterTesting.PrevTest | PokerChipSorter_Testing/Sources/main.c:137-143 | Left stays among the four tests, wrapping from Instructions to ChipSorting |
| SorterTesting.TestMenuCycle | PokerChipSorter_Testing/Sources/main.c:137-151 | Left undoes Right and Right undoes Left, four Rights come back, and neither leaves the test unchanged |
| SorterTesting.NextColour | PokerChipSorter_Testing/Sources/main.c:121-127 | Up stays among the seven sorting colours, wrapping from Other to Instructions |
| SorterTesting.PrevColour | PokerChipSorter_Testing/Sources/main.c:129-135 | Down stays among the seven sorting colours, wrapping from Instructions to Other |
| SorterTesting.ColourMenuCycle | PokerChipSorter_Testing/Sources/main.c:121-135 | Down undoes Up and Up undoes Down, and neither leaves the colour unchanged |
| SorterTesting.SortingLine | PokerChipSorter_Testing/Sources/main.c:206-233 | a 20-character line; for Red to Other it is the same line the colour character's report shows |
| SorterTesting.PerformTest | PokerChipSorter_Testing/Sources/main.c:236-250 | Instructions runs nothing, exactly ChipSorting runs the sorting test, with the selected colour |
| SorterTesting.Decode | PokerChipSorter_Testing/Sources/main.c:121-165 | in the sorting test Up, then Down, is taken first; otherwise Left, then Right, then Middle; no press exactly when none of these applies |
| SorterTesting.TestMenu.constructor | PokerChipSorter_Testing/Sources/main.c:90-108 | Instructions and Red selected, lockout 0, the instructions screen shown, green lit |
| SorterTesting.TestMenu.Pass | PokerChipSorter_Testing/Sources/main.c:116-166 | a press is handled only with the lockout at 0 and a switch transition; it sets the lockout to 10 and steps the decoded menu or runs the selected test, showing what the code shows; a test run leaves green lit and red out, and nothing else touches the LEDs; with the lockout at 0 the recorded switch state becomes the current one |
| SorterTesting.TestMenu.ReadPress | PokerChipSorter_Testing/Sources/main.c:121-153 | the button tests in the main loop's order yield Decode of the switches |
| SorterTesting.TestMenu.Act | PokerChipSorter_Testing/Sources/main.c:121-165 | each press's branch: the menu step and its screen, or the test run between red-on and green-on, which ends with green lit and red out; menu steps leave the LEDs alone |
| SorterTesting.TestMenu.RunTest | PokerChipSorter_Testing/Sources/main.c:236-305 | only the colour test sends 'a' and shows the line of the character that comes back; no selection changes |
| SorterTesting.TestMenu.Pit0Int | PokerChipSorter_Testing/Sources/main.c:340-347 | a non-zero lockout counts down by one; nothing else changes |
| Colours.CountIndex | PokerChipSorter_Operation/Sources/main.c:37-55 | a colour character maps to the count-table entry holding that character, and exactly the six colour characters map anywhere |
| Colours.CountIndexOfChar | PokerChipSorter_Operation/Sources/main.c:284-307 | each count-table entry is reached by its own character |
| Colours.ColourLine | PokerChipSorter_Testing/Sources/main.c:278-305 | the reported line is always 20 characters, one LCD row |
| Colours.ColourLinesDistinct | PokerChipSorter_Testing/Sources/main.c:278-305 | no two colours share a line, no colour shows "Unexpected character", and every other character does |

## Left out

- Inverse kinematics (`Cap_InitInvKinGlobals`, `Cap_CalcAngleXYZ`, the angle arithmetic of `Cap_AngleToStep`) and its C# copy: floating point with square roots and arctangents. Only the fail-fast order of `Cap_CalcInvKin`'s three per-arm solves is modelled, with each solve's outcome as an input.
- Capstone.MotorPort.MotorStep: the pulse dwell between setting and clearing the step bits (`PIT_Sleep_us`) is not modelled, since it is a busy wait whose definition is not part of this model.
- Busy waits and the flag polling they do, which have no state of their own beyond their effect:
  - `PIT_Sleep` in SCI/lib/pit.c;
  - `LCD_Busy` and the port H / port K strobing in SCI/lib/lcd.c;
  - the hardware waits inside `Timer_Sleep`, `SCI0_BRead` and `SCI0_TxByte_Block`.
- Sci.Sci0.TxByteBlock: modelled by its result only. The wait for TDRE is not modelled.
- `SCI0_BRead` is not a member: the byte it returns is an input (`reply` in the test menu, the colour character in operation mode).
- `LCD_Init`, `LCD_ShiftL` and `LCD_ShiftR`: power-up sequencing and display shifts with no logic beyond the fixed instruction bytes they send.
- `Segs_CodeB` and `Segs_SayHelp`: fixed byte patterns that no modelled program uses.
- SCI/lib/atod.c, SCI/lib/LSM303.c, the PLL set-up and the I2C driver: register plumbing and devices outside the sorter's core. LTC2633 writes are modelled as the bytes sent after the address.
- Interrupt concurrency: each interrupt service routine is one atomic step, and interleavings inside a main-loop pass are not modelled.
- SorterOperation.Sorter.UpdateDisplay: records which screen is chosen and with which counts, not the `sprintf` text layout.
- SorterTesting.TestMenu.Pass: a test screen is recorded by the test it shows, not by its four lines of text.
- `IsolateChip` and `DetermineColour` in the operation program are never called. The `Analyse` state's fixed 'r' colour is what the main loop uses, and that is modelled.
- The empty bodies of `ChipIsolatorTest` and `ChipSortingTest` are modelled as doing nothing.
- ColourDetection: camera capture, image conversion and the ring scan (`get_cam`, `manual_get_img`, `get_img`, `convert_and_scan`) use OpenCV and floating point. The scanned HSV pixels are an input.
- ColourDetection.AnalyseCategories: requires a non-empty tally, since Python's `max` raises on an empty dictionary. Every tally `categorize_pixels` returns has its nine keys.
- ColourDetection/main.py and manual_test.py (serial and driver loops), the PWM calculator and InvKinTester user interfaces, and the servo demo program: I/O and user-interface code.
- Timer.MilliCount: the contract pins the result down only while the count fits 16 bits. Beyond that, `OffsetWrapsPastOneCycle` shows one truncated value.
- Timer.MicroCount: the contract pins the result down only while the 32-bit product does not wrap (`MicroCountWraps` shows a case where it does).
- Misc.FormatTimeMs: returns the text as a value rather than a pointer into a stack buffer.

## Findings

| source | as written | input that shows it | evidently intended | confidence | as-written member | corrected member |
|---|---|---|---|---|---|---|
| lib/timer.c:134-138 | the tick rate times `us` is computed in 32 bits before the division by 10^6, so it wraps | 1000 us at a 20 MHz bus with prescale 1 gives 2820 instead of 20000 | the whole number of ticks in `us` microseconds whenever that fits 16 bits | not executed | Timer.MicroCountWraps | Timer.MicroCountWide |
| SCI/lib/misc.c:30-41 | enabling PJ0 clears DDRJ bit 1, and enabling PJ1 clears bit 0 | `PortJ_Init(On, Off)` with J0 an output beforehand leaves J0 an output with its interrupt enabled | each enabled pin becomes an input | not executed | Misc.CrossedDirectionExample | Misc.PortJ.InitCorrected |
| lib/escseq.c:39-44 | Backwards emits final byte 'C' and Forwards emits 'D' | `ESC_MoveCursor(buf, Backwards, 1)` gives ESC [ 1 C, which is cursor forward (CUF, section 8.3.20 of ECMA-48) | Backwards is CUB 'D' (section 8.3.18) and Forwards is CUF 'C', as lib/escseq.h:64 describes | not executed | EscSeq.HorizontalMovesSwapped | EscSeq.MoveCursorCorrectedRoundTrip |
