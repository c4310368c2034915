# People counter firmware, modelled in Dafny

This project models the firmware of a bidirectional people counter on an
8-bit AVR microcontroller. Two infrared beams across a doorway feed one
pin-change interrupt handler. The handler works out the direction of each
person who walks through and keeps a signed occupancy count. The main loop
clamps the count at zero, prints it on a 16x2 character display driven over a
4-bit bus, and switches two lamps and a relay according to whether anybody is
inside.

The project has five modules:

- `Ports` (`ports.dfy`): the 8-bit I/O registers. A register is a class,
  because the two lamps and the relay share one port. Each register keeps a
  ghost history of every value stored into it, and the module has the
  single-bit read-modify-write helpers.
- `Indicators` (`indicators.dfy`): `indicator_*` and `pump_*`. Each is one
  read-modify-write of one bit.
- `LcdDriver` (`lcd.dfy`): the display driver. It has:
  - the port values of a command or character transfer (high nibble,
    register select RS, an E pulse, low nibble, an E pulse);
  - the display's view of the bus: it latches RS and D4..D7 at each falling
    edge of E, and pairs the nibbles back into bytes;
  - the string, positioning, initialisation and clear routines.

  The driver methods are proved to store exactly the port values of the
  transfers they are meant to send. Separate lemmas prove that the display
  decodes those port values back into exactly those transfers.
- `Detector` (`detector.dfy`): the interrupt handler's state machine. It is
  written as a pure step function over the five globals and as a `Counter`
  class whose `Isr` method mirrors the handler's nested branches.
- `Firmware` (`firmware.dfy`): `main`. It covers:
  - the start-up sequence;
  - one iteration of the endless loop: the clamp, `sprintf` into the
    display buffer, the text on row 0, and the lamps and relay;
  - the decimal rendering of the count, with its round trip and length
    bounds.

The handler's sign mapping follows the code:
- an entry-beam completion while the exit flag is set lowers the count;
- an exit-beam completion while the entry flag is set raises it.

So entry beam then exit beam counts one person in, and exit beam then entry
beam counts one person out (`src/main.c:78-82`, `src/main.c:101-105`).

## Model

| member | source | states |
|---|---|---|
| `Ports.SetBit` | src/modules.c:25 | or-ing in `1 << p` sets bit `p` and keeps every other bit |
| `Ports.ClearBit` | src/modules.c:30 | `v & ~(1 << p)` clears bit `p` and keeps every other bit |
| `Ports.ToggleBit` | src/modules.c:36 | `v ^ (1 << p)` flips bit `p` and keeps every other bit |
| `Indicators.IndicatorInit` | src/modules.c:18-21 | the DDR becomes its old value with bit `pin` set (one store) |
| `Indicators.IndicatorOn` | src/modules.c:23-26 | the port becomes its old value with bit `pin` set (one store) |
| `Indicators.IndicatorOff` | src/modules.c:28-31 | the port becomes its old value with bit `pin` cleared (one store) |
| `Indicators.IndicatorBlink` | src/modules.c:34-38 | the port becomes its old value with bit `pin` flipped (one store) |
| `Indicators.BlinkTwiceRestores` | src/modules.c:36 | two blinks of the same pin give back the original port value |
| `Indicators.PumpInit` | src/modules.c:181-184 | the DDR becomes its old value with the pump bit set |
| `Indicators.PumpOn` | src/modules.c:186-189 | the port becomes its old value with the pump bit set |
| `Indicators.PumpOff` | src/modules.c:191-194 | the port becomes its old value with the pump bit cleared |
| `LcdDriver.Apply` | src/modules.c:48-68 | a nibble store keeps port bits 0..3 and puts the byte's high nibble (first store) or low nibble (second store) on bits 4..7; an RS or E store sets or clears exactly that pin |
| `LcdDriver.TransferPortValues` | src/modules.c:41-70 | within one transfer: the first store keeps bits 0..3 and carries the high nibble; RS is low for a command and high for a character; E rises then falls; the fifth store keeps bits 0..3 and carries the low nibble; E rises then falls, so E ends low |
| `LcdDriver.TransferLatches` | src/modules.c:110-139 | whatever the port held before, one transfer makes the display latch exactly two nibbles: high then low, each with the transfer's RS level |
| `LcdDriver.BusCarriesNibbles` | src/modules.c:41-70 | for any sequence of transfers, the display latches exactly their nibbles, in order |
| `LcdDriver.AssembleNibbles` | src/modules.c:48-63 | pairing the latched nibbles back into bytes gives every transfer back, register and byte |
| `LcdDriver.DisplayReceives` | src/modules.c:110-139 | what the display decodes from the stored port values is exactly the transfers sent |
| `LcdDriver.BoardDisplayReceives` | src/modules.c:41-139 | with RS on PB2 and E on PB3, as on the board, the display decodes exactly the transfers sent |
| `LcdDriver.WritesAppend` | src/modules.c:146-151 | sending `ts` and then `us` stores the port values of `ts + us` and ends where `us` ends |
| `LcdDriver.WriteCommand` | src/modules.c:41-70 | the port receives exactly the seven stores of one command transfer of `command` |
| `LcdDriver.WriteChar` | src/modules.c:110-139 | the port receives exactly the seven stores of one character transfer of `data` |
| `LcdDriver.CString` | src/modules.c:149 | the string read is a prefix of the buffer, holds no NUL, and stops at a NUL or at the buffer's end |
| `LcdDriver.CStringIsPrefixBeforeNul` | src/modules.c:149 | a NUL-free prefix followed by a NUL (or the buffer's end) is exactly the string the loop reads |
| `LcdDriver.WriteString` | src/modules.c:146-151 | exactly one character transfer per character before the first NUL, in order |
| `LcdDriver.Position` | src/modules.c:162-165 | a positioning command exists iff the row is 0 or 1 and the column is below 16; it has bit 7 set and the address `0x40 * row + pos` |
| `LcdDriver.WriteStringAt` | src/modules.c:160-167 | the positioning command, if any, then the string's characters |
| `LcdDriver.WakeUp` | src/modules.c:82-87 | the commands 0x03, 0x03, 0x03, 0x02 |
| `LcdDriver.Init` | src/modules.c:76-101 | the DDR is assigned exactly the six display pins, then the commands 0x03, 0x03, 0x03, 0x02, 0x02, 0x28, 0x0C, 0x06, 0x01 in that order |
| `LcdDriver.Clear` | src/modules.c:173-178 | the commands 0x01 then 0x02 |
| `Detector.SampleOf` | src/main.c:64 | a beam is broken exactly when its sensor pin (PD2 for entry, PD3 for exit) reads low |
| `Detector.EntryHalf` | src/main.c:63-83 | the entry half keeps the flags and latches valid, never raises the count and lowers it by at most one, never touches the exit latch, and changes the entry flag only when the entry beam clears with its latch set |
| `Detector.ExitHalf` | src/main.c:86-106 | the exit half keeps the flags and latches valid, never lowers the count and raises it by at most one, never touches the entry latch, and changes the exit flag only when the exit beam clears with its latch set |
| `Detector.Step` | src/main.c:56-109 | one handler invocation keeps the flags and latches in {0,1} with at most one flag set, and moves the count by at most one |
| `Detector.RunPreservesValid` | src/main.c:63-106 | every state reachable from a valid state (so from power-on) keeps the flags and latches in {0,1} and never sets both flags |
| `Detector.RunCountBound` | src/main.c:63-106 | after n invocations the count is within n of its start |
| `Detector.EntryBreakLatches` | src/main.c:64-69 | entry beam broken with the latch clear: the latch is set; flags and count unchanged |
| `Detector.EntryClearRaisesFlag` | src/main.c:71-77 | entry beam clear with the latch set and no flag set: the latch clears and the entry flag is raised |
| `Detector.EntryClearCountsOut` | src/main.c:78-82 | entry completion while only the exit flag is set: the count drops by exactly 1 and the exit flag clears |
| `Detector.ExitBreakLatches` | src/main.c:87-92 | exit beam broken with the latch clear: the latch is set; flags and count unchanged |
| `Detector.ExitClearRaisesFlag` | src/main.c:94-100 | exit beam clear with the latch set and no flag set: the latch clears and the exit flag is raised |
| `Detector.ExitClearCountsIn` | src/main.c:101-105 | exit completion while only the entry flag is set: the count rises by exactly 1 and the entry flag clears |
| `Detector.RepeatedEntryIgnored` | src/main.c:71-82 | an entry completion with the entry flag already set only clears the latch |
| `Detector.RepeatedExitIgnored` | src/main.c:94-106 | an exit completion with the exit flag already set only clears the latch |
| `Detector.StepCountChange` | src/main.c:63-106 | exactly which samples and states lower or raise the count in one invocation; the exit half sees the entry flag the entry half just raised |
| `Detector.SimultaneousClearCountsIn` | src/main.c:71-105 | both beams clearing in one invocation with both latches set and no flag counts one person in |
| `Detector.PassCounts` | src/main.c:56-109 | from rest, one pass inward raises the count by 1, one pass outward lowers it by 1, and the detector ends at rest |
| `Detector.WalkCounts` | src/main.c:56-109 | from rest, any sequence of passes ends at rest with the count moved by people in minus people out |
| `Detector.BalancedWalkKeepsCount` | src/main.c:56-109 | a walk with as many passes in as out leaves the count unchanged |
| `Detector.OverlappingInwardCounts` | src/main.c:56-109 | a person breaking both beams at once on the way in is counted once |
| `Detector.DoubleEntryIgnored` | src/main.c:71-82 | two entry passes with no exit leave the entry flag set and the count unchanged |
| `Detector.Counter.constructor` | src/main.c:47-51 | all five globals start at 0 |
| `Detector.Counter.Isr` | src/main.c:56-109 | the handler on the globals does exactly one `Step` on the sample read from the sensor port |
| `Firmware.Clamp` | src/main.c:143 | the result is never negative; a non-negative count is kept and a negative one becomes 0 |
| `Firmware.ClampIdempotent` | src/main.c:143 | clamping a clamped count changes nothing |
| `Firmware.Outputs` | src/main.c:151-162 | lamp 1 is on exactly when the count is positive; lamp 2 and the relay are on exactly when it is not |
| `Firmware.OutputsIgnoreClamp` | src/main.c:143-162 | the clamp never changes the lamp and relay levels |
| `Firmware.Decimal` | src/main.c:146 | `%d` of a non-negative number is a non-empty string of ASCII digits |
| `Firmware.ParseDecimalInverts` | src/main.c:146 | the digits read back give the number |
| `Firmware.DecimalLength` | src/main.c:146 | a number has at most k digits exactly when it is below 10^k |
| `Firmware.Render` | src/main.c:146 | the printed text starts with `People Cnt: ` and holds no NUL |
| `Firmware.RenderShowsCount` | src/main.c:146 | after the label, the text of a non-negative count is digits that read back as the count |
| `Firmware.RenderFitsDeclaredBuffer` | src/main.c:53 | the text and its NUL fit the 16-byte buffer exactly when the count is below 1000 |
| `Firmware.DeclaredBufferOverflows` | src/main.c:53 | the count 1000 needs 17 bytes |
| `Firmware.RenderFits` | src/main.c:146 | every 16-bit count fits, with its NUL, in a 19-byte buffer |
| `Firmware.Format` | src/main.c:146 | the buffer holds the printed text followed by a NUL, so the string the display driver reads from it is that text; the bytes after the NUL keep their values |
| `Firmware.ShowBanner` | src/main.c:132-133 | the display receives `Advanced People` at row 0 and `Counter Project` at row 1, each after its positioning command |
| `Firmware.InitOutputs` | src/main.c:124-126 | the lamp and relay pins of their DDRs are set and every other DDR bit (the sensor pins PD2 and PD3 among them) keeps its level; on a DDR shared by all three lines the new value is the old one with the three pins set |
| `Firmware.BoardLinesDistinct` | includes/main.h:38-49 | the board's lamps and relay (PD4, PD5, PD6 on one port) are pairwise distinct lines, as the loop iteration (`src/main.c:151-162`) needs |
| `Firmware.Boot` | src/main.c:123-137 | the three output lines become outputs with every other DDR bit kept; the display DDR is assigned exactly the six display pins; the display receives the initialisation commands, the banner, then the clear commands |
| `Firmware.SetOutputs` | src/main.c:151-162 | lamp 1, lamp 2 and the relay take the levels `Outputs` gives for the count: lamp 1 on exactly when the count is positive, the other two exactly when it is not |
| `Firmware.LoopIteration` | src/main.c:140-163 | with the 16-byte `lcd_buffer`: the count is clamped and nothing else in the globals changes; the buffer holds the clamped count's text and a NUL, and its bytes after the NUL keep their values; the display receives the row-0 positioning command and the clamped count's text; lamp 1, lamp 2 and the relay take the levels `Outputs` gives for the clamped count |

## Left out

- The handler's debounce busy-wait (`src/main.c:59-61`) and every `_delay_ms`/`_delay_us` call. They only take time. `IndicatorBlink` takes the delay as a parameter and ignores it.
- Preemption of the main loop by the handler, and the unsynchronised read of `count`. The handler is one atomic `Step`, and `LoopIteration` is one atomic iteration. The endless loop is modelled as one iteration, not as an infinite run.
- The interrupt set-up (`PCICR`, `PCMSK2`, `sei`, `src/main.c:116-121`). It only configures hardware.
- `ADC_Init` and `ADC_Read` (`src/modules.c:203-227`). They poll converter registers in an unbounded wait and nothing in `main` calls them.
- The width of `count`: `int` is 16 bits on this target, and the model's count is unbounded. An increment past 32767 is undefined behaviour in C, and the model does not capture it.
- Pin numbers are 0..7 (`PinIndex`). A pin number of 8 or more would shift the bit out of the register in C, and the model does not admit one.
- The data pins `d4`..`d7` of the display record are used only for the DDR assignment in `LCD_Init`. The transfers always put the nibble on bits 4..7, as the code does.
- `LcdDriver.TransferLatches`, `LcdDriver.BusCarriesNibbles`, `LcdDriver.DisplayReceives`: these need RS and E on bits 0..3 and on different pins, as wired on this board (PB2, PB3). With RS or E among bits 4..7, a nibble store would also move the control line.
- `LcdDriver.WriteString`: a C string with no NUL in the buffer is read up to the buffer's end. The out-of-bounds read that C would make is not modelled.
- `Firmware.LoopIteration`: it requires a count below 1000. From 1000 on, `sprintf` writes past the end of the 16-byte `lcd_buffer` (see "## Findings"), and the C program's behaviour is undefined.
- `Detector.Counter.Isr`: the handler reads the sensor port twice (`src/main.c:64` and `src/main.c:87`), the model once. Each half tests only its own beam's bit, so one `pind` whose bit 2 comes from the first read and bit 3 from the second gives the same behaviour.
- `Firmware.LoopIteration`, `Firmware.SetOutputs`: they state the levels of the three output pins, not that the other bits of their ports are kept. Each `Indicators` method states that for its own store.
- `Firmware.Format`: `sprintf` itself is a C library call. Only its output for `"People Cnt: %d"` is modelled, as `Render`.
- `includes/main.h` and `includes/modules.h` hold only declarations and pin definitions. The pin numbers they define appear as constants: `Detector.EntrySensePin` and `Detector.ExitSensePin` (PD2, PD3), `LcdDriver.LcdRsPin` and `LcdDriver.LcdEPin` (PB2, PB3), and `Firmware.Led1Pin`, `Firmware.Led2Pin` and `Firmware.RelayPin` (PD4, PD5, PD6). The registers themselves are parameters.

## Findings

| source | as written | input that shows it | evidently intended | confidence | as-written member | corrected member |
|---|---|---|---|---|---|---|
| src/main.c:53 | `char lcd_buffer[16]` receives `sprintf(lcd_buffer, "People Cnt: %d", count)` at `src/main.c:146`; the 12-character label leaves room for three digits and the NUL | count = 1000: `People Cnt: 1000` is 16 characters plus the NUL, 17 bytes, one past the end of the buffer | a buffer large enough for the text of any `int` count: 19 bytes (label, sign, five digits, NUL) | high; not executed | `Firmware.DeclaredBufferOverflows` | `Firmware.RenderFits` |
