# uSDHC host controller driver — a Dafny model

This project models the core of a Rust driver for the uSDHC SD/MMC host
controller of the i.MX RT106x. It covers three source files:

- The controller object `USdhc`. It owns the peripheral's register block, the
  bus pins, the current card mode and the SD clock rate in kHz. Its operations
  are:
  - setting identification mode;
  - programming the SD clock dividers;
  - resetting the controller;
  - sending the initialization clocks;
  - issuing a command, with an APP_CMD prefix when the command needs one;
  - reading the response;
  - card-detect and busy tests;
  - the block attributes.
- The five command tables: broadcast (bc), broadcast with response (bcr),
  addressed (ac), addressed data transfer (adtc) and application commands
  (ACMD). For each command the model records the index value it carries and
  the response types and argument layouts its documentation gives.
- The card modes and the maximum clock rates the driver defines for some of
  them.

Files:

- `machine.dfy` (`Machine`): the unsigned widths of Rust integers and register
  fields, plus `Option` and `Result`.
- `constants.dfy` (`UsdhcConstants`): `CardMode` and the `SD_MAX_*` rates.
- `commands.dfy` (`UsdhcCommands`):
  - the five tables, each command's index, and the reverse lookup from a table
    and an index;
  - the documented response types, bus types and argument layouts;
  - the six-bit command-index field of the transfer-type word.
- `clock.dfy` (`UsdhcClock`):
  - the base clock computed from the clock-tree fields;
  - the two loops that search for a prescaler and a divisor;
  - the encoding of the pair as SYS_CTRL field values.
- `usdhc.dfy` (`Usdhc`): the register block as a datatype, and the class
  `USdhc`, whose methods update the registers in place.

How the controller is modelled:

- **Registers and trace.** `USdhc` holds the registers in a `Registers` value.
  It also keeps a ghost `trace` of the register writes, pin switches and
  busy-waits the driver performs, in order. Plain register reads are not
  recorded: card detect, the response word, and the INT_STATUS read before
  the write-back. `Valid()` states the command-issue protocol over that
  trace: an argument write always follows a command-inhibit wait and is
  immediately followed by the transfer-type write. It also records that the APP_CMD transfer word carries index 55. Every method keeps it.
- **Busy-waits are environment steps.** Each `while flag {}` loop in the driver
  becomes a method that ends in the state the loop waits for. What the card
  answers to a command is a `Reply` parameter: the INT_STATUS flags and the
  first response word.
- **`is_command_comlete` is modelled as written.** It is true when the five
  command flags (CC, CIE, CEBE, CCE, CTOE) all read 0, so it is never true of
  a successfully completed command (`CompletionTestExcludesSuccess`).
  `wait_for_command_complete` loops until that test holds. The model only
  lets it be called when the flags are already clear, since the loop can end
  at once only then. `send_command` leaves all flags clear, so a sequence of
  commands can always go on.
- **The flag write-back clears every flag.** INT_STATUS is write-one-to-clear.
  `send_command` reads the five command flags, then rewrites the register
  with a read-modify-write that puts those five values back. A read-modify-write
  also writes back every other flag that reads 1, so the write clears every
  flag that is set, not only the five. The model follows the code here
  (`WriteBackClearsAllFlags`).
- **Division by zero in the base clock.** `base_clock` divides by
  `fraction / 6`, which is zero for a PFD fraction below 6. The driver would
  panic there. The model returns an error instead, and `SetSdClk` requires a
  valid base clock.
- **The GoIdleState value.** GoIdleState keeps the table value 1 the source
  gives it, although its documentation calls it CMD0.

## Model

| member | source | states |
|---|---|---|
| UsdhcConstants.DocumentedMaxRateHz | src/usdhc/constants.rs:10-39 | exactly the eight speed modes have a documented maximum, all between 400 kHz and 208 MHz |
| UsdhcConstants.RateCeilingHz | src/usdhc/constants.rs:41-45 | the driver defines a rate for exactly identification, MMC full speed, high speed, HS200 and DDR |
| UsdhcConstants.CeilingsMatchDocumentation | src/usdhc/constants.rs:22-45 | every SD_MAX_* constant equals the maximum its mode's documentation states |
| UsdhcCommands.Index | src/usdhc/commands.rs:1-580 | every command's index value is at most 61 |
| UsdhcCommands.LookupIndex | src/usdhc/commands.rs:1-580 | looking up a command's table and index yields that command |
| UsdhcCommands.LookupSound | src/usdhc/commands.rs:1-580 | a lookup only ever yields a command of the requested table with the requested index |
| UsdhcCommands.IndexInjectiveWithinTable | src/usdhc/commands.rs:1-580 | no two commands of one table share an index |
| UsdhcCommands.Response | src/usdhc/commands.rs:1-580 | only the broadcast (bc) commands are documented as having no response, and no command documents more than two response types |
| UsdhcCommands.TypeOf | src/usdhc/commands.rs:490-580 | a command is broadcast-without-response exactly when its only documented response is none |
| UsdhcCommands.Layout | src/usdhc/commands.rs:1-580 | each documented argument layout tiles bits 31..0 exactly once, without gaps or overlaps |
| UsdhcCommands.RcaArgument | src/usdhc/commands.rs:289-299 | an RCA argument has the RCA in the upper half and zero stuff bits below |
| UsdhcCommands.RcaArgumentFields | src/usdhc/commands.rs:289-299 | read back through a command's "[31:16] RCA, [15:0] stuff bits" layout, the argument gives the RCA and 0 |
| UsdhcCommands.IndexField | src/usdhc/mod.rs:39 | the `(index & 0x3f) << 24` field lies in bits 29..24 of the transfer-type word |
| UsdhcCommands.TransferIndex | src/usdhc/mod.rs:39 | the index read back from a transfer-type word is below 64 |
| UsdhcCommands.IndexFieldRoundTrip | src/usdhc/mod.rs:39 | every table index survives the six-bit field unchanged |
| UsdhcCommands.AppCmdEntry | src/usdhc/commands.rs:289-299 | APP_CMD has index 55, answers R1, carries the RCA in [31:16] and needs no prefix |
| UsdhcCommands.SdAppOpCondEntry | src/usdhc/commands.rs:543-556 | ACMD41 has index 41, answers R3, is bcr, takes a 32-bit OCR and needs the APP_CMD prefix |
| UsdhcCommands.SendExtCsdEntry | src/usdhc/commands.rs:321-330 | SEND_EXT_CSD has index 8 and answers R1 |
| UsdhcCommands.GoIdleStateValue | src/usdhc/commands.rs:1-9 | GoIdleState carries value 1, the same as SEND_OP_COND, and no broadcast command has index 0 |
| UsdhcCommands.IndexAloneIsAmbiguous | src/usdhc/commands.rs:304-320 | SWITCH (ac, R1b) and SWITCH_FUNC (adtc, R1) share index 6; the two IO_SEND_OP_COND entries carry 5 and 40 |
| UsdhcClock.BaseClock | src/usdhc/mod.rs:245-252 | the base clock exists iff the PFD fraction is at least 6, and then lies in 19.8 MHz..1.584 GHz |
| UsdhcClock.BaseClockIsPfdFrequency | src/usdhc/mod.rs:245-252 | for a fraction divisible by 6 the base clock is (528 MHz * 18 / fraction) / (PODF + 1) |
| UsdhcClock.BaseClockIgnoresFractionRemainder | src/usdhc/mod.rs:248-249 | fractions with the same quotient by 6 give the same base clock |
| UsdhcClock.BaseClock396Setup | src/usdhc/mod.rs:245-252 | fraction 24 with PODF 1 gives a 198 MHz base clock |
| UsdhcClock.PrescalerSearch | src/usdhc/mod.rs:268-271 | the prescaler is the smallest power of two in 1..256 that, with divisor 16, does not exceed the target, or 256 if none does |
| UsdhcClock.DivisorSearch | src/usdhc/mod.rs:273-276 | the divisor is the smallest value in 1..16 that brings the clock to at most the target, or 16 if none does |
| UsdhcClock.DividerSearch | src/usdhc/mod.rs:268-276 | the pair the two loops find is the divider choice: the smallest power-of-two prescaler that can reach the target with divisor 16, then the smallest divisor that reaches it with that prescaler |
| UsdhcClock.ChoiceBounds | src/usdhc/mod.rs:278 | for a divider choice, 1000 * prescaler * divisor lies in 1000..4_096_000, so the kHz computation fits a u32 |
| UsdhcClock.ChoiceIsUnique | src/usdhc/mod.rs:268-276 | the target and base clock determine the divider choice |
| UsdhcClock.ChoiceMeetsTargetIffReachable | src/usdhc/mod.rs:268-276 | the chosen clock is at most the target iff the slowest setting (256, 16) is |
| UsdhcClock.FieldsRoundTrip | src/usdhc/mod.rs:281-282 | `fs >> 1` and `dvs - 1` fit SDCLKFS and DVS, and decoding them gives the prescaler and divisor back |
| UsdhcClock.InitClockAt198MHz | src/usdhc/mod.rs:253-282 | at a 198 MHz base and 400 kHz target the choice is 32 and 16, written as 16 and 15, giving 386 kHz |
| Usdhc.StatusClear | src/usdhc/mod.rs:535-540 | the completion test holds iff all five command flags are 0 |
| Usdhc.Succeeded | src/usdhc/mod.rs:467 | a command succeeds iff CC is 1 and the four error flags are 0 |
| Usdhc.CompletionTestExcludesSuccess | src/usdhc/mod.rs:535-540 | no flag state passes the completion test and also counts as success |
| Usdhc.WriteOneToClear | src/usdhc/mod.rs:457-466 | after a write, a flag stays set iff it was set and written as 0 |
| Usdhc.WriteBackClearsAllFlags | src/usdhc/mod.rs:455-466 | writing back the observed command flags by read-modify-write leaves no flag set |
| Usdhc.WriteCommandWellOrdered | src/usdhc/mod.rs:447-450 | writing argument then transfer type right after a busy wait keeps the issue protocol |
| Usdhc.IssueEventsWellOrdered | src/usdhc/mod.rs:446-466 | one command's sequence of accesses follows the issue protocol |
| Usdhc.InitClockWithinLimit | src/usdhc/constants.rs:22-23 | with any valid base clock, the clock programmed for SD_MAX_INIT_RATE_HZ is at most 400 kHz and so is its kHz figure, as identification mode promises |
| Usdhc.ChoiceWithinInitRate | src/usdhc/mod.rs:268-278 | for base clocks up to 1.584 GHz, the divider choice for 400 kHz meets it, and base / (1000 * fs * dvs) is at most 400 |
| Usdhc.ChoiceFieldsSetting | src/usdhc/mod.rs:278-282 | the written fields decode to the divider choice, and the kHz rate they give is at most the base clock |
| Usdhc.ClockDividers | src/usdhc/mod.rs:268-282 | the kHz rate and field values computed are those of the divider choice |
| Usdhc.BlockAttributes | src/usdhc/mod.rs:549-551 | the block count is min(count, 65535) and the block size is min(size, 4096) |
| Usdhc.USdhc.constructor | src/usdhc/mod.rs:235-243 | takes over the registers as given, with pins enabled, mode Unknown and clock 0 kHz; the APP_CMD transfer word must carry index 55 |
| Usdhc.USdhc.AppCmdRequest | src/usdhc/mod.rs:440-444 | the prefix has argument 0 (RCA 0), is not itself prefixed, and its transfer-type word carries command index 55 |
| Usdhc.USdhc.IsCardInserted | src/usdhc/mod.rs:521-524 | a card is present iff bit 3 of the DATA line levels (DATA3) is 1 |
| Usdhc.USdhc.IsCardBusy | src/usdhc/mod.rs:532-534 | busy iff the command-inhibit flag is set |
| Usdhc.USdhc.IsCommandComplete | src/usdhc/mod.rs:535-540 | true iff the five command flags are clear, and then the flags never show a success |
| Usdhc.USdhc.ReadResponseU32 | src/usdhc/mod.rs:470-472 | returns the first response register |
| Usdhc.USdhc.WaitForCard | src/usdhc/mod.rs:430-434 | ends with the command-inhibit flag clear and nothing else changed |
| Usdhc.USdhc.WaitForCommandComplete | src/usdhc/mod.rs:435-437 | polls the completion test once it holds and changes no register |
| Usdhc.USdhc.AwaitClockStable | src/usdhc/mod.rs:297 | ends with SDSTB set and nothing else changed |
| Usdhc.USdhc.SendCommand | src/usdhc/mod.rs:439-468 | sends the APP_CMD prefix first when required. Reports success iff the command's flags show success. Writes the argument and transfer type, latches the response and leaves no flag set. Keeps the issue protocol and leaves SYS_CTRL, the clock and the mode alone |
| Usdhc.USdhc.Issue | src/usdhc/mod.rs:446-467 | for one command: waits, writes the argument then the transfer type, waits, and clears every set flag; the result is the success test of those flags |
| Usdhc.USdhc.InitCard | src/usdhc/mod.rs:474-477 | sets INITA and returns once it reads 0 again; only INITA changes |
| Usdhc.USdhc.ResetAndWait | src/usdhc/mod.rs:516-519 | asserts RSTA with SDCLKFS 0x80 and returns once RSTA clears |
| Usdhc.USdhc.SetSdClk | src/usdhc/mod.rs:253-329 | programs the divider choice for the target and the base clock into SDCLKFS and DVS, with DTOCV 14. Records its kHz rate. The write sits between two clock-stable waits, with FRC_SDCLK_ON off and then on again |
| Usdhc.USdhc.SetInitMode | src/usdhc/mod.rs:331-343 | ends in identification mode. Changes nothing if already there. Otherwise: pins off, reset, the divider choice for 400 kHz programmed, pins on. The SD clock is then at most 400 kHz and the recorded rate at most 400 kHz |
| Usdhc.USdhc.SetBlockSizeAndCount | src/usdhc/mod.rs:549-551 | BLK_ATT becomes the capped count and size, and the write is recorded in the trace; no other register changes |

## Left out

- Usdhc.USdhc.WaitForCommandComplete: requires the five command flags to be clear already. The loop can end only when they read 0. Apart from the interrupt handler, which is left out, nothing else clears them. So the model does not follow a wait that would spin forever, or one that an interrupt ends.
- Usdhc.USdhc.SendCommand: requires the five command flags to be clear on entry, for the same reason. The constructor takes the flags as given. `SendCommand` leaves every flag clear, and every other operation keeps INT_STATUS as it was. So a controller built with one of the five flags set cannot issue a command in the model.
- Usdhc.USdhc.Issue: the same requirement as `SendCommand`.
- Usdhc.USdhc.SetSdClk: requires a base clock with a PFD fraction of at least 6. Below 6, `base_clock` divides by zero and the driver panics.
- Usdhc.USdhc.SetInitMode: the same requirement as `SetSdClk` when the mode changes.
- Usdhc.USdhc.AppCmdRequest: the transfer-type word of the APP_CMD prefix is a constructor parameter. The constructor requires only that its command-index field (bits 29..24) holds 55; its other bits are not constrained. The `SdCommand` trait's `mk_args`, `mk_xfer` and `req_app_cmd` bodies are not part of this model, so a command is given as its argument, transfer-type word and prefix flag.
- CCM programming (CCGR6, CSCDR1, CSCMR1, the PFD) is out of scope. The base clock reads the two clock-tree fields as given.
- Pin muxing is out of scope. Pin enable and disable are a boolean field.
- The typestate builders (`Uninitialized`, `Builder`, `build`) are out of scope. The model starts at `USdhc::new`.
- The interrupt handler and `enable_interrupts` are out of scope. The handler runs asynchronously and rewrites INT_STATUS alongside the polling path. `enable_interrupts` sets INT_SIGNAL_EN, INT_STATUS_EN and the NVIC mask.
- `init` is not modelled as a member of its own. It is `set_init_mode`, which is modelled, followed by the interrupt setup.
- `get_state` and `get_clock_state` are out of scope. They return raw register words for debugging.
- Usdhc.USdhc.ResetAndWait: a reset's effect on the registers is not modelled beyond the two SYS_CTRL fields the driver writes. `ResetAndWait` sets SDCLKFS to 0x80 and sees RSTA clear again. It keeps DVS, DTOCV, INITA and every other register (INT_STATUS included) as they were, where the hardware would restore their reset values.
- Concurrency with the hardware is not modelled. Every wait is a single environment step, and a card's answer arrives only between the completion poll and the following busy wait.
- Log output is not modelled.
- The commented-out C reference code is not modelled, apart from the index-field layout `(index & 0x3f) << 24`.
- The usdhc bring-up test routine is not part of this model.
- The delay, block transfer, buffer and SD card modules are not part of this model.
