/**
 * The uSDHC host controller driver: a class over an abstract register block
 * that records, in a ghost trace, the register writes and busy-waits the
 * driver performs, in order. Plain register reads (card detect, the response
 * word, the INT_STATUS read before the write-back) are not recorded.
 *
 * Busy-wait loops on hardware flags are environment steps: each one ends in a
 * state where the awaited flag holds. What the card answers to a command is a
 * `Reply` parameter: the INT_STATUS flags and the first response word the
 * controller shows once the command-inhibit flag has cleared.
 */
module Usdhc {
  import opened Machine
  import opened UsdhcConstants
  import opened UsdhcClock
  import opened UsdhcCommands

  /** PRES_STATE: command inhibit, SD clock stable, DATA line levels. */
  datatype PresState = PresState(cihb: bit, sdstb: bit, dlsl: bv8)

  /**
   * INT_STATUS: the five command flags the driver reads and clears by name
   * (command complete, index error, end-bit error, CRC error, timeout) and
   * the positions of the other flags that are set.
   */
  datatype IntStatus = IntStatus(cc: bit, cie: bit, cebe: bit, cce: bit, ctoe: bit, others: set<nat>)

  /** SYS_CTRL fields the driver writes; each has its register field's width. */
  datatype SysCtrl = SysCtrl(rsta: bit, inita: bit, dvs: u4, sdclkfs: u8, dtocv: u4)

  /** BLK_ATT: block count and block size. */
  datatype BlkAtt = BlkAtt(blkcnt: u16, blksize: u13)

  datatype Registers = Registers(
    presState: PresState,
    intStatus: IntStatus,
    sysCtrl: SysCtrl,
    frcSdclkOn: bit,  // VEND_SPEC.FRC_SDCLK_ON
    cmdArg: u32,
    cmdXfrTyp: u32,
    cmdRsp0: u32,
    blkAtt: BlkAtt)

  const DTOCV_14: u4 := 14

  /** What a command yields through the SD command interface: its argument, transfer-type word and whether it needs APP_CMD first. */
  datatype Request = Request(arg: u32, xfer: u32, reqAppCmd: bool)

  /** The card's answer to one command, as the controller shows it. */
  datatype Reply = Reply(status: IntStatus, rsp0: u32)

  /** Register writes, pin switches and busy-waits of the driver, in program order. */
  datatype Event =
    | PinsEnabled
    | PinsDisabled
    | ResetAsserted
    | ResetCompleted
    | ClockStable
    | ClockForcedOn(on: bit)
    | DividersWritten(dvs: u4, sdclkfs: u8)
    | InitStrobeSet
    | InitStrobeCompleted
    | CmdInhibitClear
    | CommandCompletePolled
    | ArgumentWritten(arg: u32)
    | TransferTypeWritten(xfer: u32)
    | StatusWrittenBack(word: IntStatus)
    | BlockAttributesWritten(b: BlkAtt)

  // ---------------------------------------------------------------------------
  // INT_STATUS arithmetic

  /** The five command flags all read 0 (the driver's "command complete" test). */
  function StatusClear(s: IntStatus): (clear: bool)
    ensures clear <==> s.cc == 0 && s.cie == 0 && s.cebe == 0 && s.cce == 0 && s.ctoe == 0
  {
    s.cc + s.cie + s.cebe + s.cce + s.ctoe == 0
  }

  /** No flag of the register is set. */
  predicate NoFlagSet(s: IntStatus) {
    StatusClear(s) && s.others == {}
  }

  /** The outcome send_command reports: complete and no command error. */
  function Succeeded(s: IntStatus): (ok: bool)
    ensures ok <==> s.cc == 1 && s.cie == 0 && s.cebe == 0 && s.cce == 0 && s.ctoe == 0
  {
    s.cc == 1 && s.cie + s.cebe + s.cce + s.ctoe == 0
  }

  /** The "command complete" test as written can never be true of a successful command's flags. */
  lemma CompletionTestExcludesSuccess(s: IntStatus)
    ensures StatusClear(s) ==> !Succeeded(s)
  {
  }

  /**
   * The word a read-modify-write of INT_STATUS writes: the register as re-read,
   * with the five command fields replaced by the values observed before.
   */
  function ModifiedStatusWord(current: IntStatus, observed: IntStatus): IntStatus {
    current.(cc := observed.cc, cie := observed.cie, cebe := observed.cebe, cce := observed.cce, ctoe := observed.ctoe)
  }

  function ClearIfWritten(flag: bit, written: bit): bit {
    if written == 1 then 0 else flag
  }

  /** Writing to a write-one-to-clear register: a flag survives only if it was set and written as 0. */
  function WriteOneToClear(current: IntStatus, written: IntStatus): (r: IntStatus)
    ensures r.cc == 1 <==> current.cc == 1 && written.cc == 0
    ensures r.cie == 1 <==> current.cie == 1 && written.cie == 0
    ensures r.cebe == 1 <==> current.cebe == 1 && written.cebe == 0
    ensures r.cce == 1 <==> current.cce == 1 && written.cce == 0
    ensures r.ctoe == 1 <==> current.ctoe == 1 && written.ctoe == 0
    ensures forall b :: b in r.others <==> b in current.others && b !in written.others
  {
    IntStatus(
      ClearIfWritten(current.cc, written.cc),
      ClearIfWritten(current.cie, written.cie),
      ClearIfWritten(current.cebe, written.cebe),
      ClearIfWritten(current.cce, written.cce),
      ClearIfWritten(current.ctoe, written.ctoe),
      current.others - written.others)
  }

  /**
   * Writing back the observed command flags through a read-modify-write clears
   * the whole register: the other set flags are written back as 1 too.
   */
  lemma {:induction false} WriteBackClearsAllFlags(s: IntStatus)
    ensures NoFlagSet(WriteOneToClear(s, ModifiedStatusWord(s, s)))
  {
    var r := WriteOneToClear(s, ModifiedStatusWord(s, s));
    assert r.others == {} by {
      forall b | b in r.others ensures false { }
    }
  }

  // ---------------------------------------------------------------------------
  // Command issue order

  /** The events of issuing one command whose card answer is `reply`. */
  function IssueEvents(cmd: Request, reply: Reply): seq<Event> {
    [CmdInhibitClear, ArgumentWritten(cmd.arg), TransferTypeWritten(cmd.xfer),
     CommandCompletePolled, CmdInhibitClear,
     StatusWrittenBack(ModifiedStatusWord(reply.status, reply.status))]
  }

  /**
   * Commands are written back to back: an argument is written right after the
   * command-inhibit flag was seen clear and right before the transfer type,
   * and a transfer type is written only right after an argument.
   */
  ghost predicate WellOrdered(t: seq<Event>) {
    forall i :: 0 <= i < |t| ==> WellPlaced(t, i)
  }

  /** The event at position `i` of `t` has the neighbours its kind needs. */
  ghost predicate WellPlaced(t: seq<Event>, i: nat)
    requires i < |t|
  {
    && (t[i].ArgumentWritten? ==>
          0 < i < |t| - 1 && t[i - 1] == CmdInhibitClear && t[i + 1].TransferTypeWritten?)
    && (t[i].TransferTypeWritten? ==> 0 < i && t[i - 1].ArgumentWritten?)
  }

  lemma {:induction false} WellOrderedAppend(t: seq<Event>, u: seq<Event>)
    requires WellOrdered(t) && WellOrdered(u)
    ensures WellOrdered(t + u)
  {
    var tu := t + u;
    forall i | 0 <= i < |tu|
      ensures WellPlaced(tu, i)
    {
      if i < |t| {
        assert WellPlaced(t, i);
        if tu[i].ArgumentWritten? {
          assert tu[i + 1] == t[i + 1];
        }
      } else {
        assert WellPlaced(u, i - |t|);
      }
    }
  }

  /** Writing a command right after the command-inhibit flag was seen clear keeps the order. */
  lemma {:induction false} WriteCommandWellOrdered(t: seq<Event>, arg: u32, xfer: u32)
    requires WellOrdered(t) && |t| > 0 && t[|t| - 1] == CmdInhibitClear
    ensures WellOrdered(t + [ArgumentWritten(arg), TransferTypeWritten(xfer)])
  {
    var u := t + [ArgumentWritten(arg), TransferTypeWritten(xfer)];
    forall i | 0 <= i < |u|
      ensures WellPlaced(u, i)
    {
      if i < |t| {
        assert WellPlaced(t, i);
      }
    }
  }

  lemma IssueEventsWellOrdered(cmd: Request, reply: Reply)
    ensures WellOrdered(IssueEvents(cmd, reply))
  {
  }

  /** The events of programming new clock dividers. */
  function ClockEvents(s: SysCtrl): seq<Event> {
    [ClockStable, ClockForcedOn(0), DividersWritten(s.dvs, s.sdclkfs), ClockStable, ClockForcedOn(1)]
  }

  /**
   * SDCLKFS and DVS field values that select the search's choice for `base`
   * and `maxSdClk`, and the SD clock in kHz they give.
   */
  ghost predicate ClockSetting(base: nat, maxSdClk: nat, sdclkfs: nat, dvs: nat, khz: nat) {
    && IsDividerChoice(base, maxSdClk, PrescalerOf(sdclkfs), DivisorOf(dvs))
    && khz == SdClkKhz(base, sdclkfs, dvs)
  }

  /** The SD clock in kHz that SDCLKFS and DVS field values give from `base` Hz. */
  function SdClkKhz(base: nat, sdclkfs: nat, dvs: nat): nat {
    base / (1000 * PrescalerOf(sdclkfs) * DivisorOf(dvs))
  }

  /** The fields written for a search result select that result, and the kHz figure fits a word. */
  lemma {:induction false} ChoiceFieldsSetting(base: u32, maxSdClk: nat, fs: nat, dvs: nat)
    requires IsDividerChoice(base, maxSdClk, fs, dvs)
    ensures 1000 <= 1000 * fs * dvs <= 4_096_000
    ensures SdClkFsField(fs) <= 128 && DvsField(dvs) <= 15
    ensures base / (1000 * fs * dvs) <= base
    ensures IsDividerChoice(base, maxSdClk, PrescalerOf(SdClkFsField(fs)), DivisorOf(DvsField(dvs)))
    ensures SdClkKhz(base, SdClkFsField(fs), DvsField(dvs)) == base / (1000 * fs * dvs)
  {
    ChoiceBounds(base, maxSdClk, fs, dvs);
    FieldsRoundTrip(fs, dvs);
    DivBounds(base, 1000 * fs * dvs, 1000 * fs * dvs);
  }

  /**
   * The computation part of the clock setup: the divider search, the SD clock
   * in kHz it gives, and the SDCLKFS and DVS values it is written as.
   */
  method ClockDividers(base: u32, maxSdClk: u32) returns (khz: u32, sdclkfs: u8, dvs: u4)
    ensures ClockSetting(base, maxSdClk, sdclkfs, dvs, khz)
  {
    var fs, d := DividerSearch(base, maxSdClk);
    ChoiceFieldsSetting(base, maxSdClk, fs, d);
    var divisor: u32 := 1000 * fs * d;
    khz := base / divisor;
    sdclkfs := SdClkFsField(fs);  // sd_clk_fs >> 1
    dvs := DvsField(d);           // dvs - 1
  }

  /**
   * Identification mode's promise: whatever the base clock, the divider choice
   * for SD_MAX_INIT_RATE_HZ keeps the SD clock at or below 400 kHz, since even
   * the fastest base clock divided by 256 * 16 is below that.
   */
  lemma {:induction false} InitClockWithinLimit(ccm: ClockTree, sdclkfs: nat, dvs: nat, khz: nat)
    requires BaseClock(ccm).Ok?
    requires ClockSetting(BaseClock(ccm).value, SD_MAX_INIT_RATE_HZ, sdclkfs, dvs, khz)
    ensures !TooFast(BaseClock(ccm).value, SD_MAX_INIT_RATE_HZ, PrescalerOf(sdclkfs), DivisorOf(dvs))
    ensures khz <= 400
  {
    var base := BaseClock(ccm).value;
    ChoiceWithinInitRate(base, PrescalerOf(sdclkfs), DivisorOf(dvs));
  }

  /** The same for a divider choice as numbers: at most 400 kHz, and so at most 400 in kHz. */
  lemma {:induction false} ChoiceWithinInitRate(base: nat, fs: nat, d: nat)
    requires base <= 1_584_000_000 && IsDividerChoice(base, SD_MAX_INIT_RATE_HZ, fs, d)
    ensures !TooFast(base, SD_MAX_INIT_RATE_HZ, fs, d)
    ensures base / (1000 * fs * d) <= 400
  {
    ChoiceBounds(base, SD_MAX_INIT_RATE_HZ, fs, d);
    SlowestSettingMeets(base, SD_MAX_INIT_RATE_HZ);
    ChoiceMeetsTargetIffReachable(base, SD_MAX_INIT_RATE_HZ, fs, d);
    assert 1000 * fs * d == 1000 * (fs * d);
    KhzWithinLimit(base, fs * d, 400);
  }

  /** Every base clock divided by 256 * 16 is at most 400 kHz. */
  lemma SlowestSettingMeets(base: nat, target: nat)
    requires base <= 1_584_000_000 && target == 400_000
    ensures !TooFast(base, target, 256, 16)
  {
  }

  /** Stated apart so the solver need not find it inside the larger proof below. */
  lemma DivNonNegative(x: nat, d: nat)
    requires d > 0
    ensures x / d >= 0
  {
  }

  /** At most 1000 * limit Hz means at most limit kHz in the driver's kHz figure. */
  lemma {:induction false} KhzWithinLimit(base: nat, m: nat, limit: nat)
    requires m >= 1 && base / m <= 1000 * limit
    ensures base / (1000 * m) <= limit
  {
    var k := 1000 * m;
    assert k >= 1000;
    var q, r := base / k, base / m;
    DivNonNegative(base, k);
    var a, b := 1000 * q, 1000 * limit + 1;
    assert k * q <= base;
    assert k * q == m * a;
    assert base == m * r + base % m && base % m < m;
    assert m * (r + 1) == m * r + m;
    MulLeq(m, r + 1, b);
    assert m * a < m * b;
    MulCancel(m, a, b);
    assert 1000 * q < 1000 * (limit + 1);
    MulCancel(1000, q, limit + 1);
  }

  /** BLK_ATT as set_block_size_and_count writes it: count capped at 65535, size at 4096. */
  function BlockAttributes(count: u32, size: u32): (b: BlkAtt)
    ensures b.blkcnt <= count && (b.blkcnt == count || b.blkcnt == 65535)
    ensures b.blksize <= size && b.blksize <= 4096 && (b.blksize == size || b.blksize == 4096)
  {
    BlkAtt(if count < 65535 then count else 65535, if size < 4096 then size else 4096)
  }

  // ---------------------------------------------------------------------------
  // The controller

  class USdhc {
    var regs: Registers
    var mode: CardMode
    var sdClkKhz: u32
    var pinsEnabled: bool
    /**
     * The transfer-type word of the APP_CMD prefix (CMD55 with RCA 0). How the
     * command interface builds it is not part of this model; all that is known
     * is that its command-index field holds APP_CMD's index.
     */
    const appCmdXfer: u32
    ghost var trace: seq<Event>

    ghost predicate Valid()
      reads this
    {
      && WellOrdered(trace)
      && TransferIndex(appCmdXfer) == Index(Ac(AppCmd))
    }

    /** Takes over the register block and enables the bus pins; the mode is not known yet. */
    constructor (registers: Registers, appCmdXfer: u32)
      requires TransferIndex(appCmdXfer) == Index(Ac(AppCmd))
      ensures Valid()
      ensures regs == registers && this.appCmdXfer == appCmdXfer
      ensures mode == Unknown && sdClkKhz == 0 && pinsEnabled
      ensures trace == [PinsEnabled]
    {
      regs := registers;
      this.appCmdXfer := appCmdXfer;
      mode := Unknown;
      sdClkKhz := 0;
      pinsEnabled := true;
      trace := [PinsEnabled];
    }

    /** The APP_CMD prefix: CMD55 with relative card address 0, itself not prefixed. */
    function AppCmdRequest(): (r: Request)
      reads this
      requires Valid()
      ensures r.arg == 0 && !r.reqAppCmd && r.xfer == appCmdXfer
      ensures TransferIndex(r.xfer) == 55
    {
      Request(RcaArgument(0), appCmdXfer, false)
    }

    // --- queries -------------------------------------------------------------

    /** The card-detect level: DATA3 in the DATA line levels. */
    function IsCardInserted(): (inserted: bool)
      reads this
      ensures inserted <==> (regs.presState.dlsl >> 3) & 1 == 1
    {
      regs.presState.dlsl & 0x08 != 0
    }

    /** The command-inhibit flag. */
    function IsCardBusy(): (busy: bool)
      reads this
      ensures busy <==> regs.presState.cihb != 0
    {
      regs.presState.cihb == 1
    }

    /** True when the five command flags all read 0. */
    function IsCommandComplete(): (r: bool)
      reads this
      ensures r <==> StatusClear(regs.intStatus)
      ensures r ==> !Succeeded(regs.intStatus)
    {
      var s := regs.intStatus;
      s.cc + s.cie + s.cebe + s.cce + s.ctoe == 0
    }

    /** The first response word of the last command. */
    method ReadResponseU32() returns (r: u32)
      ensures r == regs.cmdRsp0
    {
      r := regs.cmdRsp0;
    }

    /** Whether the programmed clock is the search's choice for `base` and `maxSdClk`. */
    ghost predicate ClockProgrammed(base: nat, maxSdClk: nat)
      reads this
    {
      ClockSetting(base, maxSdClk, regs.sysCtrl.sdclkfs, regs.sysCtrl.dvs, sdClkKhz)
    }

    // --- waits (environment steps) -------------------------------------------

    /** Spins until the command-inhibit flag is clear. */
    method WaitForCard()
      requires Valid()
      modifies this
      ensures Valid() && !IsCardBusy()
      ensures regs == old(regs).(presState := old(regs).presState.(cihb := 0))
      ensures trace == old(trace) + [CmdInhibitClear]
      ensures mode == old(mode) && sdClkKhz == old(sdClkKhz) && pinsEnabled == old(pinsEnabled)
    {
      regs := regs.(presState := regs.presState.(cihb := 0));
      WellOrderedAppend(trace, [CmdInhibitClear]);
      trace := trace + [CmdInhibitClear];
    }

    /**
     * Spins until IsCommandComplete(), i.e. until the five command flags read 0.
     * The loop ends at once when they already do, which is the only way it can
     * end unless something else clears them; that is required here.
     */
    method WaitForCommandComplete()
      requires Valid() && IsCommandComplete()
      modifies this
      ensures Valid() && regs == old(regs)
      ensures trace == old(trace) + [CommandCompletePolled]
      ensures mode == old(mode) && sdClkKhz == old(sdClkKhz) && pinsEnabled == old(pinsEnabled)
    {
      WellOrderedAppend(trace, [CommandCompletePolled]);
      trace := trace + [CommandCompletePolled];
    }

    /** Spins until the SD clock is stable. */
    method AwaitClockStable()
      requires Valid()
      modifies this
      ensures Valid()
      ensures regs == old(regs).(presState := old(regs).presState.(sdstb := 1))
      ensures trace == old(trace) + [ClockStable]
      ensures mode == old(mode) && sdClkKhz == old(sdClkKhz) && pinsEnabled == old(pinsEnabled)
    {
      regs := regs.(presState := regs.presState.(sdstb := 1));
      WellOrderedAppend(trace, [ClockStable]);
      trace := trace + [ClockStable];
    }

    // --- commands --------------------------------------------------------------

    /**
     * Sends one command, first sending the APP_CMD prefix (whose outcome is
     * ignored) when the command needs it. Reports success when the answer has
     * command complete set and no command error flag; all flags the controller
     * shows at that point are then cleared.
     */
    method SendCommand(cmd: Request, prefixReply: Reply, reply: Reply) returns (ok: bool)
      requires Valid() && IsCommandComplete()
      modifies this
      ensures Valid() && IsCommandComplete()
      ensures ok == Succeeded(reply.status)
      ensures NoFlagSet(regs.intStatus) && regs.presState == old(regs).presState.(cihb := 0)
      ensures regs.cmdArg == cmd.arg && regs.cmdXfrTyp == cmd.xfer && regs.cmdRsp0 == reply.rsp0
      ensures regs.sysCtrl == old(regs).sysCtrl && regs.frcSdclkOn == old(regs).frcSdclkOn
      ensures regs.blkAtt == old(regs).blkAtt
      ensures trace == old(trace)
                       + (if cmd.reqAppCmd then IssueEvents(AppCmdRequest(), prefixReply) else [])
                       + IssueEvents(cmd, reply)
      ensures mode == old(mode) && sdClkKhz == old(sdClkKhz) && pinsEnabled == old(pinsEnabled)
    {
      if cmd.reqAppCmd {
        var prefixOk := Issue(AppCmdRequest(), prefixReply);
      }
      ok := Issue(cmd, reply);
    }

    /** One command without prefix: wait, write, wait, read and clear the flags. */
    method Issue(cmd: Request, reply: Reply) returns (ok: bool)
      requires Valid() && IsCommandComplete()
      modifies this
      ensures Valid() && IsCommandComplete()
      ensures ok == Succeeded(reply.status)
      ensures NoFlagSet(regs.intStatus) && regs.presState == old(regs).presState.(cihb := 0)
      ensures regs.cmdArg == cmd.arg && regs.cmdXfrTyp == cmd.xfer && regs.cmdRsp0 == reply.rsp0
      ensures regs.sysCtrl == old(regs).sysCtrl && regs.frcSdclkOn == old(regs).frcSdclkOn
      ensures regs.blkAtt == old(regs).blkAtt
      ensures trace == old(trace) + IssueEvents(cmd, reply)
      ensures mode == old(mode) && sdClkKhz == old(sdClkKhz) && pinsEnabled == old(pinsEnabled)
    {
      ghost var start := trace;

      WaitForCard();
      regs := regs.(cmdArg := cmd.arg);
      regs := regs.(cmdXfrTyp := cmd.xfer);
      WriteCommandWellOrdered(trace, cmd.arg, cmd.xfer);
      trace := trace + [ArgumentWritten(cmd.arg), TransferTypeWritten(cmd.xfer)];

      WaitForCommandComplete();
      // The card answers; the controller latches its flags and response.
      regs := regs.(intStatus := reply.status, cmdRsp0 := reply.rsp0);
      WaitForCard();

      var observed := regs.intStatus;
      var written := ModifiedStatusWord(regs.intStatus, observed);
      regs := regs.(intStatus := WriteOneToClear(regs.intStatus, written));
      trace := trace + [StatusWrittenBack(written)];
      WriteBackClearsAllFlags(observed);
      ok := observed.cc == 1 && observed.cie + observed.cebe + observed.cce + observed.ctoe == 0;

      assert trace == start + IssueEvents(cmd, reply);
      IssueEventsWellOrdered(cmd, reply);
      WellOrderedAppend(start, IssueEvents(cmd, reply));
    }

    /** Sends the initialization clocks: sets INITA and spins until the controller clears it. */
    method InitCard()
      requires Valid()
      modifies this
      ensures Valid()
      ensures regs == old(regs).(sysCtrl := old(regs).sysCtrl.(inita := 0))
      ensures trace == old(trace) + [InitStrobeSet, InitStrobeCompleted]
      ensures mode == old(mode) && sdClkKhz == old(sdClkKhz) && pinsEnabled == old(pinsEnabled)
    {
      regs := regs.(sysCtrl := regs.sysCtrl.(inita := 1));
      regs := regs.(sysCtrl := regs.sysCtrl.(inita := 0));
      WellOrderedAppend(trace, [InitStrobeSet, InitStrobeCompleted]);
      trace := trace + [InitStrobeSet, InitStrobeCompleted];
    }

    /** Sets RSTA with SDCLKFS = 0x80 and spins until RSTA clears. */
    method ResetAndWait()
      requires Valid()
      modifies this
      ensures Valid()
      ensures regs == old(regs).(sysCtrl := old(regs).sysCtrl.(rsta := 0, sdclkfs := 0x80))
      ensures trace == old(trace) + [ResetAsserted, ResetCompleted]
      ensures mode == old(mode) && sdClkKhz == old(sdClkKhz) && pinsEnabled == old(pinsEnabled)
    {
      regs := regs.(sysCtrl := regs.sysCtrl.(rsta := 1, sdclkfs := 0x80));
      regs := regs.(sysCtrl := regs.sysCtrl.(rsta := 0));
      WellOrderedAppend(trace, [ResetAsserted, ResetCompleted]);
      trace := trace + [ResetAsserted, ResetCompleted];
    }

    /**
     * Programs the SD clock for at most `maxSdClk` Hz: searches the dividers,
     * records the resulting rate in kHz, and writes SDCLKFS, DVS and DTOCV
     * between two clock-stable waits with the forced clock switched off.
     */
    method SetSdClk(maxSdClk: u32, ccm: ClockTree)
      requires Valid() && BaseClock(ccm).Ok?
      modifies this
      ensures Valid()
      ensures ClockProgrammed(BaseClock(ccm).value, maxSdClk)
      ensures regs.sysCtrl == old(regs).sysCtrl.(dtocv := DTOCV_14, dvs := regs.sysCtrl.dvs,
                                                  sdclkfs := regs.sysCtrl.sdclkfs)
      ensures regs.presState == old(regs).presState.(sdstb := 1) && regs.frcSdclkOn == 1
      ensures regs.intStatus == old(regs).intStatus && regs.blkAtt == old(regs).blkAtt
      ensures regs.cmdArg == old(regs).cmdArg && regs.cmdXfrTyp == old(regs).cmdXfrTyp
      ensures regs.cmdRsp0 == old(regs).cmdRsp0
      ensures trace == old(trace) + ClockEvents(regs.sysCtrl)
      ensures mode == old(mode) && pinsEnabled == old(pinsEnabled)
    {
      var khz, fsField, dvsField := ClockDividers(BaseClock(ccm).value, maxSdClk);
      sdClkKhz := khz;

      ghost var start := trace;
      AwaitClockStable();
      regs := regs.(frcSdclkOn := 0);
      regs := regs.(sysCtrl := regs.sysCtrl.(dtocv := DTOCV_14, dvs := dvsField, sdclkfs := fsField));
      WellOrderedAppend(trace, [ClockForcedOn(0), DividersWritten(dvsField, fsField)]);
      trace := trace + [ClockForcedOn(0), DividersWritten(dvsField, fsField)];
      AwaitClockStable();
      regs := regs.(frcSdclkOn := 1);
      WellOrderedAppend(trace, [ClockForcedOn(1)]);
      trace := trace + [ClockForcedOn(1)];
      assert trace == start + ClockEvents(regs.sysCtrl);
    }

    /**
     * Puts the controller in identification mode unless it already is: pins
     * off, full reset, clock at most 400 kHz, pins on.
     */
    method SetInitMode(ccm: ClockTree)
      requires Valid()
      requires mode != Identification ==> BaseClock(ccm).Ok?
      modifies this
      ensures Valid() && mode == Identification
      ensures old(mode) == Identification ==>
                regs == old(regs) && sdClkKhz == old(sdClkKhz) && pinsEnabled == old(pinsEnabled)
                && trace == old(trace)
      ensures old(mode) != Identification ==>
                && pinsEnabled
                && ClockProgrammed(BaseClock(ccm).value, SD_MAX_INIT_RATE_HZ)
                && !TooFast(BaseClock(ccm).value, SD_MAX_INIT_RATE_HZ,
                            PrescalerOf(regs.sysCtrl.sdclkfs), DivisorOf(regs.sysCtrl.dvs))
                && sdClkKhz <= 400
                && regs.sysCtrl == old(regs).sysCtrl.(rsta := 0, dtocv := DTOCV_14, dvs := regs.sysCtrl.dvs,
                                                      sdclkfs := regs.sysCtrl.sdclkfs)
                && regs.presState == old(regs).presState.(sdstb := 1) && regs.frcSdclkOn == 1
                && regs.intStatus == old(regs).intStatus && regs.blkAtt == old(regs).blkAtt
                && regs.cmdArg == old(regs).cmdArg && regs.cmdXfrTyp == old(regs).cmdXfrTyp
                && regs.cmdRsp0 == old(regs).cmdRsp0
                && trace == old(trace) + [PinsDisabled, ResetAsserted, ResetCompleted]
                            + ClockEvents(regs.sysCtrl) + [PinsEnabled]
    {
      if mode != Identification {
        ghost var start := trace;
        pinsEnabled := false;
        WellOrderedAppend(trace, [PinsDisabled]);
        trace := trace + [PinsDisabled];

        ResetAndWait();
        SetSdClk(SD_MAX_INIT_RATE_HZ, ccm);
        InitClockWithinLimit(ccm, regs.sysCtrl.sdclkfs, regs.sysCtrl.dvs, sdClkKhz);

        pinsEnabled := true;
        WellOrderedAppend(trace, [PinsEnabled]);
        trace := trace + [PinsEnabled];
        mode := Identification;
        assert trace == start + [PinsDisabled, ResetAsserted, ResetCompleted]
                        + ClockEvents(regs.sysCtrl) + [PinsEnabled];
      }
    }

    /** Programs BLK_ATT for the next command, capping count and size. */
    method SetBlockSizeAndCount(count: u32, size: u32)
      requires Valid()
      modifies this
      ensures Valid()
      ensures regs == old(regs).(blkAtt := BlockAttributes(count, size))
      ensures trace == old(trace) + [BlockAttributesWritten(BlockAttributes(count, size))]
      ensures mode == old(mode) && sdClkKhz == old(sdClkKhz) && pinsEnabled == old(pinsEnabled)
    {
      regs := regs.(blkAtt := BlockAttributes(count, size));
      WellOrderedAppend(trace, [BlockAttributesWritten(regs.blkAtt)]);
      trace := trace + [BlockAttributesWritten(regs.blkAtt)];
    }
  }
}
