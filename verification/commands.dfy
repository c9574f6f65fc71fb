/**
 * The SD/MMC command set as the driver tabulates it: five tables (broadcast,
 * broadcast with response, addressed, addressed data transfer, application
 * commands), each entry with its table value (the command index), the response
 * type and the argument layout its documentation gives.
 *
 * Table values are kept exactly as written, including GoIdleState = 1 although
 * it is documented as CMD0.
 */
module UsdhcCommands {
  import opened Machine

  /** Broadcast commands (bc): no response. */
  datatype BcCommand = GoIdleState | SetDsr | IoSendOpCond

  /** Broadcast commands with response (bcr): all cards answer at once. */
  datatype BcrCommand = SendOpCond | AllSendCid | IoSendOpCond

  /** Addressed (point-to-point) commands (ac), no data on the DATA lines. */
  datatype AcCommand =
    | SetSendRelativeAddr | Switch | SelectDeselectCard | SendCsd | SendCid
    | StopTransmission | SendStatus | GoInactiveState | SetBlocklen
    | SetWriteProt | ClrWriteProt | TagSectorStart | TagSectorEnd | UntagSector
    | TagEraseGroupStart | TagEraseGroupEnd | UntagEraseGroup | Erase | FastIo
    | IoRwDirect | IoRwExtended | AppCmd

  /** Addressed data transfer commands (adtc). */
  datatype AdtcCommand =
    | SwitchFunc | SendExtCsd | ReadDatUntilStop | ReadSingleBlock
    | ReadMultipleBlock | SendTuningBlock64 | WriteDatUntilStop
    | SendTuningBlock128 | WriteBlock | WriteMultipleBlock | ProgramCid
    | ProgramCsd | SendWriteProt | LockUnlock | GenCmd | RwMultipleRegister
    | RwMultipleBlock

  /** Application commands (ACMDs): meaningful only right after APP_CMD. */
  datatype ACmd =
    | SetBusWidth | SdStatus | SendNumWrSectors | SetWrBlkEraseCount
    | SdAppOpCond | SetClrCardDetect | SendScr

  /** A command is an entry of one of the five tables. */
  datatype Command =
    | Bc(bc: BcCommand)
    | Bcr(bcr: BcrCommand)
    | Ac(ac: AcCommand)
    | Adtc(adtc: AdtcCommand)
    | App(acmd: ACmd)

  /** The table a command belongs to. */
  datatype Category = BcTable | BcrTable | AcTable | AdtcTable | ACmdTable

  /** How a command travels on the bus (for ACMDs, the documented "Type"). */
  datatype CommandType = BroadcastNoResponse | BroadcastWithResponse | Addressed | AddressedDataTransfer

  /** Response formats named in the tables' documentation. */
  datatype ResponseKind = NoResponse | R1 | R1b | R2 | R3 | R4 | R5 | R6

  /** What a range of argument bits carries, as documented. */
  datatype ArgKind =
    | StuffBits | ReservedZero | RelativeCardAddress | DriverStage | Ocr | OcrWithoutBusy
    | DataAddress | WriteProtectDataAddress | Access | RegisterIndex | RegisterValue | CmdSet
    | SwitchMode | ReservedFunctionGroups | FunctionGroup1 | FunctionGroup2
    | RegisterWriteFlag | RegisterAddress | RegisterData | ReadWrite | WriteFlag
    | Address | ByteCount | DataUnitCount | BusWidth | NumberOfBlocks | SetCardDetect

  /** Argument bits hi..lo (inclusive) carry `kind`. */
  datatype ArgField = ArgField(hi: nat, lo: nat, kind: ArgKind)

  // ---------------------------------------------------------------------------
  // Table values

  function BcIndex(c: BcCommand): nat {
    match c
    case GoIdleState => 1
    case SetDsr => 4
    case IoSendOpCond => 5
  }

  function BcrIndex(c: BcrCommand): nat {
    match c
    case SendOpCond => 1
    case AllSendCid => 2
    case IoSendOpCond => 40
  }

  function AcIndex(c: AcCommand): nat {
    match c
    case SetSendRelativeAddr => 3
    case Switch => 6
    case SelectDeselectCard => 7
    case SendCsd => 9
    case SendCid => 10
    case StopTransmission => 12
    case SendStatus => 13
    case GoInactiveState => 15
    case SetBlocklen => 16
    case SetWriteProt => 28
    case ClrWriteProt => 29
    case TagSectorStart => 32
    case TagSectorEnd => 33
    case UntagSector => 34
    case TagEraseGroupStart => 35
    case TagEraseGroupEnd => 36
    case UntagEraseGroup => 37
    case Erase => 38
    case FastIo => 39
    case IoRwDirect => 52
    case IoRwExtended => 53
    case AppCmd => 55
  }

  function AdtcIndex(c: AdtcCommand): nat {
    match c
    case SwitchFunc => 6
    case SendExtCsd => 8
    case ReadDatUntilStop => 11
    case ReadSingleBlock => 17
    case ReadMultipleBlock => 18
    case SendTuningBlock64 => 19
    case WriteDatUntilStop => 20
    case SendTuningBlock128 => 21
    case WriteBlock => 24
    case WriteMultipleBlock => 25
    case ProgramCid => 26
    case ProgramCsd => 27
    case SendWriteProt => 30
    case LockUnlock => 42
    case GenCmd => 56
    case RwMultipleRegister => 60
    case RwMultipleBlock => 61
  }

  function ACmdIndex(c: ACmd): nat {
    match c
    case SetBusWidth => 6
    case SdStatus => 13
    case SendNumWrSectors => 22
    case SetWrBlkEraseCount => 23
    case SdAppOpCond => 41
    case SetClrCardDetect => 42
    case SendScr => 51
  }

  /** The command index a command carries: its table value. */
  function Index(c: Command): (i: nat)
    ensures i <= 61
  {
    match c
    case Bc(b) => BcIndex(b)
    case Bcr(b) => BcrIndex(b)
    case Ac(a) => AcIndex(a)
    case Adtc(a) => AdtcIndex(a)
    case App(a) => ACmdIndex(a)
  }

  function CategoryOf(c: Command): Category {
    match c
    case Bc(_) => BcTable
    case Bcr(_) => BcrTable
    case Ac(_) => AcTable
    case Adtc(_) => AdtcTable
    case App(_) => ACmdTable
  }

  // ---------------------------------------------------------------------------
  // Reverse lookup: from a table and an index back to the command

  function BcFromIndex(i: nat): Option<BcCommand> {
    match i
    case 1 => Some(GoIdleState)
    case 4 => Some(SetDsr)
    case 5 => Some(BcCommand.IoSendOpCond)
    case _ => None
  }

  function BcrFromIndex(i: nat): Option<BcrCommand> {
    match i
    case 1 => Some(SendOpCond)
    case 2 => Some(AllSendCid)
    case 40 => Some(BcrCommand.IoSendOpCond)
    case _ => None
  }

  function AcFromIndex(i: nat): Option<AcCommand> {
    match i
    case 3 => Some(SetSendRelativeAddr)
    case 6 => Some(Switch)
    case 7 => Some(SelectDeselectCard)
    case 9 => Some(SendCsd)
    case 10 => Some(SendCid)
    case 12 => Some(StopTransmission)
    case 13 => Some(SendStatus)
    case 15 => Some(GoInactiveState)
    case 16 => Some(SetBlocklen)
    case 28 => Some(SetWriteProt)
    case 29 => Some(ClrWriteProt)
    case 32 => Some(TagSectorStart)
    case 33 => Some(TagSectorEnd)
    case 34 => Some(UntagSector)
    case 35 => Some(TagEraseGroupStart)
    case 36 => Some(TagEraseGroupEnd)
    case 37 => Some(UntagEraseGroup)
    case 38 => Some(Erase)
    case 39 => Some(FastIo)
    case 52 => Some(IoRwDirect)
    case 53 => Some(IoRwExtended)
    case 55 => Some(AppCmd)
    case _ => None
  }

  function AdtcFromIndex(i: nat): Option<AdtcCommand> {
    match i
    case 6 => Some(SwitchFunc)
    case 8 => Some(SendExtCsd)
    case 11 => Some(ReadDatUntilStop)
    case 17 => Some(ReadSingleBlock)
    case 18 => Some(ReadMultipleBlock)
    case 19 => Some(SendTuningBlock64)
    case 20 => Some(WriteDatUntilStop)
    case 21 => Some(SendTuningBlock128)
    case 24 => Some(WriteBlock)
    case 25 => Some(WriteMultipleBlock)
    case 26 => Some(ProgramCid)
    case 27 => Some(ProgramCsd)
    case 30 => Some(SendWriteProt)
    case 42 => Some(LockUnlock)
    case 56 => Some(GenCmd)
    case 60 => Some(RwMultipleRegister)
    case 61 => Some(RwMultipleBlock)
    case _ => None
  }

  function ACmdFromIndex(i: nat): Option<ACmd> {
    match i
    case 6 => Some(SetBusWidth)
    case 13 => Some(SdStatus)
    case 22 => Some(SendNumWrSectors)
    case 23 => Some(SetWrBlkEraseCount)
    case 41 => Some(SdAppOpCond)
    case 42 => Some(SetClrCardDetect)
    case 51 => Some(SendScr)
    case _ => None
  }

  /** The command a table holds under a given index, if any. */
  function Lookup(cat: Category, i: nat): Option<Command> {
    match cat
    case BcTable => (match BcFromIndex(i) case Some(b) => Some(Bc(b)) case None => None)
    case BcrTable => (match BcrFromIndex(i) case Some(b) => Some(Bcr(b)) case None => None)
    case AcTable => (match AcFromIndex(i) case Some(a) => Some(Ac(a)) case None => None)
    case AdtcTable => (match AdtcFromIndex(i) case Some(a) => Some(Adtc(a)) case None => None)
    case ACmdTable => (match ACmdFromIndex(i) case Some(a) => Some(App(a)) case None => None)
  }

  /** Table and index together identify a command: looking it up gives it back. */
  lemma {:induction false} LookupIndex(c: Command)
    ensures Lookup(CategoryOf(c), Index(c)) == Some(c)
  {
    match c
    case Bc(b) =>
      assert BcFromIndex(BcIndex(b)) == Some(b) by { match b case _ => }
    case Bcr(b) =>
      assert BcrFromIndex(BcrIndex(b)) == Some(b) by { match b case _ => }
    case Ac(a) =>
      assert AcFromIndex(AcIndex(a)) == Some(a) by { match a case _ => }
    case Adtc(a) =>
      assert AdtcFromIndex(AdtcIndex(a)) == Some(a) by { match a case _ => }
    case App(a) =>
      assert ACmdFromIndex(ACmdIndex(a)) == Some(a) by { match a case _ => }
  }

  /** Lookup finds only commands of the requested table carrying the requested index. */
  lemma {:induction false} LookupSound(cat: Category, i: nat, c: Command)
    requires Lookup(cat, i) == Some(c)
    ensures CategoryOf(c) == cat && Index(c) == i
  {
  }

  /** Within one table the index is injective. */
  lemma {:induction false} IndexInjectiveWithinTable(c1: Command, c2: Command)
    requires CategoryOf(c1) == CategoryOf(c2) && Index(c1) == Index(c2)
    ensures c1 == c2
  {
    LookupIndex(c1);
    LookupIndex(c2);
  }

  // ---------------------------------------------------------------------------
  // Documented response types and bus types

  /** The response types a command's documentation names (empty when it names none). */
  function Response(c: Command): (r: set<ResponseKind>)
    ensures NoResponse in r <==> c.Bc?
    ensures |r| <= 2
  {
    match c
    case Bc(_) => {NoResponse}
    case Bcr(b) =>
      (match b
       case SendOpCond => {R3}
       case AllSendCid => {R2}
       case IoSendOpCond => {R5})
    case Ac(a) =>
      (match a
       case SetSendRelativeAddr => {R1, R6}
       case Switch => {R1b}
       case SelectDeselectCard => {R1b}
       case SendCsd => {R2}
       case SendCid => {R2}
       case StopTransmission => {R1b}
       case SendStatus => {R1b}
       case GoInactiveState => {}
       case SetBlocklen => {R1}
       case SetWriteProt => {R1b}
       case ClrWriteProt => {R1b}
       case TagSectorStart => {R1}
       case TagSectorEnd => {R1}
       case UntagSector => {R1}
       case TagEraseGroupStart => {R1}
       case TagEraseGroupEnd => {R1}
       case UntagEraseGroup => {R1}
       case Erase => {R1b}
       case FastIo => {R4}
       case IoRwDirect => {R5}
       case IoRwExtended => {R5}
       case AppCmd => {R1})
    case Adtc(a) =>
      (match a
       case LockUnlock => {R1b}
       case GenCmd => {R1b}
       case RwMultipleRegister => {R1b}
       case RwMultipleBlock => {R1b}
       case _ => {R1})
    case App(a) =>
      (match a
       case SdAppOpCond => {R3}
       case _ => {R1})
  }

  /** How a command travels on the bus: its table's kind, or the documented type of an ACMD. */
  function TypeOf(c: Command): (t: CommandType)
    ensures t == BroadcastNoResponse <==> Response(c) == {NoResponse}
  {
    match c
    case Bc(_) => BroadcastNoResponse
    case Bcr(_) => BroadcastWithResponse
    case Ac(_) => Addressed
    case Adtc(_) => AddressedDataTransfer
    case App(a) =>
      (match a
       case SetBusWidth => Addressed
       case SdStatus => AddressedDataTransfer
       case SendNumWrSectors => AddressedDataTransfer
       case SetWrBlkEraseCount => Addressed
       case SdAppOpCond => BroadcastWithResponse
       case SetClrCardDetect => Addressed
       case SendScr => AddressedDataTransfer)
  }

  /** The ACMD table's rule: its commands must be preceded by APP_CMD. */
  predicate NeedsAppCmdPrefix(c: Command) {
    c.App?
  }

  // ---------------------------------------------------------------------------
  // Documented argument layouts

  /** `fields`, from the most significant down, cover bits top..0 exactly once. */
  predicate Tiles(fields: seq<ArgField>, top: int)
    decreases |fields|
  {
    if fields == [] then top == -1
    else fields[0].lo <= fields[0].hi == top && Tiles(fields[1..], fields[0].lo - 1)
  }

  /** A single field spanning the whole argument. */
  function Whole(k: ArgKind): (l: seq<ArgField>)
    ensures Tiles(l, 31)
  {
    [ArgField(31, 0, k)]
  }

  /** "[31:16] RCA, [15:0] stuff bits" */
  function RcaLayout(): (l: seq<ArgField>)
    ensures Tiles(l, 31)
  {
    [ArgField(31, 16, RelativeCardAddress), ArgField(15, 0, StuffBits)]
  }

  /** The documented argument layout of a command; it always covers the whole 32-bit argument. */
  function Layout(c: Command): (l: seq<ArgField>)
    ensures Tiles(l, 31)
  {
    match c
    case Bc(b) =>
      (match b
       case GoIdleState => Whole(StuffBits)
       case SetDsr => [ArgField(31, 16, DriverStage), ArgField(15, 0, StuffBits)]
       case IoSendOpCond => Whole(OcrWithoutBusy))
    case Bcr(b) =>
      (match b
       case SendOpCond => Whole(OcrWithoutBusy)
       case AllSendCid => Whole(StuffBits)
       case IoSendOpCond => Whole(StuffBits))
    case Ac(a) =>
      (match a
       case SetSendRelativeAddr => RcaLayout()
       case Switch =>
         [ArgField(31, 26, ReservedZero), ArgField(25, 24, Access), ArgField(23, 16, RegisterIndex),
          ArgField(15, 8, RegisterValue), ArgField(7, 3, ReservedZero), ArgField(2, 0, CmdSet)]
       case SelectDeselectCard => RcaLayout()
       case SendCsd => RcaLayout()
       case SendCid => RcaLayout()
       case StopTransmission => Whole(StuffBits)
       case SendStatus => RcaLayout()
       case GoInactiveState => RcaLayout()
       case SetBlocklen => RcaLayout()
       case SetWriteProt => Whole(DataAddress)
       case ClrWriteProt => Whole(DataAddress)
       case TagSectorStart => Whole(DataAddress)
       case TagSectorEnd => Whole(DataAddress)
       case UntagSector => Whole(DataAddress)
       case TagEraseGroupStart => Whole(DataAddress)
       case TagEraseGroupEnd => Whole(DataAddress)
       case UntagEraseGroup => Whole(DataAddress)
       case Erase => Whole(StuffBits)
       case FastIo =>
         [ArgField(31, 16, RelativeCardAddress), ArgField(15, 15, RegisterWriteFlag),
          ArgField(14, 8, RegisterAddress), ArgField(7, 0, RegisterData)]
       case IoRwDirect => Whole(StuffBits)
       case IoRwExtended => Whole(StuffBits)
       case AppCmd => RcaLayout())
    case Adtc(a) =>
      (match a
       case SwitchFunc =>
         [ArgField(31, 31, SwitchMode), ArgField(30, 8, ReservedFunctionGroups),
          ArgField(7, 4, FunctionGroup1), ArgField(3, 0, FunctionGroup2)]
       case SendExtCsd => Whole(StuffBits)
       case ReadDatUntilStop => Whole(DataAddress)
       case ReadSingleBlock => Whole(DataAddress)
       case ReadMultipleBlock => Whole(DataAddress)
       case SendTuningBlock64 => Whole(ReservedZero)
       case WriteDatUntilStop => Whole(DataAddress)
       case SendTuningBlock128 => Whole(StuffBits)
       case WriteBlock => Whole(DataAddress)
       case WriteMultipleBlock => Whole(DataAddress)
       case ProgramCid => Whole(StuffBits)
       case ProgramCsd => Whole(StuffBits)
       case SendWriteProt => Whole(WriteProtectDataAddress)
       case LockUnlock => Whole(StuffBits)
       case GenCmd => [ArgField(31, 1, StuffBits), ArgField(0, 0, ReadWrite)]
       case RwMultipleRegister =>
         [ArgField(31, 31, WriteFlag), ArgField(30, 24, StuffBits), ArgField(23, 16, Address),
          ArgField(15, 8, StuffBits), ArgField(7, 0, ByteCount)]
       case RwMultipleBlock =>
         [ArgField(31, 31, WriteFlag), ArgField(30, 16, StuffBits), ArgField(15, 0, DataUnitCount)])
    case App(a) =>
      (match a
       case SetBusWidth => [ArgField(31, 2, StuffBits), ArgField(1, 0, BusWidth)]
       case SdStatus => Whole(StuffBits)
       case SendNumWrSectors => Whole(StuffBits)
       case SetWrBlkEraseCount => [ArgField(31, 23, StuffBits), ArgField(22, 0, NumberOfBlocks)]
       case SdAppOpCond => Whole(Ocr)
       case SetClrCardDetect => [ArgField(31, 1, StuffBits), ArgField(0, 0, SetCardDetect)]
       case SendScr => Whole(StuffBits))
  }

  function Pow2(n: nat): (p: nat)
    ensures p >= 1
  {
    if n == 0 then 1 else 2 * Pow2(n - 1)
  }

  /** The value an argument word carries in bits hi..lo. */
  function FieldValue(arg: u32, f: ArgField): nat
    requires f.lo <= f.hi
  {
    (arg / Pow2(f.lo)) % Pow2(f.hi - f.lo + 1)
  }

  /** An "[31:16] RCA, [15:0] stuff bits" argument: `rca << 16`, which cannot overflow. */
  function RcaArgument(rca: u16): (arg: u32)
    ensures arg / 0x1_0000 == rca && arg % 0x1_0000 == 0
  {
    rca * 0x1_0000
  }

  /** Read back through the documented layout, an RCA argument carries the RCA and zero stuff bits. */
  lemma {:induction false} RcaArgumentFields(c: Command, rca: u16)
    requires Layout(c) == RcaLayout()
    ensures FieldValue(RcaArgument(rca), Layout(c)[0]) == rca
    ensures FieldValue(RcaArgument(rca), Layout(c)[1]) == 0
  {
    assert Pow2(16) == 0x1_0000 by {
      assert Pow2(4) == 16;
      assert Pow2(8) == 256;
      assert Pow2(12) == 4096;
    }
  }

  // ---------------------------------------------------------------------------
  // The command-index field of the transfer-type word: (index & 0x3f) << 24

  function IndexField(i: nat): (w: u32)
    ensures w < 0x4000_0000 && w % 0x100_0000 == 0
  {
    (i % 64) * 0x100_0000
  }

  /** The command index a transfer-type word carries. */
  function TransferIndex(w: u32): (i: nat)
    ensures i < 64
  {
    (w / 0x100_0000) % 64
  }

  /** Every table value fits the six-bit index field unchanged. */
  lemma {:induction false} IndexFieldRoundTrip(c: Command)
    ensures TransferIndex(IndexField(Index(c))) == Index(c)
  {
    var i := Index(c);
    assert i % 64 == i;
    assert (i * 0x100_0000) / 0x100_0000 == i;
  }

  // ---------------------------------------------------------------------------
  // Entries the driver relies on

  /** APP_CMD is CMD55, answers R1 and carries the RCA in the upper half. */
  lemma AppCmdEntry()
    ensures Index(Ac(AppCmd)) == 55 && Response(Ac(AppCmd)) == {R1} && Layout(Ac(AppCmd)) == RcaLayout()
    ensures !NeedsAppCmdPrefix(Ac(AppCmd))
  {
  }

  /** SD_APP_OP_COND is ACMD41: prefixed by APP_CMD, answers R3, takes a full 32-bit OCR. */
  lemma SdAppOpCondEntry()
    ensures Index(App(SdAppOpCond)) == 41 && Response(App(SdAppOpCond)) == {R3}
    ensures NeedsAppCmdPrefix(App(SdAppOpCond)) && TypeOf(App(SdAppOpCond)) == BroadcastWithResponse
    ensures Layout(App(SdAppOpCond)) == [ArgField(31, 0, Ocr)]
  {
  }

  /** SEND_EXT_CSD is index 8 in the adtc table and answers R1. */
  lemma SendExtCsdEntry()
    ensures Index(Adtc(SendExtCsd)) == 8 && Response(Adtc(SendExtCsd)) == {R1}
  {
  }

  /**
   * GoIdleState keeps its table value 1, the same index as SEND_OP_COND; no
   * broadcast entry has index 0.
   */
  lemma GoIdleStateValue()
    ensures Index(Bc(GoIdleState)) == 1 == Index(Bcr(SendOpCond))
    ensures Lookup(BcTable, 0) == None
  {
  }

  /** An index alone does not identify a command. */
  lemma IndexAloneIsAmbiguous()
    ensures Index(Ac(Switch)) == Index(Adtc(SwitchFunc)) == 6
    ensures Response(Ac(Switch)) == {R1b} && Response(Adtc(SwitchFunc)) == {R1}
    ensures Index(Bc(BcCommand.IoSendOpCond)) == 5 && Index(Bcr(BcrCommand.IoSendOpCond)) == 40
  {
  }
}
