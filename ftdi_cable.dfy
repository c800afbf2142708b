/**
 * The descriptor-driven FTDI cable: the pin constants, the cable
 * descriptor and the table of known cables, and the pure rules the
 * platform applies to them. The rules are: how a signed reset
 * descriptor field is merged into the tracked output and direction
 * bytes, which MPSSE commands a descriptor produces, and which pin is
 * read back as the reset level and how it is interpreted.
 *
 * MPSSE opcodes follow section 3.6 of FTDI application note AN_108
 * ("Command Processor for MPSSE and MCU Host Bus Emulation Modes").
 */
module FtdiCable {
  import opened Basics

  const Pin0: byte := 0x01
  const Pin1: byte := 0x02
  const Pin2: byte := 0x04
  const Pin3: byte := 0x08
  const Pin4: byte := 0x10
  const Pin5: byte := 0x20
  const Pin6: byte := 0x40
  const Pin7: byte := 0x80

  const MpsseTck: byte := 1
  const MpsseTdi: byte := 2
  const MpsseTdo: byte := 4
  const MpsseTms: byte := 8

  /**
   * The MPSSE names of the same four low-byte lines (clock, data out, data
   * in, chip select), in the standard MPSSE low-byte order.
   */
  const MpsseSk: byte := 0x01
  const MpsseDo: byte := 0x02
  const MpsseDi: byte := 0x04
  const MpsseCs: byte := 0x08

  const SetBitsLow: byte := 0x80
  const GetBitsLow: byte := 0x81
  const SetBitsHigh: byte := 0x82
  const GetBitsHigh: byte := 0x83
  const SendImmediate: byte := 0x87

  const Ft2232Vid: int := 0x0403
  const Ft2232Pid: int := 0x6010

  /** The `k`-th pin: bit `k`. */
  function Pin(k: nat): byte
    requires k < 8
  {
    (1 as byte) << k
  }

  /** PIN0..PIN7 are the single bits 1 << 0 .. 1 << 7, hence pairwise distinct. */
  lemma PinsAreSingleBits()
    ensures Pin0 == Pin(0) && Pin1 == Pin(1) && Pin2 == Pin(2) && Pin3 == Pin(3)
    ensures Pin4 == Pin(4) && Pin5 == Pin(5) && Pin6 == Pin(6) && Pin7 == Pin(7)
    ensures forall k, m :: 0 <= k < 8 && 0 <= m < 8 && k != m ==> Pin(k) != Pin(m)
  {
  }

  /** The JTAG line names alias the first four pins. */
  lemma MpsseAliases()
    ensures MpsseTck == Pin0 && MpsseTdi == Pin1 && MpsseTdo == Pin2 && MpsseTms == Pin3
    ensures MpsseSk == MpsseTck && MpsseDo == MpsseTdi && MpsseDi == MpsseTdo && MpsseCs == MpsseTms
  {
  }

  /**
   * A signed `int` field of a reset descriptor, seen through the only two
   * things the code asks of it: its sign and its low byte (`x & 0xff`,
   * which is also its value converted to `uint8_t`). `Unset` is 0.
   */
  datatype Field = Unset | Pos(low: byte) | Neg(low: byte)

  /**
   * The C `int` initializer `x` denotes field `f`: the sign agrees (0 is
   * `Unset`) and the low byte is `x` modulo 256, as the two's-complement
   * conversion to `uint8_t` gives it.
   */
  predicate Denotes(x: int, f: Field)
  {
    (f == Unset <==> x == 0) && (f.Pos? <==> x > 0) && (f != Unset ==> f.low as int == x % 256)
  }

  /** C's `~p` of a pin constant promoted to `int`. */
  function Not(p: byte): int
  {
    -(p as int) - 1
  }

  /** The initializers the table uses denote the fields it is written with: `0`, `PIN6` and `~PIN6`. */
  lemma InitializersPin6()
    ensures Denotes(0, Unset)
    ensures Denotes(Pin6 as int, Pos(Pin6)) && Denotes(Not(Pin6), Neg(!Pin6))
  {
  }

  /** Likewise `PIN3` and `~PIN3`. */
  lemma InitializersPin3()
    ensures Denotes(Pin3 as int, Pos(Pin3)) && Denotes(Not(Pin3), Neg(!Pin3))
  {
  }

  /** Likewise `PIN1` and `~PIN1`. */
  lemma InitializersPin1()
    ensures Denotes(Pin1 as int, Pos(Pin1)) && Denotes(Not(Pin1), Neg(!Pin1))
  {
  }

  /**
   * A reset descriptor: the fields for the low (DBUS) and high (CBUS)
   * output and direction bytes. A positive field ORs its low byte in, a
   * negative one ANDs it, and 0 means "leave alone".
   */
  datatype DataDesc = DataDesc(dataLow: Field, ddrLow: Field, dataHigh: Field, ddrHigh: Field)

  const NoData := DataDesc(Unset, Unset, Unset, Unset)

  datatype Interface = InterfaceA | InterfaceB

  datatype CableDesc = CableDesc(
    vendor: int, product: int, interface: Interface,
    dbusData: byte, dbusDdr: byte, cbusData: byte, cbusDdr: byte,
    bitbangTmsInPortCmd: byte, bitbangTmsInPin: byte, bitbangSwdDbusReadData: byte,
    assertSrst: DataDesc, deassertSrst: DataDesc,
    srstGetPortCmd: byte, srstGetPin: byte,
    description: Option<string>, name: string)

  /** A descriptor with every field left out of its initializer, as C zero-fills them. */
  const Blank := CableDesc(0, 0, InterfaceA, 0, 0, 0, 0, 0, 0, 0, NoData, NoData, 0, 0, None, "")

  const Flossjtag := Blank.(vendor := 0x0403, product := 0x6010, interface := InterfaceA,
    dbusData := Pin6 | MpsseCs | MpsseDo | MpsseDi, dbusDdr := MpsseCs | MpsseDo | MpsseSk,
    bitbangTmsInPortCmd := GetBitsLow, bitbangTmsInPin := MpsseCs,
    assertSrst := DataDesc(Neg(!Pin6), Pos(Pin6), Unset, Unset),
    deassertSrst := DataDesc(Pos(Pin6), Neg(!Pin6), Unset, Unset),
    description := Some("FLOSS-JTAG"), name := "flossjtag")

  const Usbmate := Blank.(vendor := 0x0403, product := 0x6010, interface := InterfaceB,
    assertSrst := DataDesc(Neg(!Pin6), Pos(Pin6), Unset, Unset),
    deassertSrst := DataDesc(Pos(Pin6), Neg(!Pin6), Unset, Unset),
    description := Some("USBMATE"), name := "usbmate")

  const Ft232hResistorSwd := Blank.(vendor := 0x0403, product := 0x6014, interface := InterfaceA,
    dbusData := MpsseDo | MpsseDi | MpsseCs, dbusDdr := MpsseSk,
    name := "ft232h_resistor_swd")

  const Ftdijtag := Blank.(vendor := 0x0403, product := 0x6010, interface := InterfaceA,
    dbusData := Pin4 | MpsseCs | MpsseDi | MpsseDo, dbusDdr := MpsseCs | MpsseDo | MpsseSk,
    cbusData := Pin4 | Pin3 | Pin2, cbusDdr := Pin4 | Pin3 | Pin2 | Pin1 | Pin0,
    assertSrst := DataDesc(Unset, Unset, Neg(!Pin3), Unset),
    deassertSrst := DataDesc(Unset, Unset, Pos(Pin3), Unset),
    srstGetPortCmd := GetBitsLow, srstGetPin := !Pin6,
    description := Some("FTDIJTAG"), name := "ftdijtag")

  const Ftdiswd := Blank.(vendor := 0x0403, product := 0x6010, interface := InterfaceB,
    dbusData := Pin6 | Pin5 | MpsseCs | MpsseDo | MpsseDi,
    dbusDdr := Pin6 | Pin5 | MpsseCs | MpsseDo | MpsseSk,
    cbusData := Pin1 | Pin2,
    bitbangTmsInPortCmd := GetBitsLow, bitbangTmsInPin := MpsseDi,
    bitbangSwdDbusReadData := MpsseDo,
    assertSrst := DataDesc(Unset, Unset, Neg(!Pin1), Pos(Pin1)),
    deassertSrst := DataDesc(Unset, Unset, Pos(Pin1), Neg(!Pin1)),
    name := "ftdiswd")

  const Olimex := Blank.(vendor := 0x15b1, product := 0x0003, interface := InterfaceA,
    dbusData := 0x08, dbusDdr := 0x1B, name := "olimex")

  const Turtelizer := Blank.(vendor := 0x0403, product := 0xbdc8, interface := InterfaceA,
    dbusData := 0x08, dbusDdr := 0x1B,
    assertSrst := DataDesc(Pos(0x40), Unset, Unset, Unset),
    deassertSrst := DataDesc(Neg(!0x40), Unset, Unset, Unset),
    srstGetPortCmd := GetBitsHigh, srstGetPin := 0x01,
    name := "turtelizer")

  const Jtaghs1 := Blank.(vendor := 0x0403, product := 0xbdc8, interface := InterfaceA,
    dbusData := 0x08, dbusDdr := 0x1B, name := "jtaghs1")

  const Ftdi := Blank.(vendor := 0x0403, product := 0xbdc8, interface := InterfaceA,
    dbusData := 0xA8, dbusDdr := 0xAB,
    bitbangTmsInPortCmd := GetBitsLow, bitbangTmsInPin := MpsseCs,
    name := "ftdi")

  const Digilent := Blank.(vendor := 0x0403, product := 0x6014, interface := InterfaceA,
    dbusData := 0x88, dbusDdr := 0x8B, cbusData := 0x20, cbusDdr := 0x3f,
    name := "digilent")

  const Ft232h := Blank.(vendor := 0x0403, product := 0x6014, interface := InterfaceA,
    dbusData := 0x08, dbusDdr := 0x0B,
    bitbangTmsInPortCmd := GetBitsLow, bitbangTmsInPin := MpsseCs,
    name := "ft232h")

  const Ft4232h := Blank.(vendor := 0x0403, product := 0x6011, interface := InterfaceA,
    dbusData := 0x08, dbusDdr := 0x0B,
    bitbangTmsInPortCmd := GetBitsLow, bitbangTmsInPin := MpsseCs,
    name := "ft4232h")

  const ArmUsbOcdH := Blank.(vendor := 0x15ba, product := 0x002b, interface := InterfaceA,
    dbusData := 0x08, dbusDdr := 0x1B, cbusData := 0x00, cbusDdr := 0x08,
    name := "arm-usb-ocd-h")

  /** `cable_desc[]`, in source order. */
  const CableTable: seq<CableDesc> := [Flossjtag, Usbmate, Ft232hResistorSwd, Ftdijtag, Ftdiswd,
    Olimex, Turtelizer, Jtaghs1, Ftdi, Digilent, Ft232h, Ft4232h, ArmUsbOcdH]

  /** Table entry `c` has this name, USB vendor and product, interface and initial bus bytes. */
  predicate Entry(c: CableDesc, name: string, vendor: int, product: int, iface: Interface, bus: Bus)
  {
    c.name == name && c.vendor == vendor && c.product == product && c.interface == iface && BusOf(c) == bus
  }

  /**
   * The thirteen entries of `cable_desc[]` in source order, with each
   * entry's pin expressions worked out to the bus bytes they denote.
   */
  lemma CableTableEntries()
    ensures |CableTable| == 13
    ensures Entry(CableTable[0], "flossjtag", 0x0403, 0x6010, InterfaceA, Bus(0x4E, 0x0B, 0x00, 0x00))
    ensures Entry(CableTable[1], "usbmate", 0x0403, 0x6010, InterfaceB, Bus(0x00, 0x00, 0x00, 0x00))
    ensures Entry(CableTable[2], "ft232h_resistor_swd", 0x0403, 0x6014, InterfaceA, Bus(0x0E, 0x01, 0x00, 0x00))
    ensures Entry(CableTable[3], "ftdijtag", 0x0403, 0x6010, InterfaceA, Bus(0x1E, 0x0B, 0x1C, 0x1F))
    ensures Entry(CableTable[4], "ftdiswd", 0x0403, 0x6010, InterfaceB, Bus(0x6E, 0x6B, 0x06, 0x00))
    ensures Entry(CableTable[5], "olimex", 0x15b1, 0x0003, InterfaceA, Bus(0x08, 0x1B, 0x00, 0x00))
    ensures Entry(CableTable[6], "turtelizer", 0x0403, 0xbdc8, InterfaceA, Bus(0x08, 0x1B, 0x00, 0x00))
    ensures Entry(CableTable[7], "jtaghs1", 0x0403, 0xbdc8, InterfaceA, Bus(0x08, 0x1B, 0x00, 0x00))
    ensures Entry(CableTable[8], "ftdi", 0x0403, 0xbdc8, InterfaceA, Bus(0xA8, 0xAB, 0x00, 0x00))
    ensures Entry(CableTable[9], "digilent", 0x0403, 0x6014, InterfaceA, Bus(0x88, 0x8B, 0x20, 0x3F))
    ensures Entry(CableTable[10], "ft232h", 0x0403, 0x6014, InterfaceA, Bus(0x08, 0x0B, 0x00, 0x00))
    ensures Entry(CableTable[11], "ft4232h", 0x0403, 0x6011, InterfaceA, Bus(0x08, 0x0B, 0x00, 0x00))
    ensures Entry(CableTable[12], "arm-usb-ocd-h", 0x15ba, 0x002b, InterfaceA, Bus(0x08, 0x1B, 0x00, 0x08))
  {
    assert CableTable[0] == Flossjtag;
    assert CableTable[1] == Usbmate;
    assert CableTable[2] == Ft232hResistorSwd;
    assert CableTable[3] == Ftdijtag;
    assert CableTable[4] == Ftdiswd;
    assert CableTable[5] == Olimex;
    assert CableTable[6] == Turtelizer;
    assert CableTable[7] == Jtaghs1;
    assert CableTable[8] == Ftdi;
    assert CableTable[9] == Digilent;
    assert CableTable[10] == Ft232h;
    assert CableTable[11] == Ft4232h;
    assert CableTable[12] == ArmUsbOcdH;
  }

  /** The cable the platform selects when no name is given. */
  const DefaultCableName: string := "ftdi"

  /** Without a name the platform selects "ftdi", the ninth entry and the first one of that name. */
  lemma DefaultCableIsFtdi()
    ensures CableTable[8] == Ftdi && Ftdi.name == DefaultCableName
    ensures forall k :: 0 <= k < 8 ==> CableTable[k].name != DefaultCableName
  {
    assert forall k :: 0 <= k < 8 ==> |CableTable[k].name| != 4;
  }

  // ---------------------------------------------------------------------
  // Merging a descriptor field into a tracked byte
  // ---------------------------------------------------------------------

  /**
   * The intended merge of field `f` into byte `b`: a positive field ORs
   * its low byte in, a negative one ANDs it, a zero field leaves `b` alone.
   */
  function Merge(b: byte, f: Field): byte
  {
    match f
    case Unset => b
    case Pos(m) => b | m
    case Neg(m) => b & m
  }

  /** An OR merge sets the bits of its mask, keeps every bit outside it and so never clears a bit. */
  lemma MergeSetsBits(b: byte, m: byte)
    ensures Merge(b, Pos(m)) & m == m
    ensures Merge(b, Pos(m)) & !m == b & !m
    ensures b & !Merge(b, Pos(m)) == 0
  {
  }

  /** An AND merge clears the bits outside its mask, keeps every bit inside it and so never sets a bit. */
  lemma MergeClearsBits(b: byte, m: byte)
    ensures Merge(b, Neg(m)) & !m == 0
    ensures Merge(b, Neg(m)) & m == b & m
    ensures Merge(b, Neg(m)) & !b == 0
  {
  }

  /**
   * The merge as `platform_set_data` writes it: every field that is not
   * positive is ANDed in, so a zero field, whose low byte is 0, clears the byte.
   */
  function MergeAsWritten(b: byte, f: Field): (r: byte)
    ensures f != Unset ==> r == Merge(b, f)
    ensures f == Unset ==> r == 0
  {
    if f.Pos? then b | f.low else b & (if f.Neg? then f.low else 0)
  }

  lemma MergeIdempotent(b: byte, f: Field)
    ensures Merge(Merge(b, f), f) == Merge(b, f)
  {
    match f
    case Unset =>
    case Pos(m) => assert (b | m) | m == b | m;
    case Neg(m) => assert (b & m) & m == b & m;
  }

  /** One reset pulse (any two fields, applied in turn) followed by a second one changes nothing. */
  lemma {:induction false} MergePulseSettles(b: byte, f1: Field, f2: Field)
    ensures Merge(Merge(Merge(Merge(b, f1), f2), f1), f2) == Merge(Merge(b, f1), f2)
  {
    if f1 == Unset {
      MergeIdempotent(b, f2);
    } else if f2 == Unset {
      MergeIdempotent(b, f1);
    } else if f1.Pos? && f2.Pos? {
      OrOrSettles(b, f1.low, f2.low);
    } else if f1.Pos? {
      OrAndSettles(b, f1.low, f2.low);
    } else if f2.Pos? {
      AndOrSettles(b, f1.low, f2.low);
    } else {
      AndAndSettles(b, f1.low, f2.low);
    }
  }

  lemma OrOrSettles(b: byte, m1: byte, m2: byte)
    ensures Merge(Merge(Merge(Merge(b, Pos(m1)), Pos(m2)), Pos(m1)), Pos(m2)) == Merge(Merge(b, Pos(m1)), Pos(m2))
  {
  }

  lemma OrAndSettles(b: byte, m1: byte, m2: byte)
    ensures Merge(Merge(Merge(Merge(b, Pos(m1)), Neg(m2)), Pos(m1)), Neg(m2)) == Merge(Merge(b, Pos(m1)), Neg(m2))
  {
  }

  lemma AndOrSettles(b: byte, m1: byte, m2: byte)
    ensures Merge(Merge(Merge(Merge(b, Neg(m1)), Pos(m2)), Neg(m1)), Pos(m2)) == Merge(Merge(b, Neg(m1)), Pos(m2))
  {
  }

  lemma AndAndSettles(b: byte, m1: byte, m2: byte)
    ensures Merge(Merge(Merge(Merge(b, Neg(m1)), Neg(m2)), Neg(m1)), Neg(m2)) == Merge(Merge(b, Neg(m1)), Neg(m2))
  {
  }

  // ---------------------------------------------------------------------
  // Applying a descriptor and the command it produces
  // ---------------------------------------------------------------------

  /** The low (DBUS) group is touched when either of its fields is non-zero; likewise the high one. */
  predicate LowActive(d: DataDesc) { d.dataLow != Unset || d.ddrLow != Unset }
  predicate HighActive(d: DataDesc) { d.dataHigh != Unset || d.ddrHigh != Unset }

  /** The four bus bytes of a cable that the reset operations update. */
  datatype Bus = Bus(dbusData: byte, dbusDdr: byte, cbusData: byte, cbusDdr: byte)

  function BusOf(c: CableDesc): Bus
  {
    Bus(c.dbusData, c.dbusDdr, c.cbusData, c.cbusDdr)
  }

  /**
   * The bus bytes after descriptor `d` with the intended merge: each
   * active group merges its two fields. The activity guard is then
   * immaterial: every byte is the merge of its own field, so an inactive
   * group is unchanged.
   */
  function ApplyData(b: Bus, d: DataDesc): (r: Bus)
    ensures r == Bus(Merge(b.dbusData, d.dataLow), Merge(b.dbusDdr, d.ddrLow),
                     Merge(b.cbusData, d.dataHigh), Merge(b.cbusDdr, d.ddrHigh))
  {
    Bus(if LowActive(d) then Merge(b.dbusData, d.dataLow) else b.dbusData,
        if LowActive(d) then Merge(b.dbusDdr, d.ddrLow) else b.dbusDdr,
        if HighActive(d) then Merge(b.cbusData, d.dataHigh) else b.cbusData,
        if HighActive(d) then Merge(b.cbusDdr, d.ddrHigh) else b.cbusDdr)
  }

  /** One bus byte in `platform_set_data` as written: merged as written when its group is active, else kept. */
  function StepAsWritten(b: byte, active: bool, f: Field): byte
  {
    if active then MergeAsWritten(b, f) else b
  }

  /**
   * The bus bytes after descriptor `d` as `platform_set_data` computes
   * them: an inactive group is kept, and in an active group a zero field
   * clears its byte while a non-zero one is merged.
   */
  function ApplyDataAsWritten(b: Bus, d: DataDesc): (r: Bus)
    ensures !LowActive(d) ==> r.dbusData == b.dbusData && r.dbusDdr == b.dbusDdr
    ensures !HighActive(d) ==> r.cbusData == b.cbusData && r.cbusDdr == b.cbusDdr
    ensures LowActive(d) ==> r.dbusData == (if d.dataLow == Unset then 0 else Merge(b.dbusData, d.dataLow))
    ensures LowActive(d) ==> r.dbusDdr == (if d.ddrLow == Unset then 0 else Merge(b.dbusDdr, d.ddrLow))
    ensures HighActive(d) ==> r.cbusData == (if d.dataHigh == Unset then 0 else Merge(b.cbusData, d.dataHigh))
    ensures HighActive(d) ==> r.cbusDdr == (if d.ddrHigh == Unset then 0 else Merge(b.cbusDdr, d.ddrHigh))
  {
    Bus(StepAsWritten(b.dbusData, LowActive(d), d.dataLow), StepAsWritten(b.dbusDdr, LowActive(d), d.ddrLow),
        StepAsWritten(b.cbusData, HighActive(d), d.dataHigh), StepAsWritten(b.cbusDdr, HighActive(d), d.ddrHigh))
  }

  /** A group is affected by the zero-field defect when it is active and one of its fields is zero. */
  predicate HasZeroInActiveGroup(d: DataDesc)
  {
    (LowActive(d) && (d.dataLow == Unset || d.ddrLow == Unset)) ||
    (HighActive(d) && (d.dataHigh == Unset || d.ddrHigh == Unset))
  }

  /** Where no active group has a zero field, the source's merge and the intended one agree. */
  lemma AsWrittenAgrees(b: Bus, d: DataDesc)
    requires !HasZeroInActiveGroup(d)
    ensures ApplyDataAsWritten(b, d) == ApplyData(b, d)
  {
  }

  /**
   * The defect on real table entries: asserting reset on "ftdijtag"
   * (which only names CBUS data) turns every CBUS line into an input,
   * and either reset transition on "turtelizer" (which only names DBUS
   * data) turns every DBUS line, the JTAG lines included, into an input.
   */
  lemma AsWrittenClearsDirection()
    ensures Ftdijtag.cbusDdr == 0x1F
    ensures ApplyDataAsWritten(BusOf(Ftdijtag), Ftdijtag.assertSrst).cbusDdr == 0x00
    ensures ApplyData(BusOf(Ftdijtag), Ftdijtag.assertSrst).cbusDdr == 0x1F
    ensures Turtelizer.dbusDdr == 0x1B
    ensures ApplyDataAsWritten(BusOf(Turtelizer), Turtelizer.assertSrst).dbusDdr == 0x00
    ensures ApplyDataAsWritten(BusOf(Turtelizer), Turtelizer.deassertSrst).dbusDdr == 0x00
    ensures ApplyData(BusOf(Turtelizer), Turtelizer.assertSrst).dbusDdr == 0x1B
  {
  }

  /**
   * The bytes `platform_set_data` emits for descriptor `d` once the bus
   * bytes have become `n`: SET_BITS_LOW with the new DBUS pair when the
   * low group is active, then SET_BITS_HIGH with the new CBUS pair when
   * the high one is; hence 0, 3 or 6 bytes.
   */
  function SetDataCommand(n: Bus, d: DataDesc): (cmd: seq<byte>)
    ensures |cmd| == (if LowActive(d) then 3 else 0) + (if HighActive(d) then 3 else 0)
    ensures |cmd| == 0 <==> !LowActive(d) && !HighActive(d)
    ensures LowActive(d) ==> cmd[0] == SetBitsLow && cmd[1] == n.dbusData && cmd[2] == n.dbusDdr
    ensures HighActive(d) ==> cmd[|cmd| - 3] == SetBitsHigh && cmd[|cmd| - 2] == n.cbusData && cmd[|cmd| - 1] == n.cbusDdr
  {
    (if LowActive(d) then [SetBitsLow, n.dbusData, n.dbusDdr] else []) +
    (if HighActive(d) then [SetBitsHigh, n.cbusData, n.cbusDdr] else [])
  }

  // ---------------------------------------------------------------------
  // Reset pulse and read-back
  // ---------------------------------------------------------------------

  /** The bus bytes after asserting and then releasing reset with the descriptors of cable `c`, with the intended merge. */
  function SrstCycle(b: Bus, c: CableDesc): Bus
  {
    ApplyData(ApplyData(b, c.assertSrst), c.deassertSrst)
  }

  /** With the intended merge, a second reset pulse leaves the bus as the first one did. */
  lemma {:induction false} SrstCycleSettles(b: Bus, c: CableDesc)
    ensures SrstCycle(SrstCycle(b, c), c) == SrstCycle(b, c)
  {
    var a, d := c.assertSrst, c.deassertSrst;
    MergePulseSettles(b.dbusData, a.dataLow, d.dataLow);
    MergePulseSettles(b.dbusDdr, a.ddrLow, d.ddrLow);
    MergePulseSettles(b.cbusData, a.dataHigh, d.dataHigh);
    MergePulseSettles(b.cbusDdr, a.ddrHigh, d.ddrHigh);
  }

  /**
   * With the intended merge, a pulse restores the idle bus of every table
   * cable with reset descriptors but "usbmate", whose idle DBUS data holds
   * PIN6 low while its release drives it high.
   */
  lemma TableSrstCycle()
    ensures SrstCycle(BusOf(Flossjtag), Flossjtag) == BusOf(Flossjtag)
    ensures SrstCycle(BusOf(Ftdijtag), Ftdijtag) == BusOf(Ftdijtag)
    ensures SrstCycle(BusOf(Ftdiswd), Ftdiswd) == BusOf(Ftdiswd)
    ensures SrstCycle(BusOf(Turtelizer), Turtelizer) == BusOf(Turtelizer)
    ensures SrstCycle(BusOf(Usbmate), Usbmate).dbusData == Pin6 && Usbmate.dbusData == 0
  {
  }

  /** The bus bytes after asserting and then releasing reset as `platform_srst_set_val` does it. */
  function SrstCycleAsWritten(b: Bus, c: CableDesc): Bus
  {
    ApplyDataAsWritten(ApplyDataAsWritten(b, c.assertSrst), c.deassertSrst)
  }

  /** Applying the same as-written byte step twice is applying it once. */
  lemma {:induction false} StepIdempotent(b: byte, active: bool, f: Field)
    ensures StepAsWritten(StepAsWritten(b, active, f), active, f) == StepAsWritten(b, active, f)
  {
    if active && f != Unset {
      MergeIdempotent(b, f);
    }
  }

  /** On one byte, a second as-written pulse changes nothing the first did not. */
  lemma {:induction false} StepPulseSettles(b: byte, a1: bool, f1: Field, a2: bool, f2: Field)
    ensures StepAsWritten(StepAsWritten(StepAsWritten(StepAsWritten(b, a1, f1), a2, f2), a1, f1), a2, f2) ==
            StepAsWritten(StepAsWritten(b, a1, f1), a2, f2)
  {
    if !a1 {
      StepIdempotent(b, a2, f2);
    } else if !a2 {
      StepIdempotent(b, a1, f1);
    } else if f1 != Unset && f2 != Unset {
      MergePulseSettles(b, f1, f2);
    }
  }

  /**
   * As the code is written, too, a second reset pulse leaves the bus as
   * the first one did; what the first one leaves may differ from the idle bus.
   */
  lemma {:induction false} SrstCycleAsWrittenSettles(b: Bus, c: CableDesc)
    ensures SrstCycleAsWritten(SrstCycleAsWritten(b, c), c) == SrstCycleAsWritten(b, c)
  {
    var a, d := c.assertSrst, c.deassertSrst;
    StepPulseSettles(b.dbusData, LowActive(a), a.dataLow, LowActive(d), d.dataLow);
    StepPulseSettles(b.dbusDdr, LowActive(a), a.ddrLow, LowActive(d), d.ddrLow);
    StepPulseSettles(b.cbusData, HighActive(a), a.dataHigh, HighActive(d), d.dataHigh);
    StepPulseSettles(b.cbusDdr, HighActive(a), a.ddrHigh, HighActive(d), d.ddrHigh);
  }

  /**
   * A pulse as the code is written: "flossjtag" and "ftdiswd" get their
   * idle bus back, "ftdijtag" is left with every CBUS line an input and
   * "turtelizer" with every DBUS line an input.
   */
  lemma TableSrstCycleAsWritten()
    ensures SrstCycleAsWritten(BusOf(Flossjtag), Flossjtag) == BusOf(Flossjtag)
    ensures SrstCycleAsWritten(BusOf(Ftdiswd), Ftdiswd) == BusOf(Ftdiswd)
    ensures SrstCycleAsWritten(BusOf(Ftdijtag), Ftdijtag) == BusOf(Ftdijtag).(cbusDdr := 0)
    ensures SrstCycleAsWritten(BusOf(Turtelizer), Turtelizer) == BusOf(Turtelizer).(dbusDdr := 0)
  {
  }

  /** The pair of a read-back: the GET_BITS command to issue and the pin to test. */
  datatype Readback = Readback(cmd: byte, pin: byte)

  /**
   * The read-back choice, in priority order: the dedicated command and
   * pin when both are set; else the low assert data field as pin, when
   * both low assert fields are set; else the high one likewise; else none.
   */
  function ReadbackPin(c: CableDesc): (r: Option<Readback>)
    ensures r.None? <==> ((c.srstGetPortCmd == 0 || c.srstGetPin == 0) &&
      (c.assertSrst.dataLow == Unset || c.assertSrst.ddrLow == Unset) &&
      (c.assertSrst.dataHigh == Unset || c.assertSrst.ddrHigh == Unset))
    ensures c.srstGetPortCmd != 0 && c.srstGetPin != 0 ==> r == Some(Readback(c.srstGetPortCmd, c.srstGetPin))
    ensures (c.srstGetPortCmd == 0 || c.srstGetPin == 0) &&
            c.assertSrst.dataLow != Unset && c.assertSrst.ddrLow != Unset ==>
              r == Some(Readback(GetBitsLow, c.assertSrst.dataLow.low))
    ensures (c.srstGetPortCmd == 0 || c.srstGetPin == 0) &&
            (c.assertSrst.dataLow == Unset || c.assertSrst.ddrLow == Unset) &&
            c.assertSrst.dataHigh != Unset && c.assertSrst.ddrHigh != Unset ==>
              r == Some(Readback(GetBitsHigh, c.assertSrst.dataHigh.low))
    ensures r.Some? && r.value.cmd != c.srstGetPortCmd ==> r.value.cmd in {GetBitsLow, GetBitsHigh}
  {
    var a := c.assertSrst;
    if c.srstGetPortCmd != 0 && c.srstGetPin != 0 then Some(Readback(c.srstGetPortCmd, c.srstGetPin))
    else if a.dataLow != Unset && a.ddrLow != Unset then Some(Readback(GetBitsLow, a.dataLow.low))
    else if a.dataHigh != Unset && a.ddrHigh != Unset then Some(Readback(GetBitsHigh, a.dataHigh.low))
    else None
  }

  /**
   * The reset level read back on pin `pin` from port byte `data`: a pin
   * below 0x7f or exactly PIN7 is active high, any other value is the
   * complement of an active-low pin.
   */
  predicate PinAsserted(pin: byte, data: byte)
  {
    if pin < 0x7f || pin == Pin7 then data & pin != 0 else data & !pin == 0
  }

  /**
   * Pin convention: PINk reads as asserted exactly when bit k is high and
   * ~PINk exactly when bit k is low, for all eight pins (PIN7's
   * complement 0x7f included).
   */
  lemma {:induction false} SinglePinConvention(k: nat, data: byte)
    requires k < 8
    ensures PinAsserted(Pin(k), data) <==> data & Pin(k) != 0
    ensures PinAsserted(!Pin(k), data) <==> data & Pin(k) == 0
  {
    PinBelowOrTop(k);
  }

  /** Every pin but PIN7 lies below 0x7f, and no complemented pin does or equals PIN7. */
  lemma PinBelowOrTop(k: nat)
    requires k < 8
    ensures Pin(k) < 0x7f || Pin(k) == Pin7
    ensures !(!Pin(k) < 0x7f || !Pin(k) == Pin7)
  {
  }

  /** The read-back of every table cable that has one. */
  lemma TableReadback()
    ensures ReadbackPin(Flossjtag) == Some(Readback(GetBitsLow, !Pin6))
    ensures ReadbackPin(Usbmate) == Some(Readback(GetBitsLow, !Pin6))
    ensures ReadbackPin(Ftdijtag) == Some(Readback(GetBitsLow, !Pin6))
    ensures ReadbackPin(Ftdiswd) == Some(Readback(GetBitsHigh, !Pin1))
    ensures ReadbackPin(Turtelizer) == Some(Readback(GetBitsHigh, Pin0))
    ensures ReadbackPin(Olimex) == None && ReadbackPin(Ftdi) == None && ReadbackPin(Digilent) == None
  {
  }

  /**
   * A complementary pair on mask `p` of a group, `{~p, p}` to assert and
   * `{p, ~p}` to release. Asserting drives the bits of `p` low and makes
   * them outputs.
   */
  lemma PairAssertDrivesLow(data: byte, ddr: byte, p: byte)
    ensures Merge(data, Neg(!p)) & p == 0
    ensures Merge(ddr, Pos(p)) & p == p
  {
  }

  /** Releasing after asserting sets the bits of `p` high and makes them inputs. */
  lemma PairReleaseFloatsHigh(data: byte, ddr: byte, p: byte)
    ensures Merge(Merge(data, Neg(!p)), Pos(p)) & p == p
    ensures Merge(Merge(ddr, Pos(p)), Neg(!p)) & p == 0
  {
  }

  /** Asserting and releasing leaves every bit outside `p` as it was. */
  lemma PairKeepsOtherBits(data: byte, ddr: byte, p: byte)
    ensures Merge(Merge(data, Neg(!p)), Pos(p)) & !p == data & !p
    ensures Merge(Merge(ddr, Pos(p)), Neg(!p)) & !p == ddr & !p
  {
  }

  /**
   * For a pair on a single pin, reading the level back through the assert
   * field's pin (as the read-back fallback does) reports reset exactly
   * while it is asserted.
   */
  lemma {:induction false} PairReadsBack(data: byte, k: nat)
    requires k < 8
    ensures PinAsserted(!Pin(k), Merge(data, Neg(!Pin(k))))
    ensures !PinAsserted(!Pin(k), Merge(Merge(data, Neg(!Pin(k))), Pos(Pin(k))))
  {
    PairAssertDrivesLow(data, 0, Pin(k));
    PairReleaseFloatsHigh(data, 0, Pin(k));
    SinglePinConvention(k, Merge(data, Neg(!Pin(k))));
    SinglePinConvention(k, Merge(Merge(data, Neg(!Pin(k))), Pos(Pin(k))));
  }
}
