/**
 * The ST-Link command channel of the "blacklink" platform: the probe's
 * status-byte classification, the decoding of its version reply, the
 * firmware gate, the "leave the current mode" choice, the NRST drive
 * command, the USB product filter with its API level, and the completion
 * flags of one bulk transfer.
 *
 * USB I/O is not modelled: every reply the probe would send is a
 * parameter, and every command packet the host transmits is appended to
 * the ghost log `Stlink.sent`.
 */
module StlinkUsb {
  import opened Basics

  // USB identity of the ST-Link family
  const VendorIdStlink: bv16 := 0x483
  const ProductIdStlinkMask: bv16 := 0xfff0
  const ProductIdStlinkGroup: bv16 := 0x3740
  const ProductIdStlinkV1: bv16 := 0x3744
  const ProductIdStlinkV2: bv16 := 0x3748
  const ProductIdStlinkV21: bv16 := 0x374b
  const ProductIdStlinkV21Msd: bv16 := 0x3752
  const ProductIdStlinkV3: bv16 := 0x374f

  // Status codes held in the first byte of a debug response
  const DebugErrOk: byte := 0x80
  const DebugErrFault: byte := 0x81
  const SwdApWait: byte := 0x10
  const SwdApFault: byte := 0x11
  const SwdApError: byte := 0x12
  const SwdApParityError: byte := 0x13
  const JtagWriteError: byte := 0x0c
  const JtagWriteVerifError: byte := 0x0d
  const SwdDpWait: byte := 0x14
  const SwdDpFault: byte := 0x15
  const SwdDpError: byte := 0x16
  const SwdDpParityError: byte := 0x17
  const SwdApWdataError: byte := 0x18
  const SwdApStickyError: byte := 0x19
  const SwdApStickyOrunError: byte := 0x1a

  // Command groups (first byte of a command packet)
  const GetVersion: byte := 0xF1
  const DebugCommand: byte := 0xF2
  const DfuCommand: byte := 0xF3
  const SwimCommand: byte := 0xF4
  const GetCurrentMode: byte := 0xF5
  const ApiV3GetVersionEx: byte := 0xFB

  // Operating modes reported by GET_CURRENT_MODE
  const DevDfuMode: byte := 0x00
  const DevMassMode: byte := 0x01
  const DevDebugMode: byte := 0x02
  const DevSwimMode: byte := 0x03
  const DevBootloaderMode: byte := 0x04

  // Second bytes of the commands this model sends
  const DfuExit: byte := 0x07
  const SwimExit: byte := 0x01
  const DebugExit: byte := 0x21
  const ApiV2DriveNrst: byte := 0x3C
  const ApiV2DriveNrstLow: byte := 0x00
  const ApiV2DriveNrstHigh: byte := 0x01

  /** The transport result codes FAIL = -1, OK = 0, WAIT = 1. */
  datatype StlinkError = Fail | Ok | Wait

  /**
   * The integer value of each result code. The model's operations work on
   * `StlinkError` itself, so this function only records the constants.
   */
  function Code(e: StlinkError): (c: int)
    ensures e == Fail ==> c == -1
    ensures e == Ok ==> c == 0
    ensures e == Wait ==> c == 1
    ensures c == 0 <==> e == Ok
  {
    match e
    case Fail => -1
    case Ok => 0
    case Wait => 1
  }

  /**
   * Classifies the status byte of a response. The benign "write verify"
   * status counts as success, both wait statuses ask for a retry, and every
   * other value, named or not, fails closed.
   */
  function ErrorCheck(status: byte): (r: StlinkError)
    ensures r == Ok <==> status == DebugErrOk || status == JtagWriteVerifError
    ensures r == Wait <==> status == SwdApWait || status == SwdDpWait
    ensures r == Fail <==> !(status in {DebugErrOk, JtagWriteVerifError, SwdApWait, SwdDpWait})
  {
    if status == DebugErrOk then Ok
    else if status == DebugErrFault then Fail
    else if status == SwdApWait then Wait
    else if status == SwdDpWait then Wait
    else if status == JtagWriteError then Fail
    else if status == JtagWriteVerifError then Ok
    else if status == SwdApFault then Fail
    else if status == SwdApError then Fail
    else if status == SwdApParityError then Fail
    else if status == SwdDpFault then Fail
    else if status == SwdDpError then Fail
    else if status == SwdDpParityError then Fail
    else if status == SwdApWdataError then Fail
    else if status == SwdApStickyError then Fail
    else if status == SwdApStickyOrunError then Fail
    else Fail
  }

  /** Every error status the probe names, the AP fault 0x11 included, fails. */
  lemma NamedErrorsFail(status: byte)
    requires status in {DebugErrFault, JtagWriteError, SwdApFault, SwdApError, SwdApParityError,
                        SwdDpFault, SwdDpError, SwdDpParityError, SwdApWdataError,
                        SwdApStickyError, SwdApStickyOrunError}
    ensures ErrorCheck(status) == Fail
  {
  }

  /** A 16-bit value built from its high and its low byte (`hi << 8 | lo`). */
  function Word(hi: byte, lo: byte): (w: bv16)
    ensures (w >> 8) as byte == hi && (w & 0xff) as byte == lo
  {
    ((hi as bv16) << 8) | (lo as bv16)
  }

  /** The ST-Link generation: bits 12..15 of the version word, that is the high nibble of byte 0. */
  function Major(reply: seq<byte>): (v: byte)
    requires |reply| >= 2
    ensures v == reply[0] >> 4
    ensures v < 16
  {
    ((Word(reply[0], reply[1]) >> 12) & 0x0f) as byte
  }

  /** The JTAG API version: bits 6..11 of the version word. */
  function JtagField(reply: seq<byte>): (v: byte)
    requires |reply| >= 2
    ensures v == ((reply[0] & 0x0f) << 2) | (reply[1] >> 6)
    ensures v < 64
  {
    ((Word(reply[0], reply[1]) >> 6) & 0x3f) as byte
  }

  /** The mass-storage version: bits 0..5 of the version word. */
  function MassField(reply: seq<byte>): (v: byte)
    requires |reply| >= 2
    ensures v == reply[1] & 0x3f
    ensures v < 64
  {
    (Word(reply[0], reply[1]) & 0x3f) as byte
  }

  /** The command packets GET_VERSION issues for a given first reply. */
  function VersionQueries(reply: seq<byte>): seq<seq<byte>>
    requires |reply| >= 2
  {
    if Major(reply) == 3 then [[GetVersion], [ApiV3GetVersionEx]] else [[GetVersion]]
  }

  /** The JTAG version the probe reports: from the extended reply on a V3, else from the version word. */
  function ReportedJtag(reply: seq<byte>, extended: seq<byte>): byte
    requires |reply| >= 2 && |extended| >= 5
  {
    if Major(reply) == 3 then extended[2] else JtagField(reply)
  }

  /** The firmware gate: refuse when the API level is below 30 and the JTAG version below 32. */
  function FirmwareAccepted(verApi: byte, verJtag: byte): (ok: bool)
    ensures ok <==> verApi >= 30 || verJtag >= 32
  {
    !(verApi < 30 && verJtag < 32)
  }

  /**
   * The exit command for the mode a probe is in: DFU, SWIM and debug modes
   * each have one; bootloader, mass-storage and unknown modes get none.
   */
  function ExitCommand(mode: byte): (r: Option<seq<byte>>)
    ensures r.Some? <==> mode == DevDfuMode || mode == DevSwimMode || mode == DevDebugMode
    ensures mode == DevDfuMode ==> r == Some([DfuCommand, DfuExit])
    ensures mode == DevSwimMode ==> r == Some([SwimCommand, SwimExit])
    ensures mode == DevDebugMode ==> r == Some([DebugCommand, DebugExit])
  {
    if mode == DevDfuMode then Some([DfuCommand, DfuExit])
    else if mode == DevSwimMode then Some([SwimCommand, SwimExit])
    else if mode == DevDebugMode then Some([DebugCommand, DebugExit])
    else None
  }

  /** Different modes are left with different commands: the command identifies the mode. */
  lemma ExitCommandIdentifiesMode(m1: byte, m2: byte)
    requires ExitCommand(m1).Some? && ExitCommand(m1) == ExitCommand(m2)
    ensures m1 == m2
  {
  }

  /** The exit packets sent after a mode query, in order. */
  function ExitPackets(mode: byte): seq<seq<byte>>
  {
    match ExitCommand(mode)
    case Some(c) => [c]
    case None => []
  }

  /** DEBUG_COMMAND, DRIVE_NRST, then LOW to assert reset or HIGH to release it. */
  function DriveNrstCommand(assert_: bool): (cmd: seq<byte>)
    ensures |cmd| == 3 && cmd[0] == DebugCommand && cmd[1] == ApiV2DriveNrst
    ensures cmd[2] == ApiV2DriveNrstLow <==> assert_
    ensures cmd[2] == ApiV2DriveNrstHigh <==> !assert_
  {
    [DebugCommand, ApiV2DriveNrst, if assert_ then ApiV2DriveNrstLow else ApiV2DriveNrstHigh]
  }

  /** The enumeration filter: ST's vendor ID and a product ID of the 0x374x group. */
  function IsStlinkDevice(vendor: bv16, product: bv16): (r: bool)
    ensures r <==> vendor == VendorIdStlink && 0x3740 <= product <= 0x374f
  {
    vendor == VendorIdStlink && product & ProductIdStlinkMask == ProductIdStlinkGroup
  }

  /** The known probes pass the filter, except the V2.1 mass-storage product ID 0x3752. */
  lemma KnownProductsFiltered()
    ensures IsStlinkDevice(VendorIdStlink, ProductIdStlinkV1)
    ensures IsStlinkDevice(VendorIdStlink, ProductIdStlinkV2)
    ensures IsStlinkDevice(VendorIdStlink, ProductIdStlinkV21)
    ensures IsStlinkDevice(VendorIdStlink, ProductIdStlinkV3)
    ensures !IsStlinkDevice(VendorIdStlink, ProductIdStlinkV21Msd)
  {
  }

  /**
   * The API level recorded for one opened probe whose serial number was
   * accepted (`serialOk`): 20 for a V2, 21 for a V2.1 or a V3, and the
   * prior level for anything else.
   */
  function ApiLevel(product: bv16, serialOk: bool, prior: byte): (r: byte)
    ensures serialOk && product == ProductIdStlinkV2 ==> r == 20
    ensures serialOk && product in {ProductIdStlinkV21, ProductIdStlinkV3} ==> r == 21
    ensures r == prior || r == 20 || r == 21
    ensures r != prior ==> serialOk && product in {ProductIdStlinkV2, ProductIdStlinkV21, ProductIdStlinkV3}
  {
    if serialOk && product == ProductIdStlinkV2 then 20
    else if serialOk && product == ProductIdStlinkV21 then 21
    else if serialOk && product == ProductIdStlinkV3 then 21
    else prior
  }

  /** One probe opened by the enumeration loop. */
  datatype OpenedProbe = OpenedProbe(product: bv16, serialOk: bool)

  /** An opened probe that sets the API level: an accepted V2, V2.1 or V3. */
  predicate SetsApi(p: OpenedProbe)
  {
    p.serialOk && p.product in {ProductIdStlinkV2, ProductIdStlinkV21, ProductIdStlinkV3}
  }

  /** Probe `k` is the last of `probes` that sets the API level. */
  predicate LastSetter(probes: seq<OpenedProbe>, k: int)
  {
    0 <= k < |probes| && SetsApi(probes[k]) && forall j :: k < j < |probes| ==> !SetsApi(probes[j])
  }

  /**
   * The API level after the enumeration loop has opened `probes` in order,
   * starting from `start`: unchanged when no probe sets it, else the level
   * the last probe that sets it assigns (20 or 21).
   */
  function ApiAfter(probes: seq<OpenedProbe>, start: byte): (r: byte)
    decreases |probes|
    ensures (forall k :: 0 <= k < |probes| ==> !SetsApi(probes[k])) ==> r == start
    ensures (exists k :: 0 <= k < |probes| && SetsApi(probes[k])) ==> r == 20 || r == 21
    ensures forall k :: 0 <= k < |probes| && LastSetter(probes, k) ==>
              r == ApiLevel(probes[k].product, probes[k].serialOk, 0)
  {
    if probes == [] then start
    else ApiAfter(probes[1..], ApiLevel(probes[0].product, probes[0].serialOk, start))
  }

  /** No probe ever raises the API level to 30 or more. */
  lemma {:induction false} ApiAfterBelow30(probes: seq<OpenedProbe>, start: byte)
    requires start < 30
    ensures ApiAfter(probes, start) < 30
    decreases |probes|
  {
    if probes != [] {
      ApiAfterBelow30(probes[1..], ApiLevel(probes[0].product, probes[0].serialOk, start));
    }
  }

  /**
   * Since the API level starts at 0 and never reaches 30, the firmware gate
   * accepts exactly the probes that report a JTAG version of 32 or more.
   */
  lemma GateIsJtagVersionCheck(probes: seq<OpenedProbe>, verJtag: byte)
    ensures FirmwareAccepted(ApiAfter(probes, 0), verJtag) <==> verJtag >= 32
  {
    ApiAfterBelow30(probes, 0);
  }

  /** The two defined bits of a transfer's flag word; the word is modelled as the set of its set bits. */
  datatype TransFlag = IsDone | HasError

  /** The final status libusb reports for a transfer. */
  datatype TransferStatus = Completed | TransferError | TimedOut | Cancelled | Stall | NoDevice | Overflow

  /**
   * The flags after the completion callback: IS_DONE always, HAS_ERROR
   * exactly when the status is not COMPLETED; no flag is ever cleared.
   */
  function DoneFlags(flags: set<TransFlag>, status: TransferStatus): (r: set<TransFlag>)
    ensures IsDone in r
    ensures HasError in r <==> HasError in flags || status != Completed
    ensures flags <= r
  {
    var f := if status != Completed then flags + {HasError} else flags;
    f + {IsDone}
  }

  /** The context one transfer's callback writes into. */
  class TransCtx {
    var flags: set<TransFlag>

    constructor ()
      ensures flags == {}
    {
      flags := {};
    }

    method OnTransDone(status: TransferStatus)
      modifies this
      ensures flags == DoneFlags(old(flags), status)
    {
      if status != Completed {
        flags := flags + {HasError};
      }
      flags := flags + {IsDone};
    }
  }

  /**
   * What one call of the event loop reports once it returns: whether it
   * failed, the final status of the transfer when its callback ran during
   * the call, and whether one second had passed since the submission when
   * the clock was read after the call.
   */
  datatype EventCall = EventCall(failed: bool, callback: Option<TransferStatus>, late: bool)

  /** A call after which the wait loop does not go round again. */
  predicate Ends(e: EventCall)
  {
    e.failed || e.callback.Some? || e.late
  }

  /** Call `k` is the first one that ends the wait. */
  predicate FirstEndAt(calls: seq<EventCall>, k: int)
  {
    0 <= k < |calls| && Ends(calls[k]) && forall j :: 0 <= j < k ==> !Ends(calls[j])
  }

  /** The wait succeeds: the first call that ends it ran a COMPLETED callback, did not fail and was on time. */
  predicate WaitSucceeds(calls: seq<EventCall>)
  {
    exists k :: 0 <= k < |calls| && FirstEndAt(calls, k) && calls[k] == EventCall(false, Some(Completed), false)
  }

  /**
   * The deadline is read after the event loop returns, so a transfer that
   * completes in a call the deadline overtakes still fails the wait.
   */
  lemma LateCompletionFails(calls: seq<EventCall>, k: int)
    requires FirstEndAt(calls, k) && calls[k].callback == Some(Completed) && calls[k].late
    ensures !WaitSucceeds(calls)
  {
  }

  /**
   * Submit, wait, report. `rejected` is the refusal of the submission and
   * `calls` what the successive event-loop calls report; the one-second
   * deadline guarantees that one of them ends the wait. The result is 0
   * exactly when the wait succeeds, and -1 otherwise.
   */
  method SubmitWait(rejected: bool, calls: seq<EventCall>) returns (r: int)
    requires exists k :: 0 <= k < |calls| && Ends(calls[k])
    ensures r == 0 || r == -1
    ensures r == 0 <==> !rejected && WaitSucceeds(calls)
  {
    var ctx := new TransCtx();
    if rejected {
      return -1;
    }
    var i := 0;
    while ctx.flags == {}
      invariant 0 <= i <= |calls|
      invariant ctx.flags == {} ==> forall j :: 0 <= j < i ==> !Ends(calls[j])
      invariant ctx.flags != {} ==> FirstEndAt(calls, i - 1) && !calls[i - 1].failed && !calls[i - 1].late &&
                                    calls[i - 1].callback.Some? && ctx.flags == DoneFlags({}, calls[i - 1].callback.value)
      decreases |calls| - i
    {
      var call := calls[i];
      if call.callback.Some? {
        ctx.OnTransDone(call.callback.value);
      }
      i := i + 1;
      if call.failed || call.late {
        return -1;
      }
    }
    if HasError in ctx.flags {
      r := -1;
    } else {
      r := 0;
    }
  }

  /**
   * The global probe record: identity and version fields, and the ghost
   * log of the command packets transmitted to the probe, oldest first.
   */
  class Stlink {
    var vid: bv16
    var pid: bv16
    var verStlink: byte
    var verApi: byte
    var verJtag: byte
    var verMass: byte
    var verSwim: byte
    var verBridge: byte
    ghost var sent: seq<seq<byte>>

    /** The record starts zeroed, as a C global does. */
    constructor ()
      ensures vid == 0 && pid == 0 && verStlink == 0 && verApi == 0
      ensures verJtag == 0 && verMass == 0 && verSwim == 0 && verBridge == 0
      ensures sent == []
    {
      vid, pid := 0, 0;
      verStlink, verApi, verJtag, verMass, verSwim, verBridge := 0, 0, 0, 0, 0, 0;
      sent := [];
    }

    /** Records the API level for one probe the enumeration loop opened. */
    method NoteOpenedProbe(product: bv16, serialOk: bool)
      modifies this`verApi
      ensures verApi == ApiLevel(product, serialOk, old(verApi))
    {
      if serialOk && product == ProductIdStlinkV2 {
        verApi := 20;
      } else if serialOk && product == ProductIdStlinkV21 {
        verApi := 21;
      } else if serialOk && product == ProductIdStlinkV3 {
        verApi := 21;
      }
    }

    /**
     * GET_VERSION: `reply` is the 6-byte answer, `extended` the 16-byte
     * answer to GET_VERSION_EX (read only on a V3).
     */
    method PlatformVersion(reply: seq<byte>, extended: seq<byte>)
      requires |reply| == 6 && |extended| == 16
      modifies this
      ensures sent == old(sent) + VersionQueries(reply)
      ensures vid == Word(reply[3], reply[2]) && pid == Word(reply[5], reply[4])
      ensures verStlink == reply[0] >> 4
      ensures verApi == old(verApi)
      ensures verJtag == ReportedJtag(reply, extended)
      ensures verStlink == 3 ==>
                verSwim == extended[1] && verMass == extended[3] && verBridge == extended[4]
      ensures verStlink != 3 ==>
                verSwim == old(verSwim) && verBridge == old(verBridge) &&
                verMass == (if pid == ProductIdStlinkV21Msd || pid == ProductIdStlinkV21
                            then MassField(reply) else old(verMass))
    {
      sent := sent + [[GetVersion]];
      vid := Word(reply[3], reply[2]);
      pid := Word(reply[5], reply[4]);
      verStlink := Major(reply);
      if verStlink == 3 {
        sent := sent + [[ApiV3GetVersionEx]];
        verSwim := extended[1];
        verJtag := extended[2];
        verMass := extended[3];
        verBridge := extended[4];
      } else {
        verJtag := JtagField(reply);
        if pid == ProductIdStlinkV21Msd || pid == ProductIdStlinkV21 {
          verMass := MassField(reply);
        }
      }
    }

    /** GET_CURRENT_MODE, then the exit command of the reported mode, if it has one. */
    method LeaveState(modeReply: seq<byte>)
      requires |modeReply| == 2
      modifies this`sent
      ensures sent == old(sent) + [[GetCurrentMode]] + ExitPackets(modeReply[0])
    {
      sent := sent + [[GetCurrentMode]];
      var exit := ExitCommand(modeReply[0]);
      if exit.Some? {
        sent := sent + [exit.value];
      }
    }

    /** Drives NRST; the 2-byte status is classified and the verdict discarded. */
    method SrstSetVal(assert_: bool, status: seq<byte>)
      requires |status| == 2
      modifies this`sent
      ensures sent == old(sent) + [DriveNrstCommand(assert_)]
    {
      sent := sent + [DriveNrstCommand(assert_)];
      var _ := ErrorCheck(status[0]);
    }

    /**
     * The tail of initialisation once a probe is claimed: read the version,
     * refuse old firmware (`ok` false: the process exits), else leave the
     * probe's current mode.
     */
    method Connect(reply: seq<byte>, extended: seq<byte>, modeReply: seq<byte>) returns (ok: bool)
      requires |reply| == 6 && |extended| == 16 && |modeReply| == 2
      modifies this
      ensures verApi == old(verApi) && verJtag == ReportedJtag(reply, extended)
      ensures ok <==> FirmwareAccepted(old(verApi), ReportedJtag(reply, extended))
      ensures ok ==> sent == old(sent) + VersionQueries(reply) + [[GetCurrentMode]] + ExitPackets(modeReply[0])
      ensures !ok ==> sent == old(sent) + VersionQueries(reply)
    {
      PlatformVersion(reply, extended);
      if verApi < 30 && verJtag < 32 {
        ok := false;
        return;
      }
      LeaveState(modeReply);
      ok := true;
    }
  }
}
