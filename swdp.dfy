/**
 * SW-DP register access over the ST-Link command channel (ARM Debug
 * Interface v5, ARM IHI0031A): the one-transaction low-level access with
 * its WAIT / FAIL handling, the two-step access-port read through the DP
 * Read Buffer (RDBUFF), and the scan that creates the single SW-DP.
 *
 * The ST-Link register calls belong to the command channel and are not
 * shown; `Link` stands for them: it logs every request and answers the
 * k-th request with the oracle's `answer(k)`.
 */
module Swdp {
  import opened Basics
  import opened StlinkUsb
  import opened Adiv5

  /** The direction argument of a low-level access: non-zero reads. */
  const AdiV5LowWrite: byte := 0
  const AdiV5LowRead: byte := 1

  /** One register transaction as issued to the probe. */
  datatype Request = ReadReg(addr: bv16) | WriteReg(addr: bv16, value: bv32)

  /** The probe's answer to one transaction: its result code and, for a read, the register value. */
  datatype RegReply = RegReply(res: StlinkError, value: bv32)

  /**
   * The outcome of an access seen by the caller: a 32-bit value, or the
   * recoverable timeout that the C code raises as an exception.
   */
  datatype Access = Value(v: bv32) | Transient

  /** The register transport: a request log and a fixed oracle of replies. */
  class Link {
    const answer: nat -> RegReply
    var requests: seq<Request>

    constructor (answer: nat -> RegReply)
      ensures this.answer == answer && requests == []
    {
      this.answer := answer;
      requests := [];
    }

    method ReadDpRegister(addr: bv16) returns (res: StlinkError, value: bv32)
      modifies this`requests
      ensures requests == old(requests) + [ReadReg(addr)]
      ensures RegReply(res, value) == answer(|old(requests)|)
    {
      var reply := answer(|requests|);
      requests := requests + [ReadReg(addr)];
      res, value := reply.res, reply.value;
    }

    method WriteDpRegister(addr: bv16, value: bv32) returns (res: StlinkError)
      modifies this`requests
      ensures requests == old(requests) + [WriteReg(addr, value)]
      ensures res == answer(|old(requests)|).res
    {
      res := answer(|requests|).res;
      requests := requests + [WriteReg(addr, value)];
    }
  }

  /** The transaction a low-level access issues. */
  function LowRequest(rnw: byte, addr: bv16, value: bv32): Request
  {
    if rnw != 0 then ReadReg(addr) else WriteReg(addr, value)
  }

  /**
   * What a low-level access returns for a reply: WAIT never yields a value,
   * FAIL yields 0, OK yields the register on a read and 0 on a write.
   */
  function LowAccessResult(rnw: byte, reply: RegReply): (r: Access)
    ensures r == Transient <==> reply.res == Wait
    ensures reply.res == Fail ==> r == Value(0)
    ensures reply.res == Ok ==> r == Value(if rnw != 0 then reply.value else 0)
  {
    if reply.res == Wait then Transient
    else if reply.res == Fail then Value(0)
    else if rnw != 0 then Value(reply.value)
    else Value(0)
  }

  /** The sticky fault after a reply: set on FAIL, otherwise left as it was, never cleared. */
  function FaultAfter(fault: int, reply: RegReply): (f: int)
    ensures reply.res == Fail ==> f == 1
    ensures reply.res != Fail ==> f == fault
  {
    if reply.res == Fail then 1 else fault
  }

  /** Exactly one transaction; WAIT raises, FAIL sets the sticky fault and returns 0. */
  method SwdpLowAccess(dp: Dp, link: Link, rnw: byte, addr: bv16, value: bv32) returns (r: Access)
    modifies dp`fault, link`requests
    ensures link.requests == old(link.requests) + [LowRequest(rnw, addr, value)]
    ensures r == LowAccessResult(rnw, link.answer(|old(link.requests)|))
    ensures dp.fault == FaultAfter(old(dp.fault), link.answer(|old(link.requests)|))
  {
    var response: bv32 := 0;
    var res: StlinkError;
    if rnw != 0 {
      res, response := link.ReadDpRegister(addr);
    } else {
      res := link.WriteDpRegister(addr, value);
    }
    if res == Wait {
      // raise_exception(EXCEPTION_TIMEOUT, ...): no value reaches the caller
      r := Transient;
      return;
    }
    if res == Fail {
      dp.fault := 1;
      r := Value(0);
      return;
    }
    r := Value(response);
  }

  /**
   * A DP register is read with one transaction. An AP register is read
   * with a read of the AP register, which primes the result, then a read
   * of RDBUFF, whose result is returned; a WAIT on the first read raises
   * before the second is issued. `apnDp` and `rdbuff` are the ADIv5
   * constants ADIV5_APnDP and ADIV5_DP_RDBUFF.
   */
  method SwdpRead(dp: Dp, link: Link, addr: bv16, apnDp: bv16, rdbuff: bv16) returns (r: Access)
    modifies dp`fault, link`requests
    ensures var n := |old(link.requests)|;
      if addr & apnDp != 0 then
        if link.answer(n).res == Wait then
          link.requests == old(link.requests) + [ReadReg(addr)] &&
          r == Transient && dp.fault == old(dp.fault)
        else
          link.requests == old(link.requests) + [ReadReg(addr), ReadReg(rdbuff)] &&
          r == LowAccessResult(AdiV5LowRead, link.answer(n + 1)) &&
          dp.fault == FaultAfter(FaultAfter(old(dp.fault), link.answer(n)), link.answer(n + 1))
      else
        link.requests == old(link.requests) + [ReadReg(addr)] &&
        r == LowAccessResult(AdiV5LowRead, link.answer(n)) &&
        dp.fault == FaultAfter(old(dp.fault), link.answer(n))
  {
    if addr & apnDp != 0 {
      var primed := SwdpLowAccess(dp, link, AdiV5LowRead, addr, 0);
      if primed == Transient {
        r := Transient;
        return;
      }
      r := SwdpLowAccess(dp, link, AdiV5LowRead, rdbuff, 0);
    } else {
      r := SwdpLowAccess(dp, link, AdiV5LowRead, addr, 0);
    }
  }

  /**
   * When the probe's status byte is classified as the command channel
   * classifies it (`ErrorCheck`), status 0x10 or 0x14 raises the timeout, 0x80 returns
   * normally without touching the fault, and 0x81 sets the fault and
   * returns 0. That `stlink_read_dp_register` passes its status through
   * `ErrorCheck` is an assumption: its body is not part of this model.
   */
  lemma StatusScenario(rnw: byte, value: bv32, fault: int)
    ensures LowAccessResult(rnw, RegReply(ErrorCheck(SwdDpWait), value)) == Transient
    ensures LowAccessResult(rnw, RegReply(ErrorCheck(SwdApWait), value)) == Transient
    ensures LowAccessResult(rnw, RegReply(ErrorCheck(DebugErrOk), value)).Value?
    ensures FaultAfter(fault, RegReply(ErrorCheck(DebugErrOk), value)) == fault
    ensures LowAccessResult(rnw, RegReply(ErrorCheck(DebugErrFault), value)) == Value(0)
    ensures FaultAfter(fault, RegReply(ErrorCheck(DebugErrFault), value)) == 1
  {
  }

  /**
   * The SW-DP scan: a fresh, zeroed record with the probe's core ID, whose
   * `read` and `low_access` are the SW-DP ones and whose `error` and
   * `abort` stay unbound, and whose sticky fault is still 0. The record is
   * then handed to the ADIv5 layer (`adiv5_dp_init`), which is not part of
   * this model, so the contract describes the record at that hand-off; the
   * scan returns 0.
   */
  method SwdpScan(coreId: bv32) returns (dp: Dp, r: int)
    ensures fresh(dp)
    ensures dp.idcode == coreId && dp.fault == 0 && dp.dev == None
    ensures dp.ops == OpTable(Some(SwDp), None, Some(SwDp), None) && BoundTo(dp.ops, SwDp)
    ensures r == 0
  {
    dp := new Dp();
    dp.idcode := coreId;
    dp.ops := dp.ops.(dpRead := Some(SwDp));
    dp.ops := dp.ops.(lowAccess := Some(SwDp));
    r := 0;
  }
}
