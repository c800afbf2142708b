/**
 * The JTAG chain scanner of the ST-Link v2 JTAG-DP: it clears the global
 * device array, takes the chain's IDCODEs from the probe and hands each
 * device to the handler of the first entry of the device-description
 * table whose masked IDCODE it matches. The table ends at an entry
 * whose IDCODE is 0.
 *
 * The probe calls (entering JTAG debug mode, reading the IDCODEs), the
 * table and every handler other than the ADIv5 JTAG-DP one are not part
 * of this model: they become parameters, and a ghost log records which
 * handler every device was given to.
 */
module JtagDp {
  import opened Basics
  import opened Adiv5

  /** A handler a table entry may name: the ADIv5 JTAG-DP one of this file, or another one. */
  datatype Handler = AdiV5JtagDpHandler | OtherHandler(id: nat)

  /** One entry of `dev_descr[]`: value, mask and an optional (nullable) handler. */
  datatype DevDescr = DevDescr(idcode: bv32, idmask: bv32, handler: Option<Handler>)

  /** One element of `jtag_devs[]`; its other fields are not used by this file. */
  datatype JtagDev = JtagDev(idcode: bv32)

  /** Device `dev` of the chain was handed to `handler`. */
  datatype Claim = Claim(dev: nat, handler: Handler)

  /** The table as C writes it: its last entry is the zero sentinel. */
  predicate WellFormed(descr: seq<DevDescr>)
  {
    |descr| > 0 && descr[|descr| - 1].idcode == 0
  }

  /** The first sentinel at or after `j`. */
  function SentinelFrom(descr: seq<DevDescr>, j: nat): (e: nat)
    requires WellFormed(descr) && j < |descr|
    decreases |descr| - j
    ensures j <= e < |descr| && descr[e].idcode == 0
    ensures forall k :: j <= k < e ==> descr[k].idcode != 0
  {
    if descr[j].idcode == 0 then j else SentinelFrom(descr, j + 1)
  }

  /** Where the table search stops: the first entry whose IDCODE is 0. */
  function TableEnd(descr: seq<DevDescr>): (e: nat)
    requires WellFormed(descr)
    ensures e < |descr| && descr[e].idcode == 0
    ensures forall k :: 0 <= k < e ==> descr[k].idcode != 0
  {
    SentinelFrom(descr, 0)
  }

  predicate Matches(id: bv32, d: DevDescr)
  {
    id & d.idmask == d.idcode
  }

  /**
   * The table search from entry `j`: the first matching entry before the
   * sentinel, or None when nothing before the sentinel matches.
   */
  function FirstMatchFrom(descr: seq<DevDescr>, id: bv32, j: nat): (r: Option<nat>)
    requires WellFormed(descr) && j <= TableEnd(descr)
    decreases TableEnd(descr) - j
    ensures r.Some? ==> j <= r.value < TableEnd(descr) && Matches(id, descr[r.value])
    ensures r.Some? ==> forall k :: j <= k < r.value ==> !Matches(id, descr[k])
    ensures r.None? ==> forall k :: j <= k < TableEnd(descr) ==> !Matches(id, descr[k])
  {
    if descr[j].idcode == 0 then None
    else if Matches(id, descr[j]) then Some(j)
    else FirstMatchFrom(descr, id, j + 1)
  }

  function FirstMatch(descr: seq<DevDescr>, id: bv32): Option<nat>
    requires WellFormed(descr)
  {
    FirstMatchFrom(descr, id, 0)
  }

  /** The handler call, if any, that device `i` with IDCODE `id` causes. */
  function ClaimOf(descr: seq<DevDescr>, i: nat, id: bv32): seq<Claim>
    requires WellFormed(descr)
  {
    match FirstMatch(descr, id)
    case None => []
    case Some(j) => if descr[j].handler.Some? then [Claim(i, descr[j].handler.value)] else []
  }

  /**
   * The handler calls of a scan of the chain `ids`, in chain order: every
   * claimed device is on the chain, and device numbers strictly increase,
   * so no device is claimed twice.
   */
  function ClaimsFor(descr: seq<DevDescr>, ids: seq<bv32>): (r: seq<Claim>)
    requires WellFormed(descr)
    ensures forall p :: 0 <= p < |r| ==> r[p].dev < |ids|
    ensures forall p, q :: 0 <= p < q < |r| ==> r[p].dev < r[q].dev
  {
    if |ids| == 0 then []
    else ClaimsFor(descr, ids[..|ids| - 1]) + ClaimOf(descr, |ids| - 1, ids[|ids| - 1])
  }

  /**
   * Device `i` is handed to `h` exactly when it is on the chain, some
   * entry before the sentinel matches it, and the first such entry names
   * `h`. A device that matches nothing, or whose first match has a null
   * handler, is not claimed.
   */
  lemma {:induction false} ClaimedIff(descr: seq<DevDescr>, ids: seq<bv32>, i: nat, h: Handler)
    requires WellFormed(descr)
    ensures Claim(i, h) in ClaimsFor(descr, ids) <==>
      i < |ids| && FirstMatch(descr, ids[i]).Some? &&
      descr[FirstMatch(descr, ids[i]).value].handler == Some(h)
  {
    if |ids| > 0 {
      var front := ids[..|ids| - 1];
      ClaimedIff(descr, front, i, h);
      assert ClaimsFor(descr, ids) == ClaimsFor(descr, front) + ClaimOf(descr, |ids| - 1, ids[|ids| - 1]);
      if i < |ids| - 1 {
        assert front[i] == ids[i];
      }
    }
  }

  /**
   * The inner loop of the scan: walk the table up to the sentinel and stop
   * at the first entry whose masked IDCODE matches; later entries are not
   * examined.
   */
  method TableSearch(descr: seq<DevDescr>, id: bv32) returns (r: Option<nat>)
    requires WellFormed(descr)
    ensures r == FirstMatch(descr, id)
  {
    var j := 0;
    while descr[j].idcode != 0
      invariant 0 <= j <= TableEnd(descr)
      invariant FirstMatchFrom(descr, id, j) == FirstMatch(descr, id)
      decreases TableEnd(descr) - j
    {
      if Matches(id, descr[j]) {
        return Some(j);
      }
      j := j + 1;
    }
    return None;
  }

  /** The global chain: `jtag_devs[JTAG_MAX_DEVS+1]` and `jtag_dev_count`. */
  class JtagChain {
    const devs: array<JtagDev>
    var count: int
    ghost var claims: seq<Claim>

    constructor (maxDevs: nat)
      ensures fresh(devs) && devs.Length == maxDevs + 1
      ensures forall k :: 0 <= k < devs.Length ==> devs[k] == JtagDev(0)
      ensures count == 0 && claims == []
    {
      devs := new JtagDev[maxDevs + 1](_ => JtagDev(0));
      count := 0;
      claims := [];
    }

    /**
     * The ADIv5 JTAG-DP handler: a fresh DP for device `i` carrying its
     * IDCODE, with all four operations bound to the JTAG-DP ones and its
     * sticky fault still 0. The DP is then handed to the ADIv5 layer
     * (`adiv5_dp_init`), which is not part of this model, so the contract
     * describes the DP at that hand-off.
     */
    method AdiV5JtagDp(i: nat) returns (dp: Dp)
      requires i < devs.Length
      ensures fresh(dp)
      ensures dp.dev == Some(i) && dp.idcode == devs[i].idcode && dp.fault == 0
      ensures dp.ops == OpTable(Some(JtagDp), Some(JtagDp), Some(JtagDp), Some(JtagDp))
      ensures BoundTo(dp.ops, JtagDp)
    {
      dp := new Dp();
      dp.dev := Some(i);
      dp.idcode := devs[i].idcode;
      dp.ops := OpTable(Some(JtagDp), Some(JtagDp), Some(JtagDp), Some(JtagDp));
    }

    /** `jtag_dev_count = 0` and the `memset` of the whole array. */
    method Reset()
      modifies this`count, devs
      ensures count == 0
      ensures forall k :: 0 <= k < devs.Length ==> devs[k] == JtagDev(0)
    {
      count := 0;
      var k := 0;
      while k < devs.Length
        invariant 0 <= k <= devs.Length
        invariant count == 0
        invariant forall m :: 0 <= m < k ==> devs[m] == JtagDev(0)
      {
        devs[k] := JtagDev(0);
        k := k + 1;
      }
    }

    /**
     * The device count is the number of IDCODEs; device k gets the k-th, in
     * chain order. The bound on `idcodes` is not checked by the code: it
     * holds because the caller's buffer has JTAG_MAX_DEVS+1 entries, as
     * many as the device array.
     */
    method Fill(idcodes: seq<bv32>)
      requires |idcodes| <= devs.Length
      requires forall k :: 0 <= k < devs.Length ==> devs[k] == JtagDev(0)
      modifies this`count, devs
      ensures count == |idcodes|
      ensures forall k :: 0 <= k < |idcodes| ==> devs[k] == JtagDev(idcodes[k])
      ensures forall k :: |idcodes| <= k < devs.Length ==> devs[k] == JtagDev(0)
    {
      count := |idcodes|;
      var k := 0;
      while k < count
        invariant 0 <= k <= count == |idcodes|
        invariant forall m :: 0 <= m < k ==> devs[m] == JtagDev(idcodes[m])
        invariant forall m :: k <= m < devs.Length ==> devs[m] == JtagDev(0)
      {
        devs[k] := JtagDev(idcodes[k]);
        k := k + 1;
      }
    }

    /**
     * The classification of device `i`: the table walk, then the call of
     * the matching entry's handler when there is one.
     */
    method Classify(descr: seq<DevDescr>, i: nat)
      requires WellFormed(descr) && i < devs.Length
      modifies this`claims
      ensures claims == old(claims) + ClaimOf(descr, i, devs[i].idcode)
    {
      var m := TableSearch(descr, devs[i].idcode);
      if m.Some? && descr[m.value].handler.Some? {
        if descr[m.value].handler.value == AdiV5JtagDpHandler {
          var dp := AdiV5JtagDp(i);
        }
        claims := claims + [Claim(i, descr[m.value].handler.value)];
      }
    }
    /** The outer loop of the classification: every device of the chain, in chain order. */
    method ClassifyAll(descr: seq<DevDescr>, idcodes: seq<bv32>)
      requires WellFormed(descr) && |idcodes| <= devs.Length
      requires forall m :: 0 <= m < |idcodes| ==> devs[m] == JtagDev(idcodes[m])
      modifies this`claims
      ensures claims == old(claims) + ClaimsFor(descr, idcodes)
    {
      var i := 0;
      while i < |idcodes|
        invariant 0 <= i <= |idcodes|
        invariant claims == old(claims) + ClaimsFor(descr, idcodes[..i])
      {
        Classify(descr, i);
        assert idcodes[..i + 1][..i] == idcodes[..i];
        i := i + 1;
      }
      assert idcodes[..i] == idcodes;
    }

    /**
     * The scan. `enterFailed` is the probe's refusal to enter JTAG debug
     * mode and `idcodes` the IDCODEs it reports, in chain order. The count
     * and the whole array are cleared first; on refusal the scan returns 0
     * with the chain empty. Otherwise device k gets `idcodes[k]`, the rest
     * of the array stays zero, the handler calls are those of `ClaimsFor`,
     * and the device count is returned. At most JTAG_MAX_DEVS+1 IDCODEs
     * arrive, the size of the buffer the code passes to the probe.
     */
    method JtagScan(descr: seq<DevDescr>, enterFailed: bool, idcodes: seq<bv32>) returns (r: int)
      requires WellFormed(descr)
      requires |idcodes| <= devs.Length
      modifies this, devs
      ensures enterFailed ==> r == 0 && count == 0 && claims == old(claims)
      ensures enterFailed ==> forall k :: 0 <= k < devs.Length ==> devs[k] == JtagDev(0)
      ensures !enterFailed ==> r == count == |idcodes|
      ensures !enterFailed ==> forall k :: 0 <= k < |idcodes| ==> devs[k] == JtagDev(idcodes[k])
      ensures !enterFailed ==> forall k :: |idcodes| <= k < devs.Length ==> devs[k] == JtagDev(0)
      ensures !enterFailed ==> claims == old(claims) + ClaimsFor(descr, idcodes)
    {
      Reset();
      if enterFailed {
        return 0;
      }
      Fill(idcodes);
      ClassifyAll(descr, idcodes);
      r := count;
    }
  }
}
