/**
 * The debug-port record `ADIv5_DP_t` that both transports fill in: the
 * identifier, the sticky fault flag, the JTAG device it belongs to (an
 * index into the chain's device array) and the table of bound operations.
 */
module Adiv5 {
  import opened Basics

  /** The implementation an operation of the table is bound to. */
  datatype Transport = SwDp | JtagDp

  /** The four operation slots `dp_read`, `error`, `low_access` and `abort`; None is a null pointer. */
  datatype OpTable = OpTable(dpRead: Option<Transport>, error: Option<Transport>,
                             lowAccess: Option<Transport>, abort: Option<Transport>)

  /** The record as `calloc` returns it: everything zero, no operation bound. */
  const NoOps := OpTable(None, None, None, None)

  /** Every bound slot of `ops` belongs to transport `t`, and `read` and `low_access` are bound. */
  predicate BoundTo(ops: OpTable, t: Transport)
  {
    ops.dpRead == Some(t) && ops.lowAccess == Some(t) &&
    (ops.error.Some? ==> ops.error == Some(t)) && (ops.abort.Some? ==> ops.abort == Some(t))
  }

  class Dp {
    var idcode: bv32
    var fault: int
    var dev: Option<nat>
    var ops: OpTable

    constructor ()
      ensures idcode == 0 && fault == 0 && dev == None && ops == NoOps
    {
      idcode, fault, dev, ops := 0, 0, None, NoOps;
    }
  }
}
