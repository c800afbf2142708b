/**
 * The state of the FTDI bit-bang platform: the active cable (its fixed
 * description and the four bus bytes the reset operations update in
 * place), the 4096-byte output buffer with
 * its fill pointer, and two ghost logs. `issued` is every byte handed to
 * the buffer, in order; `sent` is every USB write a flush made, in order.
 * The invariant `Valid` ties them together: what was sent followed by what
 * is still pending is exactly what was issued.
 */
module FtdiPlatform {
  import opened Basics
  import opened FtdiCable

  const BufSize: nat := 4096

  /** The bytes of a sequence of USB writes, in order. */
  function Flatten(chunks: seq<seq<byte>>): seq<byte>
  {
    if |chunks| == 0 then [] else Flatten(chunks[..|chunks| - 1]) + chunks[|chunks| - 1]
  }

  /** One more write appends its bytes. */
  lemma FlattenAppend(chunks: seq<seq<byte>>, c: seq<byte>)
    ensures Flatten(chunks + [c]) == Flatten(chunks) + c
  {
    assert (chunks + [c])[..|chunks|] == chunks;
  }

  class Platform {
    const desc: CableDesc
    var dbusData: byte
    var dbusDdr: byte
    var cbusData: byte
    var cbusDdr: byte
    const outbuf: array<byte>
    var bufptr: nat
    ghost var sent: seq<seq<byte>>
    ghost var issued: seq<byte>

    /** The current bus bytes of the active cable. */
    function Bus(): Bus
      reads this`dbusData, this`dbusDdr, this`cbusData, this`cbusDdr
    {
      FtdiCable.Bus(dbusData, dbusDdr, cbusData, cbusDdr)
    }

    ghost predicate Valid()
      reads this`bufptr, this`sent, this`issued, outbuf
    {
      outbuf.Length == BufSize && bufptr <= BufSize && Flatten(sent) + outbuf[..bufptr] == issued
    }

    /** The platform once a cable is selected: an empty buffer and nothing issued yet. */
    constructor (c: CableDesc)
      ensures Valid() && fresh(outbuf)
      ensures desc == c && Bus() == BusOf(c) && bufptr == 0 && sent == [] && issued == []
    {
      desc := c;
      dbusData, dbusDdr, cbusData, cbusDdr := c.dbusData, c.dbusDdr, c.cbusData, c.cbusDdr;
      outbuf := new byte[BufSize];
      bufptr := 0;
      sent, issued := [], [];
    }

    /** `platform_buffer_flush`: one USB write of exactly the pending bytes, after which nothing is pending. */
    method Flush()
      requires Valid()
      modifies this`bufptr, this`sent
      ensures Valid()
      ensures sent == old(sent) + [old(outbuf[..bufptr])] && bufptr == 0
      ensures Flatten(sent) == issued
    {
      FlattenAppend(sent, outbuf[..bufptr]);
      sent := sent + [outbuf[..bufptr]];
      bufptr := 0;
    }

    /**
     * `platform_buffer_write`: flush first exactly when the bytes would
     * reach the end of the buffer, then append them; returns the size.
     */
    method Write(data: seq<byte>) returns (n: int)
      requires Valid() && |data| <= BufSize
      modifies this`bufptr, this`sent, this`issued, outbuf
      ensures Valid() && n == |data|
      ensures issued == old(issued) + data
      ensures old(bufptr) + |data| >= BufSize ==>
        sent == old(sent) + [old(outbuf[..bufptr])] && outbuf[..bufptr] == data
      ensures old(bufptr) + |data| < BufSize ==>
        sent == old(sent) && outbuf[..bufptr] == old(outbuf[..bufptr]) + data
      ensures |data| < BufSize ==> bufptr < BufSize
    {
      if (bufptr + |data|) / BufSize > 0 {
        Flush();
      }
      Append(data);
      n := |data|;
    }

    /** The `memcpy` of a write: the bytes go after the pending ones, nothing is sent. */
    method Append(data: seq<byte>)
      requires Valid() && bufptr + |data| <= BufSize
      modifies this`bufptr, this`issued, outbuf
      ensures Valid() && sent == old(sent)
      ensures issued == old(issued) + data
      ensures outbuf[..bufptr] == old(outbuf[..bufptr]) + data
    {
      ghost var pending := outbuf[..bufptr];
      var i := 0;
      while i < |data|
        invariant 0 <= i <= |data| && bufptr == old(bufptr) && issued == old(issued)
        invariant outbuf[..bufptr + i] == pending + data[..i]
      {
        outbuf[bufptr + i] := data[i];
        assert outbuf[..bufptr + i + 1] == outbuf[..bufptr + i] + [data[i]];
        assert data[..i + 1] == data[..i] + [data[i]];
        i := i + 1;
      }
      assert data[..|data|] == data;
      bufptr := bufptr + |data|;
      issued := issued + data;
    }

    /**
     * `platform_buffer_read`: append SEND_IMMEDIATE and flush, so every
     * byte issued before the read has been sent when the reply is read;
     * `incoming` is what the device delivers and its length is the size.
     */
    method Read(incoming: seq<byte>) returns (data: seq<byte>, n: int)
      requires Valid() && bufptr < BufSize
      modifies this`bufptr, this`sent, this`issued, outbuf
      ensures Valid() && bufptr == 0
      ensures issued == old(issued) + [SendImmediate] && Flatten(sent) == issued
      ensures sent == old(sent) + [old(outbuf[..bufptr]) + [SendImmediate]]
      ensures data == incoming && n == |incoming|
    {
      outbuf[bufptr] := SendImmediate;
      assert outbuf[..bufptr + 1] == old(outbuf[..bufptr]) + [SendImmediate];
      bufptr := bufptr + 1;
      issued := issued + [SendImmediate];
      Flush();
      data, n := incoming, |incoming|;
    }

    /**
     * `platform_set_data`: merge the descriptor into the tracked bytes of
     * each active group, appending the SET_BITS command of that group, and
     * write and flush the command when it is not empty. Fields are merged
     * as the code writes it: in an active group a zero field clears its byte.
     */
    method SetData(d: DataDesc)
      requires Valid()
      modifies this`dbusData, this`dbusDdr, this`cbusData, this`cbusDdr
      modifies this`bufptr, this`sent, this`issued, outbuf
      ensures Valid()
      ensures Bus() == ApplyDataAsWritten(old(Bus()), d)
      ensures issued == old(issued) + SetDataCommand(Bus(), d)
      ensures SetDataCommand(Bus(), d) != [] ==> bufptr == 0 && Flatten(sent) == issued && old(sent) <= sent
      ensures SetDataCommand(Bus(), d) == [] ==> sent == old(sent) && bufptr == old(bufptr)
    {
      var cmd := MergeData(d);
      if |cmd| > 0 {
        WriteAndFlush(cmd);
      }
    }

    /** A write immediately followed by a flush: afterwards everything issued has been sent. */
    method WriteAndFlush(cmd: seq<byte>)
      requires Valid() && |cmd| <= BufSize
      modifies this`bufptr, this`sent, this`issued, outbuf
      ensures Valid() && issued == old(issued) + cmd
      ensures bufptr == 0 && Flatten(sent) == issued && old(sent) <= sent
    {
      var _ := Write(cmd);
      Flush();
    }

    /**
     * The merging half of `platform_set_data`: merge the fields of each
     * active group into its bytes (`MergeAsWritten`), building the command in `cmd[6]`.
     */
    method MergeData(d: DataDesc) returns (command: seq<byte>)
      modifies this`dbusData, this`dbusDdr, this`cbusData, this`cbusDdr
      ensures Bus() == ApplyDataAsWritten(old(Bus()), d)
      ensures command == SetDataCommand(Bus(), d)
    {
      var cmd := new byte[6];
      var index := 0;
      if LowActive(d) {
        dbusData := MergeAsWritten(dbusData, d.dataLow);
        dbusDdr := MergeAsWritten(dbusDdr, d.ddrLow);
        index := Put3(cmd, index, SetBitsLow, dbusData, dbusDdr);
      }
      ghost var low := if LowActive(d) then [SetBitsLow, dbusData, dbusDdr] else [];
      assert cmd[..index] == low;
      if HighActive(d) {
        cbusData := MergeAsWritten(cbusData, d.dataHigh);
        cbusDdr := MergeAsWritten(cbusDdr, d.ddrHigh);
        index := Put3(cmd, index, SetBitsHigh, cbusData, cbusDdr);
      }
      command := cmd[..index];
    }

    /** `platform_srst_set_val`: apply the cable's assert or release descriptor. */
    method SrstSetVal(assert_: bool)
      requires Valid()
      modifies this`dbusData, this`dbusDdr, this`cbusData, this`cbusDdr
      modifies this`bufptr, this`sent, this`issued, outbuf
      ensures Valid()
      ensures var d := if assert_ then desc.assertSrst else desc.deassertSrst;
        Bus() == ApplyDataAsWritten(old(Bus()), d) && issued == old(issued) + SetDataCommand(Bus(), d)
      ensures var d := if assert_ then desc.assertSrst else desc.deassertSrst;
        SetDataCommand(Bus(), d) != [] ==> bufptr == 0 && Flatten(sent) == issued && old(sent) <= sent
      ensures var d := if assert_ then desc.assertSrst else desc.deassertSrst;
        SetDataCommand(Bus(), d) == [] ==> sent == old(sent) && bufptr == old(bufptr)
    {
      if assert_ {
        SetData(desc.assertSrst);
      } else {
        SetData(desc.deassertSrst);
      }
    }

    /**
     * `platform_srst_get_val`: pick the read-back command and pin by
     * priority (`ReadbackPin`), issue the command, read one byte (`incoming`) and
     * interpret it by the pin convention; without a read-back pin, report
     * "not asserted" and touch nothing.
     */
    method SrstGetVal(incoming: byte) returns (res: bool)
      requires Valid()
      modifies this`bufptr, this`sent, this`issued, outbuf
      ensures Valid()
      ensures ReadbackPin(desc).None? ==>
        !res && issued == old(issued) && sent == old(sent) && bufptr == old(bufptr)
      ensures ReadbackPin(desc).Some? ==>
        res == PinAsserted(ReadbackPin(desc).value.pin, incoming) &&
        issued == old(issued) + [ReadbackPin(desc).value.cmd, SendImmediate] &&
        Flatten(sent) == issued && bufptr == 0
    {
      match ReadbackPin(desc)
      case None =>
        return false;
      case Some(rb) =>
        ghost var before := issued;
        var _ := Write([rb.cmd]);
        var data, _ := Read([incoming]);
        assert issued == before + [rb.cmd] + [SendImmediate];
        res := PinAsserted(rb.pin, data[0]);
    }
  }

  /** `cmd[index++] = x; cmd[index++] = y; cmd[index++] = z;` */
  method Put3(cmd: array<byte>, index: nat, x: byte, y: byte, z: byte) returns (next: nat)
    requires index + 3 <= cmd.Length
    modifies cmd
    ensures next == index + 3 && cmd[..next] == old(cmd[..index]) + [x, y, z]
  {
    cmd[index], cmd[index + 1], cmd[index + 2] := x, y, z;
    next := index + 3;
  }

  /** The name lookup: the first entry of `table` named `name`, or `|table|` when there is none. */
  method LookupCable(table: seq<CableDesc>, name: string) returns (index: nat)
    ensures index <= |table|
    ensures index < |table| ==> table[index].name == name
    ensures forall k :: 0 <= k < index ==> table[k].name != name
  {
    index := 0;
    while index < |table|
      invariant index <= |table|
      invariant forall k :: 0 <= k < index ==> table[k].name != name
    {
      if table[index].name == name {
        break;
      }
      index := index + 1;
    }
  }

  /**
   * Cable selection of `platform_init`: the first table entry of the
   * given name becomes the active cable, and the platform starts from that
   * entry's bus bytes; with no such entry the program exits, modelled as a
   * null platform.
   */
  method Init(name: string) returns (p: Platform?, index: nat)
    ensures index <= |CableTable|
    ensures forall k :: 0 <= k < index ==> CableTable[k].name != name
    ensures p == null <==> index == |CableTable|
    ensures p != null ==> (fresh(p) && fresh(p.outbuf) && p.Valid() && p.desc == CableTable[index] &&
                           p.desc.name == name && p.Bus() == BusOf(CableTable[index]) &&
                           p.bufptr == 0 && p.issued == [] && p.sent == [])
  {
    index := LookupCable(CableTable, name);
    if index == |CableTable| {
      return null, index;
    }
    p := new Platform(CableTable[index]);
  }

  /** Without a name the platform selects the entry "ftdi". */
  lemma DefaultSelectsFtdi(index: nat)
    requires index <= |CableTable| && forall k :: 0 <= k < index ==> CableTable[k].name != DefaultCableName
    requires index < |CableTable| ==> CableTable[index].name == DefaultCableName
    ensures index == 8 && CableTable[index] == Ftdi
  {
    DefaultCableIsFtdi();
  }
}
