/** The Modbus <-> FDX bridge of the main window (main.py).

    Outbound, the registers a holding-register read returned are packed as
    16-bit words and sent as a data-exchange command whose group id is the
    slave id.  Inbound, a data-exchange command whose group id is one of the
    two configured "write" groups is decoded into a single- or multi-register
    write and queued for the Modbus client, unless it repeats the last write
    forwarded for that group. */
module Bridge {
  import opened Bytes
  import Fdx
  import ModbusRtu

  /** What `list_to_bytes_struct_direct` raises: `ValueError` for an item
      above 0xFFFF, `struct.error` for a negative one. */
  datatype PackError = TooLarge | OutOfRange

  /** `struct.error` from `struct.unpack` on a buffer of the wrong length. */
  datatype UnpackError = StructError

  predicate AllWords(xs: seq<int>)
  {
    forall i :: 0 <= i < |xs| ==> IsU16(xs[i])
  }

  function PackErrorFor(x: int): PackError
  {
    if x > 0xFFFF then TooLarge else OutOfRange
  }

  /** `list_to_bytes_struct_direct` as a function: each item as one 16-bit
      word in `order`, failing on the first item that does not fit. */
  function PackWords(xs: seq<int>, order: ByteOrder): (r: Result<seq<Byte>, PackError>)
    ensures r.Success? <==> AllWords(xs)
    ensures r.Success? ==> |r.value| == 2 * |xs|
    ensures r.Success? ==> forall i :: 0 <= i < |xs| ==> WordValue(r.value[2 * i], r.value[2 * i + 1], order) == xs[i]
    ensures r.Failure? ==> exists i :: 0 <= i < |xs| && !IsU16(xs[i]) && AllWords(xs[..i]) && r.error == PackErrorFor(xs[i])
    decreases |xs|
  {
    if xs == [] then Success([])
    else
      var n := |xs| - 1;
      var earlier := PackWords(xs[..n], order);
      assert xs[..n][..n] == xs[..n];
      if earlier.Failure? then
        ghost var i :| 0 <= i < n && !IsU16(xs[..n][i]) && AllWords(xs[..n][..i]) && earlier.error == PackErrorFor(xs[..n][i]);
        assert xs[..n][..i] == xs[..i];
        earlier
      else if xs[n] > 0xFFFF then Failure(TooLarge)
      else if xs[n] < 0 then Failure(OutOfRange)
      else
        var r := earlier.value + Word(xs[n], order);
        assert forall i :: 0 <= i < n ==> r[2 * i] == earlier.value[2 * i] && r[2 * i + 1] == earlier.value[2 * i + 1];
        Success(r)
  }

  /** `struct.unpack` with `n` words (`'>nH'` or `'<nH'`): the buffer must
      hold exactly `2 * n` bytes. */
  function UnpackWords(b: seq<Byte>, n: nat, order: ByteOrder): (r: Result<seq<int>, UnpackError>)
    ensures r.Success? <==> |b| == 2 * n
    ensures r.Success? ==> |r.value| == n && AllWords(r.value)
    ensures r.Success? ==> forall i :: 0 <= i < n ==> r.value[i] == WordValue(b[2 * i], b[2 * i + 1], order)
  {
    if |b| != 2 * n then Failure(StructError)
    else Success(seq(n, i requires 0 <= i < n => WordValue(b[2 * i], b[2 * i + 1], order)))
  }

  /** Unpacking what was packed, in the same order, gives the list back. */
  lemma UnpackPackedWords(xs: seq<int>, order: ByteOrder)
    requires AllWords(xs)
    ensures UnpackWords(PackWords(xs, order).value, |xs|, order) == Success(xs)
  {
    var u := UnpackWords(PackWords(xs, order).value, |xs|, order);
    assert u.value == xs;
  }

  /** Packing what was unpacked gives the bytes back. */
  lemma {:induction false} PackUnpackedWords(b: seq<Byte>, order: ByteOrder)
    requires |b| % 2 == 0
    ensures PackWords(UnpackWords(b, |b| / 2, order).value, order) == Success(b)
  {
    var xs := UnpackWords(b, |b| / 2, order).value;
    var p := PackWords(xs, order).value;
    assert |p| == |b|;
    forall k | 0 <= k < |b|
      ensures p[k] == b[k]
    {
      var i := k / 2;
      WordOfWordValue(b[2 * i], b[2 * i + 1], order);
      WordOfWordValue(p[2 * i], p[2 * i + 1], order);
      assert WordValue(p[2 * i], p[2 * i + 1], order) == xs[i] == WordValue(b[2 * i], b[2 * i + 1], order);
      assert [p[2 * i], p[2 * i + 1]] == [b[2 * i], b[2 * i + 1]];
      assert k == 2 * i || k == 2 * i + 1;
    }
    assert p == b;
  }

  /** `list_to_bytes_struct_direct(input_list, byte_oder)`: the accumulator
      loop, proved to compute `PackWords`. */
  method ListToBytesStructDirect(inputList: seq<int>, byteOrder: string) returns (r: Result<seq<Byte>, PackError>)
    ensures r == PackWords(inputList, ByteOrderOf(byteOrder))
  {
    var order := ByteOrderOf(byteOrder);
    var outputBytes: seq<Byte> := [];
    for i := 0 to |inputList|
      invariant PackWords(inputList[..i], order) == Success(outputBytes)
    {
      var item := inputList[i];
      assert inputList[..i + 1][..i] == inputList[..i];
      if item > 0xFFFF || item < 0 {
        r := if item > 0xFFFF then Failure(TooLarge) else Failure(OutOfRange);
        assert PackWords(inputList[..i + 1], order) == r;
        PackFailureExtends(inputList[..i + 1], inputList[i + 1..], order);
        assert inputList[..i + 1] + inputList[i + 1..] == inputList;
        return;
      }
      outputBytes := outputBytes + Word(item, order);
    }
    assert inputList[..|inputList|] == inputList;
    r := Success(outputBytes);
  }

  /** Once a prefix fails to pack, the whole list fails with the same error. */
  lemma {:induction false} PackFailureExtends(xs: seq<int>, ys: seq<int>, order: ByteOrder)
    requires PackWords(xs, order).Failure?
    ensures PackWords(xs + ys, order) == PackWords(xs, order)
    decreases |ys|
  {
    if ys == [] {
      assert xs + ys == xs;
    } else {
      var n := |ys| - 1;
      PackFailureExtends(xs, ys[..n], order);
      assert (xs + ys)[..|xs + ys| - 1] == xs + ys[..n];
    }
  }

  /** Python's `b[:n]`. */
  function Take(b: seq<Byte>, n: nat): (r: seq<Byte>)
    ensures |r| == if n <= |b| then n else |b|
    ensures r == b[..|r|]
  {
    if n <= |b| then b[..n] else b
  }

  /** The fields of an inbound data-exchange command the handlers read. */
  datatype DataExchangeParams = DataExchangeParams(groupId: int, dataSize: nat, dataBytes: seq<Byte>)

  /** A single-register write: (slave, address, value). */
  datatype RegisterWrite = RegisterWrite(slave: int, address: int, value: int)

  /** A multi-register write: (slave, address, register_num, values). */
  datatype RegistersWrite = RegistersWrite(slave: int, address: int, registerNum: int, values: seq<int>)

  /** How decoding a multi-register write ends: `struct.unpack` raised, the
      declared size is too small for the register count (the handler
      returns), or a write. */
  datatype RegistersDecode = Malformed | Undersized | Decoded(write: RegistersWrite)

  /** The payload of a single-register write: `databytes[:datasize]` must
      be exactly three words. */
  function DecodeWriteRegister(p: DataExchangeParams, order: ByteOrder): (r: Result<RegisterWrite, UnpackError>)
    ensures r.Success? <==> |Take(p.dataBytes, p.dataSize)| == 6
    ensures r.Success? ==> r.value == RegisterWrite(
      WordValue(p.dataBytes[0], p.dataBytes[1], order),
      WordValue(p.dataBytes[2], p.dataBytes[3], order),
      WordValue(p.dataBytes[4], p.dataBytes[5], order))
  {
    var words := UnpackWords(Take(p.dataBytes, p.dataSize), 3, order);
    if words.Failure? then Failure(words.error)
    else Success(RegisterWrite(words.value[0], words.value[1], words.value[2]))
  }

  /** The payload of a multi-register write: three words (slave, address,
      register count) from `databytes[:6]`, then, if `datasize` covers them,
      that many words from byte 6. */
  function DecodeWriteRegisters(p: DataExchangeParams, order: ByteOrder): (r: RegistersDecode)
    ensures |p.dataBytes| < 6 ==> r.Malformed?
    ensures |p.dataBytes| >= 6 ==>
      var b := p.dataBytes;
      var n := WordValue(b[4], b[5], order);
      && (r.Undersized? <==> p.dataSize < 2 * n + 6)
      && (r.Malformed? <==> p.dataSize >= 2 * n + 6 && |b| < 2 * n + 6)
      && (r.Decoded? ==>
            && r.write.slave == WordValue(b[0], b[1], order)
            && r.write.address == WordValue(b[2], b[3], order)
            && r.write.registerNum == n
            && |r.write.values| == n
            && forall i :: 0 <= i < n ==> r.write.values[i] == WordValue(b[6 + 2 * i], b[7 + 2 * i], order))
  {
    var head := UnpackWords(Take(p.dataBytes, 6), 3, order);
    if head.Failure? then Malformed
    else
      var n := head.value[2];
      if p.dataSize < n * 2 + 6 then Undersized
      else
        var data := Take(p.dataBytes, n * 2 + 6)[6..];
        var values := UnpackWords(data, n, order);
        if values.Failure? then Malformed
        else Decoded(RegistersWrite(head.value[0], head.value[1], n, values.value))
  }

  /** A single-register write packed as three words decodes back. */
  lemma WriteRegisterRoundTrip(w: RegisterWrite, groupId: int, order: ByteOrder)
    requires IsU16(w.slave) && IsU16(w.address) && IsU16(w.value)
    ensures var packed := PackWords([w.slave, w.address, w.value], order);
      && packed.Success?
      && DecodeWriteRegister(DataExchangeParams(groupId, 6, packed.value), order) == Success(w)
  {
    var xs := [w.slave, w.address, w.value];
    assert AllWords(xs);
    var packed := PackWords(xs, order).value;
    assert WordValue(packed[0], packed[1], order) == xs[0];
    assert WordValue(packed[2], packed[3], order) == xs[1];
    assert WordValue(packed[4], packed[5], order) == xs[2];
  }

  /** The words of a packed multi-register message, read back by position. */
  lemma PackedRegistersMessage(slave: int, address: int, values: seq<int>, order: ByteOrder)
    requires IsU16(slave) && IsU16(address) && IsU16(|values|) && AllWords(values)
    ensures var packed := PackWords([slave, address, |values|] + values, order);
      && packed.Success?
      && |packed.value| == 2 * |values| + 6
      && WordValue(packed.value[0], packed.value[1], order) == slave
      && WordValue(packed.value[2], packed.value[3], order) == address
      && WordValue(packed.value[4], packed.value[5], order) == |values|
      && forall i :: 0 <= i < |values| ==> WordValue(packed.value[6 + 2 * i], packed.value[7 + 2 * i], order) == values[i]
  {
    var xs := [slave, address, |values|] + values;
    assert AllWords(xs) by {
      forall i | 0 <= i < |xs| ensures IsU16(xs[i]) {
        if i >= 3 { assert xs[i] == values[i - 3]; }
      }
    }
    var b := PackWords(xs, order).value;
    assert xs[0] == slave && xs[1] == address && xs[2] == |values|;
    forall i | 0 <= i < |values|
      ensures WordValue(b[6 + 2 * i], b[7 + 2 * i], order) == values[i]
    {
      assert xs[3 + i] == values[i];
      assert 2 * (3 + i) == 6 + 2 * i;
    }
  }

  /** A multi-register write packed as slave, address, count and the values,
      with a data size that covers them, decodes back. */
  lemma WriteRegistersRoundTrip(slave: int, address: int, values: seq<int>, groupId: int, order: ByteOrder)
    requires IsU16(slave) && IsU16(address) && IsU16(|values|) && AllWords(values)
    ensures var packed := PackWords([slave, address, |values|] + values, order);
      && packed.Success?
      && DecodeWriteRegisters(DataExchangeParams(groupId, 2 * |values| + 6, packed.value), order)
         == Decoded(RegistersWrite(slave, address, |values|, values))
  {
    PackedRegistersMessage(slave, address, values, order);
    var b := PackWords([slave, address, |values|] + values, order).value;
    var r := DecodeWriteRegisters(DataExchangeParams(groupId, 2 * |values| + 6, b), order);
    assert r.Decoded?;
    assert r.write.values == values;
  }

  /** `is not None and group_id == configured`. */
  predicate GroupMatches(configured: Option<int>, groupId: int)
  {
    configured.Some? && configured.value == groupId
  }

  /** What an outbound call raised. */
  datatype BridgeError = PackFailed(packError: PackError) | FdxFailed(fdxError: Fdx.FdxError)

  /** The outbound datagram carries the slave id as its group id and the
      registers, which unpack back from the bytes after the record's header. */
  lemma OutboundDatagramCarriesRegisters(s: Fdx.FdxState, slave: int, registers: seq<int>)
    requires Fdx.WellFormed(s) && AllWords(registers)
    requires Fdx.EmitStep(s, Fdx.DataExchangeCommandBytes(slave, PackWords(registers, Big).value), false).outcome.Pass?
    ensures var data := Fdx.EmitStep(s, Fdx.DataExchangeCommandBytes(slave, PackWords(registers, Big).value), false).state.fdxData;
      && |data| == Fdx.HeaderLength + 8 + 2 * |registers|
      && U16At(data, Fdx.HeaderLength + 2) == Fdx.CommandCodeDataExchange
      && U16At(data, Fdx.HeaderLength + 4) == slave
      && UnpackWords(data[Fdx.HeaderLength + 8..], |registers|, Big) == Success(registers)
  {
    var packed := PackWords(registers, Big).value;
    var command := Fdx.DataExchangeCommandBytes(slave, packed);
    var data := Fdx.EmitStep(s, command, false).state.fdxData;
    assert data[Fdx.HeaderLength..] == command.value;
    assert data[Fdx.HeaderLength + 8..] == command.value[8..] == packed;
    assert U16At(data, Fdx.HeaderLength + 4) == U16At(command.value, 4);
    assert U16At(data, Fdx.HeaderLength + 2) == U16At(command.value, 2);
    UnpackPackedWords(registers, Big);
  }

  /** The main window's bridging state: the FDX builder, the two configured
      write groups, the last-write caches, and the write requests handed to
      the Modbus client's queue. */
  class FdxModbusBridge {
    const fdx: Fdx.VectorFdx
    const writeRegisterGroupId: Option<int>
    const writeRegistersGroupId: Option<int>
    var lastWriteRegister: Option<RegisterWrite>
    var lastWriteRegisters: Option<RegistersWrite>
    var writeQueue: seq<ModbusRtu.ModbusRequestParameter>

    /** The caches start empty: no decoded write equals them. */
    constructor (fdx: Fdx.VectorFdx, writeRegisterGroupId: Option<int>, writeRegistersGroupId: Option<int>)
      ensures this.fdx == fdx
      ensures this.writeRegisterGroupId == writeRegisterGroupId
      ensures this.writeRegistersGroupId == writeRegistersGroupId
      ensures lastWriteRegister == None && lastWriteRegisters == None && writeQueue == []
    {
      this.fdx := fdx;
      this.writeRegisterGroupId := writeRegisterGroupId;
      this.writeRegistersGroupId := writeRegistersGroupId;
      lastWriteRegister, lastWriteRegisters, writeQueue := None, None, [];
    }

    /** `write_register_by_fdx_command`: ignore other groups; decode; queue
        the write and remember it unless it equals the remembered one. */
    method WriteRegisterByFdxCommand(params: DataExchangeParams, byteOrder: string) returns (r: Outcome<UnpackError>)
      modifies this`lastWriteRegister, this`writeQueue
      ensures !GroupMatches(writeRegisterGroupId, params.groupId) ==>
        r == Pass && lastWriteRegister == old(lastWriteRegister) && writeQueue == old(writeQueue)
      ensures GroupMatches(writeRegisterGroupId, params.groupId) ==>
        var d := DecodeWriteRegister(params, ByteOrderOf(byteOrder));
        && (d.Failure? ==>
              r == Fail(StructError) && lastWriteRegister == old(lastWriteRegister) && writeQueue == old(writeQueue))
        && (d.Success? ==>
              && r == Pass
              && lastWriteRegister == Some(d.value)
              && writeQueue == old(writeQueue) +
                   if old(lastWriteRegister) == Some(d.value) then []
                   else [ModbusRtu.WriteRegisterRequest(d.value.address, d.value.value, d.value.slave, false)])
    {
      if !GroupMatches(writeRegisterGroupId, params.groupId) {
        return Pass;
      }
      var decoded := DecodeWriteRegister(params, ByteOrderOf(byteOrder));
      if decoded.Failure? {
        return Fail(StructError);
      }
      var w := decoded.value;
      if lastWriteRegister != Some(w) {
        writeQueue := writeQueue + [ModbusRtu.WriteRegisterRequest(w.address, w.value, w.slave, false)];
        lastWriteRegister := Some(w);
      }
      r := Pass;
    }

    /** `write_registers_by_fdx_command`: as above for a multi-register write;
        a declared size too small for the register count returns at once. */
    method WriteRegistersByFdxCommand(params: DataExchangeParams, byteOrder: string) returns (r: Outcome<UnpackError>)
      modifies this`lastWriteRegisters, this`writeQueue
      ensures !GroupMatches(writeRegistersGroupId, params.groupId) ==>
        r == Pass && lastWriteRegisters == old(lastWriteRegisters) && writeQueue == old(writeQueue)
      ensures GroupMatches(writeRegistersGroupId, params.groupId) ==>
        var d := DecodeWriteRegisters(params, ByteOrderOf(byteOrder));
        && (d.Malformed? ==>
              r == Fail(StructError) && lastWriteRegisters == old(lastWriteRegisters) && writeQueue == old(writeQueue))
        && (d.Undersized? ==>
              r == Pass && lastWriteRegisters == old(lastWriteRegisters) && writeQueue == old(writeQueue))
        && (d.Decoded? ==>
              && r == Pass
              && lastWriteRegisters == Some(d.write)
              && writeQueue == old(writeQueue) +
                   if old(lastWriteRegisters) == Some(d.write) then []
                   else [ModbusRtu.WriteRegistersRequest(d.write.address, d.write.values, d.write.slave, false)])
    {
      if !GroupMatches(writeRegistersGroupId, params.groupId) {
        return Pass;
      }
      var decoded := DecodeWriteRegisters(params, ByteOrderOf(byteOrder));
      match decoded
      case Malformed =>
        r := Fail(StructError);
      case Undersized =>
        r := Pass;
      case Decoded(w) =>
        if lastWriteRegisters != Some(w) {
          writeQueue := writeQueue + [ModbusRtu.WriteRegistersRequest(w.address, w.values, w.slave, false)];
          lastWriteRegisters := Some(w);
        }
        r := Pass;
    }

    /** The same single-register message delivered twice queues at most one
        write: exactly what delivering it once queues. */
    method WriteRegisterTwice(params: DataExchangeParams, byteOrder: string)
      modifies this`lastWriteRegister, this`writeQueue
      ensures var d := DecodeWriteRegister(params, ByteOrderOf(byteOrder));
        writeQueue == old(writeQueue) +
          if GroupMatches(writeRegisterGroupId, params.groupId) && d.Success? && old(lastWriteRegister) != Some(d.value)
          then [ModbusRtu.WriteRegisterRequest(d.value.address, d.value.value, d.value.slave, false)]
          else []
    {
      var _ := WriteRegisterByFdxCommand(params, byteOrder);
      var _ := WriteRegisterByFdxCommand(params, byteOrder);
    }

    /** `modbus_registers_to_fdx`: pack the registers big-endian, build a new
        data-exchange datagram for group id `slave`, and send it;
        `sendSucceeds` stands for the outcome of the UDP send. */
    method ModbusRegistersToFdx(slave: int, registers: seq<int>, sendSucceeds: bool) returns (r: Outcome<BridgeError>)
      requires fdx.Valid()
      modifies fdx
      ensures fdx.Valid()
      ensures PackWords(registers, Big).Failure? ==>
        r == Fail(PackFailed(PackWords(registers, Big).error)) && fdx.State() == old(fdx.State())
      ensures PackWords(registers, Big).Success? ==>
        var step := Fdx.EmitStep(old(fdx.State()), Fdx.DataExchangeCommandBytes(slave, PackWords(registers, Big).value), false);
        && (step.outcome.Fail? ==> r == Fail(FdxFailed(step.outcome.error)) && fdx.State() == old(fdx.State()))
        && (step.outcome.Pass? ==>
              r == Pass && fdx.State() == step.state.(fdxData := if sendSucceeds then [] else step.state.fdxData))
    {
      var packed := ListToBytesStructDirect(registers, "big");
      if packed.Failure? {
        return Fail(PackFailed(packed.error));
      }
      var built := fdx.DataExchangeCommand(slave, packed.value, false);
      if built.Fail? {
        return Fail(FdxFailed(built.error));
      }
      var _ := fdx.SendFdxData(sendSucceeds);
      r := Pass;
    }
  }
}
