/** The outbound CANoe FDX datagram builder (VectorFDX.py).

    A `VectorFdx` object keeps one pending datagram `fdxData` together with a
    command counter and a sequence number.  Every `*Command` builder either
    starts a fresh datagram (a header followed by the one command) or appends
    the command to the pending datagram and patches the header's count field.
    Each builder is specified by `EmitStep`, a function on the object's state
    value `FdxState`; the properties of the layout are proved about that
    function. */
module Fdx {
  import opened Bytes

  const CommandCodeStart := 0x0001
  const CommandCodeStop := 0x0002
  const CommandCodeKey := 0x0003
  const CommandCodeDataExchange := 0x0005
  const CommandCodeDataRequest := 0x0006

  /** `max_len`: the largest datagram the builder plans for. */
  const MaxLen := 0xffe3

  /** The ASCII signature "CANoeFDX". */
  const Signature: seq<Byte> := [0x43, 0x41, 0x4E, 0x6F, 0x65, 0x46, 0x44, 0x58]

  /** `fdx_protocol_flags`: 1 announces big-endian fields. */
  const ProtocolFlags := 1

  /** Signature 8, versions 1 + 1, count 2, sequence 2, flags 2 (written with
      `to_bytes(2, 'big')`), reserved 1: the header as built is 17 bytes. */
  const HeaderLength := 17

  /** Offset of the big-endian command-count field in the header. */
  const CountOffset := 10

  /** The exceptions the builders raise: `OverflowError` from `int.to_bytes`
      on a value that does not fit, `ValueError` from the data-exchange size check. */
  datatype FdxError = Overflow | DataTooLarge

  /** The values of a `VectorFdx` object's fields. */
  datatype FdxState = FdxState(
    major: Byte,
    minor: Byte,
    fdxData: seq<Byte>,
    numberOfCommands: int,
    sequenceNumber: int)

  /** The state after a builder call and whether the call raised. */
  datatype Step = Step(state: FdxState, outcome: Outcome<FdxError>)

  /** A freshly constructed object. */
  function Initial(major: Byte, minor: Byte): FdxState
  {
    FdxState(major, minor, [], 0, 1)
  }

  /** `h` reads back as a header carrying these versions, count and sequence number. */
  predicate IsHeader(h: seq<Byte>, major: Byte, minor: Byte, count: int, sequence: int)
  {
    && |h| == HeaderLength
    && h[..8] == Signature
    && h[8] == major && h[9] == minor
    && U16At(h, CountOffset) == count
    && U16At(h, 12) == sequence
    && U16At(h, 14) == ProtocolFlags
    && h[16] == 0
  }

  /** The parts of a header that no builder changes once it is written. */
  predicate HasHeaderPrefix(data: seq<Byte>, major: Byte, minor: Byte)
  {
    && |data| >= HeaderLength
    && data[..8] == Signature
    && data[8] == major && data[9] == minor
    && U16At(data, 14) == ProtocolFlags
    && data[16] == 0
  }

  /** The object invariant: counters in range and the pending datagram, when
      there is one, starts with a well-formed header. */
  predicate WellFormed(s: FdxState)
  {
    && s.numberOfCommands >= 0
    && s.sequenceNumber >= 1
    && (s.fdxData == [] || HasHeaderPrefix(s.fdxData, s.major, s.minor))
  }

  /** `build_fdx_header`: the header for the object's current counters. */
  function BuildFdxHeader(s: FdxState): (r: Result<seq<Byte>, FdxError>)
    ensures r.Success? <==> IsU16(s.numberOfCommands) && IsU16(s.sequenceNumber)
    ensures r.Failure? ==> r.error == Overflow
    ensures r.Success? ==> IsHeader(r.value, s.major, s.minor, s.numberOfCommands, s.sequenceNumber)
  {
    if !IsU16(s.numberOfCommands) || !IsU16(s.sequenceNumber) then Failure(Overflow)
    else
      var h := Signature + [s.major, s.minor] + Word(s.numberOfCommands, Big)
               + Word(s.sequenceNumber, Big) + Word(ProtocolFlags, Big) + [0];
      assert h[..8] == Signature;
      Success(h)
  }

  /** `_create_command`: size (4 + payload length), code, payload. */
  function CreateCommand(code: int, data: seq<Byte>): (r: Result<seq<Byte>, FdxError>)
    ensures r.Success? <==> 4 + |data| <= 0xFFFF && IsU16(code)
    ensures r.Failure? ==> r.error == Overflow
    ensures r.Success? ==>
      && |r.value| == 4 + |data|
      && U16At(r.value, 0) == 4 + |data|
      && U16At(r.value, 2) == code
      && r.value[4..] == data
  {
    if !IsU16(4 + |data|) || !IsU16(code) then Failure(Overflow)
    else
      var c := Word(4 + |data|, Big) + Word(code, Big) + data;
      assert c[4..] == data;
      Success(c)
  }

  /** The record `key_command` builds: the key code as 4 big-endian bytes. */
  function KeyCommandBytes(keyCode: int): (r: Result<seq<Byte>, FdxError>)
    ensures r.Success? <==> IsU32(keyCode)
    ensures r.Failure? ==> r.error == Overflow
    ensures r.Success? ==>
      && |r.value| == 8
      && U16At(r.value, 0) == 8
      && U16At(r.value, 2) == CommandCodeKey
      && r.value[4..] == BeU32(keyCode)
  {
    if !IsU32(keyCode) then Failure(Overflow)
    else CreateCommand(CommandCodeKey, BeU32(keyCode))
  }

  /** The record `datarequest_command` builds: the group id as 2 big-endian bytes. */
  function DataRequestCommandBytes(groupId: int): (r: Result<seq<Byte>, FdxError>)
    ensures r.Success? <==> IsU16(groupId)
    ensures r.Failure? ==> r.error == Overflow
    ensures r.Success? ==>
      && |r.value| == 6
      && U16At(r.value, 0) == 6
      && U16At(r.value, 2) == CommandCodeDataRequest
      && U16At(r.value, 4) == groupId
  {
    if !IsU16(groupId) then Failure(Overflow)
    else CreateCommand(CommandCodeDataRequest, Word(groupId, Big))
  }

  /** The record `data_exchange_command` builds: group id, data size, data.
      The size check comes first and refuses more than `max_len - 16` bytes. */
  function DataExchangeCommandBytes(groupId: int, data: seq<Byte>): (r: Result<seq<Byte>, FdxError>)
    ensures r == Failure(DataTooLarge) <==> |data| > MaxLen - 16
    ensures r.Success? <==> |data| <= MaxLen - 16 && IsU16(groupId)
    ensures r.Success? ==>
      && |r.value| == 8 + |data|
      && U16At(r.value, 0) == 8 + |data|
      && U16At(r.value, 2) == CommandCodeDataExchange
      && U16At(r.value, 4) == groupId
      && U16At(r.value, 6) == |data|
      && r.value[8..] == data
  {
    if |data| > MaxLen - 16 then Failure(DataTooLarge)
    else if !IsU16(groupId) then Failure(Overflow)
    else
      var payload := Word(groupId, Big) + Word(|data|, Big) + data;
      var r := CreateCommand(CommandCodeDataExchange, payload);
      assert r.value[4..] == payload;
      assert r.value[8..] == payload[4..] == data;
      r
  }

  /** `_add_command`: on an empty buffer first write a header from the current
      counters (the sequence number is left alone), append the command, count
      it, and patch the count field.  The count is converted after the append
      and the increment, so an overflow there leaves both in place. */
  function AppendStep(s: FdxState, command: seq<Byte>): (r: Step)
    requires WellFormed(s)
    ensures WellFormed(r.state)
    ensures r.state.major == s.major && r.state.minor == s.minor
    ensures r.state.sequenceNumber == s.sequenceNumber
    ensures s.fdxData == [] && BuildFdxHeader(s).Failure? ==> r == Step(s, Fail(Overflow))
    ensures r.outcome.Pass? <==>
      (s.fdxData != [] || BuildFdxHeader(s).Success?) && IsU16(s.numberOfCommands + 1)
    ensures r.outcome.Fail? ==> r.outcome.error == Overflow
    ensures s.fdxData != [] || BuildFdxHeader(s).Success? ==>
      var base := if s.fdxData == [] then BuildFdxHeader(s).value else s.fdxData;
      && r.state.numberOfCommands == s.numberOfCommands + 1
      && |r.state.fdxData| == |base| + |command|
      && r.state.fdxData[|base|..] == command
      && (forall i :: 0 <= i < |base| && i != CountOffset && i != CountOffset + 1 ==>
            r.state.fdxData[i] == base[i])
      && (r.outcome.Pass? ==> U16At(r.state.fdxData, CountOffset) == r.state.numberOfCommands)
      && (r.outcome.Fail? ==> r.state.fdxData == base + command)
  {
    var header := if s.fdxData == [] then BuildFdxHeader(s) else Success(s.fdxData);
    if header.Failure? then Step(s, Fail(header.error))
    else
      var data := header.value + command;
      var count := s.numberOfCommands + 1;
      assert data[..8] == header.value[..8];
      if !IsU16(count) then
        Step(s.(fdxData := data, numberOfCommands := count), Fail(Overflow))
      else
        var countBytes := Word(count, Big);
        var patched := data[CountOffset := countBytes[0]][CountOffset + 1 := countBytes[1]];
        assert patched[..8] == data[..8];
        assert patched[|header.value|..] == command;
        Step(s.(fdxData := patched, numberOfCommands := count), Pass)
  }

  /** The non-append branch of every builder: a new datagram of a header
      built from the counters as they were (so it carries the previous
      command count) and the command; then the count becomes 1 and the
      sequence number advances by one. */
  function NewFrameStep(s: FdxState, command: seq<Byte>): (r: Step)
    requires WellFormed(s)
    ensures WellFormed(r.state)
    ensures r.state.major == s.major && r.state.minor == s.minor
    ensures r.outcome.Pass? <==> BuildFdxHeader(s).Success?
    ensures r.outcome.Fail? ==> r == Step(s, Fail(Overflow))
    ensures r.outcome.Pass? ==>
      && |r.state.fdxData| == HeaderLength + |command|
      && IsHeader(r.state.fdxData[..HeaderLength], s.major, s.minor, s.numberOfCommands, s.sequenceNumber)
      && r.state.fdxData[HeaderLength..] == command
      && r.state.numberOfCommands == 1
      && r.state.sequenceNumber == s.sequenceNumber + 1
  {
    var header := BuildFdxHeader(s);
    if header.Failure? then Step(s, Fail(header.error))
    else
      var data := header.value + command;
      assert data[..HeaderLength] == header.value;
      assert data[..8] == header.value[..8];
      Step(s.(fdxData := data, numberOfCommands := 1, sequenceNumber := s.sequenceNumber + 1), Pass)
  }

  /** One builder call: a command whose bytes could not be made raises
      before anything changes; otherwise append or start a new datagram. */
  function EmitStep(s: FdxState, command: Result<seq<Byte>, FdxError>, isAddCommand: bool): (r: Step)
    requires WellFormed(s)
    ensures WellFormed(r.state)
    ensures r.state.major == s.major && r.state.minor == s.minor
    ensures command.Failure? ==> r == Step(s, Fail(command.error))
  {
    if command.Failure? then Step(s, Fail(command.error))
    else if isAddCommand then AppendStep(s, command.value)
    else NewFrameStep(s, command.value)
  }

  /** The data-exchange record of the example at the foot of VectorFDX.py. */
  const ExampleRecord: seq<Byte> := [0x00, 0x0C, 0x00, 0x05, 0x00, 0x01, 0x00, 0x04, 0x01, 0x02, 0x03, 0x04]

  /** The stop record: size 4, code 2, no payload. */
  const StopRecord: seq<Byte> := [0x00, 0x04, 0x00, 0x02]

  /** The datagram after the example's first call, and after its second. */
  const ExampleFrame1: seq<Byte> := Signature + [0x02, 0x00, 0x00, 0x01, 0x00, 0x01, 0x00, 0x01, 0x00] + ExampleRecord
  const ExampleFrame2: seq<Byte> := Signature + [0x02, 0x00, 0x00, 0x02, 0x00, 0x01, 0x00, 0x01, 0x00] + ExampleRecord + StopRecord

  lemma ExampleRecords()
    ensures DataExchangeCommandBytes(1, [1, 2, 3, 4]) == Success(ExampleRecord)
    ensures CreateCommand(CommandCodeStop, []) == Success(StopRecord)
    ensures BuildFdxHeader(Initial(2, 0)) == Success(Signature + [0x02, 0x00, 0x00, 0x00, 0x00, 0x01, 0x00, 0x01, 0x00])
  {
    assert Word(1, Big) == [0, 1] && Word(4, Big) == [0, 4] && Word(0, Big) == [0, 0];
    assert Word(12, Big) == [0, 12] && Word(5, Big) == [0, 5] && Word(2, Big) == [0, 2];
    assert Word(1, Big) + Word(4, Big) + [1, 2, 3, 4] == [0, 1, 0, 4, 1, 2, 3, 4];
    assert Word(12, Big) + Word(5, Big) + [0, 1, 0, 4, 1, 2, 3, 4] == ExampleRecord;
    assert Word(4, Big) + Word(2, Big) + [] == StopRecord;
    assert Signature + [2, 0] + Word(0, Big) + Word(1, Big) + Word(ProtocolFlags, Big) + [0]
        == Signature + [0x02, 0x00, 0x00, 0x00, 0x00, 0x01, 0x00, 0x01, 0x00];
  }

  /** The example at the foot of VectorFDX.py on a fresh object (version 2.0):
      `data_exchange_command(1, b'\x01\x02\x03\x04', True)` on the empty
      buffer, then `stop_command(True)`. */
  lemma DataExchangeThenStopExample()
    ensures EmitStep(Initial(2, 0), DataExchangeCommandBytes(1, [1, 2, 3, 4]), true)
         == Step(FdxState(2, 0, ExampleFrame1, 1, 1), Pass)
    ensures EmitStep(FdxState(2, 0, ExampleFrame1, 1, 1), CreateCommand(CommandCodeStop, []), true)
         == Step(FdxState(2, 0, ExampleFrame2, 2, 1), Pass)
  {
    ExampleRecords();
    var header := Signature + [0x02, 0x00, 0x00, 0x00, 0x00, 0x01, 0x00, 0x01, 0x00];
    assert (header + ExampleRecord)[10 := 0][11 := 1] == ExampleFrame1;
    assert (ExampleFrame1 + StopRecord)[10 := 0][11 := 2] == ExampleFrame2;
  }

  /** A command record: its size field equals its length. */
  predicate IsRecord(c: seq<Byte>)
  {
    |c| >= 4 && U16At(c, 0) == |c|
  }

  /** How many command records `body` holds, read by walking the size
      fields; None when the sizes do not tile `body` exactly. */
  function RecordCount(body: seq<Byte>): Option<nat>
    decreases |body|
  {
    if body == [] then Some(0)
    else if |body| < 4 || U16At(body, 0) < 4 || U16At(body, 0) > |body| then None
    else
      match RecordCount(body[U16At(body, 0)..])
      case None => None
      case Some(k) => Some(k + 1)
  }

  /** The commands after the header, when there is a header. */
  function Body(data: seq<Byte>): seq<Byte>
  {
    if |data| < HeaderLength then [] else data[HeaderLength..]
  }

  /** The counter agrees with the records in the pending datagram. */
  predicate CounterMatchesRecords(s: FdxState)
  {
    s.fdxData != [] ==> RecordCount(Body(s.fdxData)) == Some(s.numberOfCommands)
  }

  lemma CreatedCommandIsRecord(code: int, data: seq<Byte>)
    requires CreateCommand(code, data).Success?
    ensures IsRecord(CreateCommand(code, data).value)
  {
  }

  /** Appending one record to a tiling adds one to the count. */
  lemma {:induction false} RecordCountAppend(body: seq<Byte>, c: seq<Byte>)
    requires RecordCount(body).Some? && IsRecord(c)
    ensures RecordCount(body + c) == Some(RecordCount(body).value + 1)
    decreases |body|
  {
    if body == [] {
      assert body + c == c;
      assert c[U16At(c, 0)..] == [];
    } else {
      var size := U16At(body, 0);
      assert (body + c)[0] == body[0] && (body + c)[1] == body[1];
      assert (body + c)[size..] == body[size..] + c;
      RecordCountAppend(body[size..], c);
    }
  }

  /** `_add_command` keeps the counter equal to the records in the datagram,
      provided it starts that way (a non-empty datagram whose records match,
      or an empty buffer with the counter at 0), and then the header's count
      field reads the number of records. */
  lemma {:induction false} AppendCountsRecords(s: FdxState, command: seq<Byte>)
    requires WellFormed(s) && CounterMatchesRecords(s) && IsRecord(command)
    requires s.fdxData == [] ==> s.numberOfCommands == 0
    ensures var r := AppendStep(s, command);
      && CounterMatchesRecords(r.state)
      && (r.outcome.Pass? ==> U16At(r.state.fdxData, CountOffset) == RecordCount(Body(r.state.fdxData)).value)
  {
    var r := AppendStep(s, command);
    if s.fdxData != [] || BuildFdxHeader(s).Success? {
      var base := if s.fdxData == [] then BuildFdxHeader(s).value else s.fdxData;
      assert RecordCount(Body(base)) == Some(s.numberOfCommands) by {
        if s.fdxData == [] {
          assert Body(base) == [];
        }
      }
      assert Body(r.state.fdxData) == Body(base) + command by {
        assert r.state.fdxData[|base|..] == command;
        assert forall i :: HeaderLength <= i < |base| ==> r.state.fdxData[i] == base[i];
      }
      RecordCountAppend(Body(base), command);
    }
  }

  /** A new datagram holds exactly one record and the counter says 1, yet
      its header's count field carries the counter from before the call:
      on a fresh object `start_command()` sends a header counting 0 commands. */
  lemma NewFrameHeaderCountIsPrevious(s: FdxState, command: seq<Byte>)
    requires WellFormed(s) && IsRecord(command)
    requires NewFrameStep(s, command).outcome.Pass?
    ensures var r := NewFrameStep(s, command);
      && RecordCount(Body(r.state.fdxData)) == Some(1)
      && r.state.numberOfCommands == 1
      && U16At(r.state.fdxData, CountOffset) == s.numberOfCommands
  {
    var r := NewFrameStep(s, command);
    assert Body(r.state.fdxData) == [] + command;
    RecordCountAppend([], command);
    assert U16At(r.state.fdxData[..HeaderLength], CountOffset) == s.numberOfCommands;
  }

  /** After a sent datagram the counter is not reset, so an appended command
      on the emptied buffer is counted on top of the previous datagram's:
      `start_command()`, a successful send, then `stop_command(True)` yields
      a header counting 2 commands around a single record. */
  lemma AppendAfterSendCountsPreviousCommands(major: Byte, minor: Byte)
    ensures var started := EmitStep(Initial(major, minor), CreateCommand(CommandCodeStart, []), false);
      && started.outcome.Pass?
      && var sent := started.state.(fdxData := []);
      && var stopped := EmitStep(sent, CreateCommand(CommandCodeStop, []), true);
      && stopped.outcome.Pass?
      && RecordCount(Body(stopped.state.fdxData)) == Some(1)
      && U16At(stopped.state.fdxData, CountOffset) == 2
  {
    var started := EmitStep(Initial(major, minor), CreateCommand(CommandCodeStart, []), false);
    var sent := started.state.(fdxData := []);
    var stopped := EmitStep(sent, CreateCommand(CommandCodeStop, []), true);
    var stop := CreateCommand(CommandCodeStop, []).value;
    CreatedCommandIsRecord(CommandCodeStop, []);
    assert Body(stopped.state.fdxData) == [] + stop;
    RecordCountAppend([], stop);
  }

  class VectorFdx {
    const fdxMajorVersion: Byte
    const fdxMinorVersion: Byte
    var fdxData: seq<Byte>
    var numberOfCommands: int
    var sequenceNumber: int

    function State(): FdxState
      reads this
    {
      FdxState(fdxMajorVersion, fdxMinorVersion, fdxData, numberOfCommands, sequenceNumber)
    }

    ghost predicate Valid()
      reads this
    {
      WellFormed(State())
    }

    /** A new object: empty buffer, no commands counted, sequence number 1. */
    constructor (fdxMajorVersion: Byte, fdxMinorVersion: Byte)
      ensures Valid()
      ensures State() == Initial(fdxMajorVersion, fdxMinorVersion)
      ensures fdxData == [] && numberOfCommands == 0 && sequenceNumber == 1
    {
      this.fdxMajorVersion := fdxMajorVersion;
      this.fdxMinorVersion := fdxMinorVersion;
      fdxData := [];
      numberOfCommands := 0;
      sequenceNumber := 1;
    }

    method AddCommand(command: seq<Byte>) returns (r: Outcome<FdxError>)
      requires Valid()
      modifies this
      ensures Valid()
      ensures Step(State(), r) == AppendStep(old(State()), command)
    {
      if fdxData == [] {
        var header := BuildFdxHeader(State());
        if header.Failure? {
          return Fail(header.error);
        }
        fdxData := header.value;
      }
      fdxData := fdxData + command;
      numberOfCommands := numberOfCommands + 1;
      if !IsU16(numberOfCommands) {
        return Fail(Overflow);
      }
      var countBytes := Word(numberOfCommands, Big);
      fdxData := fdxData[CountOffset := countBytes[0]][CountOffset + 1 := countBytes[1]];
      r := Pass;
    }

    /** The branch every builder shares once its command bytes are made. */
    method Emit(command: Result<seq<Byte>, FdxError>, isAddCommand: bool) returns (r: Outcome<FdxError>)
      requires Valid()
      modifies this
      ensures Valid()
      ensures Step(State(), r) == EmitStep(old(State()), command, isAddCommand)
    {
      if command.Failure? {
        return Fail(command.error);
      }
      if isAddCommand {
        r := AddCommand(command.value);
      } else {
        var header := BuildFdxHeader(State());
        if header.Failure? {
          return Fail(header.error);
        }
        fdxData := header.value + command.value;
        numberOfCommands := 1;
        sequenceNumber := sequenceNumber + 1;
        r := Pass;
      }
    }

    method StartCommand(isAddCommand: bool) returns (r: Outcome<FdxError>)
      requires Valid()
      modifies this
      ensures Valid()
      ensures Step(State(), r) == EmitStep(old(State()), CreateCommand(CommandCodeStart, []), isAddCommand)
    {
      r := Emit(CreateCommand(CommandCodeStart, []), isAddCommand);
    }

    method StopCommand(isAddCommand: bool) returns (r: Outcome<FdxError>)
      requires Valid()
      modifies this
      ensures Valid()
      ensures Step(State(), r) == EmitStep(old(State()), CreateCommand(CommandCodeStop, []), isAddCommand)
    {
      r := Emit(CreateCommand(CommandCodeStop, []), isAddCommand);
    }

    method KeyCommand(canoeKeyCode: int, isAddCommand: bool) returns (r: Outcome<FdxError>)
      requires Valid()
      modifies this
      ensures Valid()
      ensures Step(State(), r) == EmitStep(old(State()), KeyCommandBytes(canoeKeyCode), isAddCommand)
    {
      r := Emit(KeyCommandBytes(canoeKeyCode), isAddCommand);
    }

    method DataRequestCommand(groupId: int, isAddCommand: bool) returns (r: Outcome<FdxError>)
      requires Valid()
      modifies this
      ensures Valid()
      ensures Step(State(), r) == EmitStep(old(State()), DataRequestCommandBytes(groupId), isAddCommand)
    {
      r := Emit(DataRequestCommandBytes(groupId), isAddCommand);
    }

    method DataExchangeCommand(groupId: int, dataBytes: seq<Byte>, isAddCommand: bool) returns (r: Outcome<FdxError>)
      requires Valid()
      modifies this
      ensures Valid()
      ensures Step(State(), r) == EmitStep(old(State()), DataExchangeCommandBytes(groupId, dataBytes), isAddCommand)
    {
      r := Emit(DataExchangeCommandBytes(groupId, dataBytes), isAddCommand);
    }

    /** `send_fdx_data`; `sendSucceeds` stands for the outcome of `sendto`.
        Nothing is sent from an empty buffer; a sent datagram is cleared and
        a failed send keeps it. */
    method SendFdxData(sendSucceeds: bool) returns (sent: bool)
      requires Valid()
      modifies this`fdxData
      ensures Valid()
      ensures sent <==> old(fdxData) != [] && sendSucceeds
      ensures fdxData == if sent then [] else old(fdxData)
    {
      if fdxData == [] {
        return false;
      }
      if sendSucceeds {
        fdxData := [];
        sent := true;
      } else {
        sent := false;
      }
    }
  }
}
