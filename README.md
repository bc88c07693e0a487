# VectorFDX bridge in Dafny

This project models the core of VectorFDX, a desktop tool that connects
Vector CANoe to serial Modbus-RTU devices. It has three parts:

- **`Fdx` (vector_fdx.dfy)** models the FDX datagram builder `VectorFDX`.
  - A datagram is a 17-byte header (signature `CANoeFDX`, version, command count, sequence number, protocol flags, reserved byte) followed by command records.
  - Each record is its size, its command code and a payload.
  - The builder either appends a command to the pending datagram or starts a new datagram, and `send_fdx_data` clears the buffer after a successful send.
  - The class `VectorFdx` keeps the Python object's fields.
  - Each builder method (`AddCommand`, `Emit` and the five command methods) is proved equal to a pure step function on an `FdxState` value: `AppendStep`, `NewFrameStep` or `EmitStep`; `SendFdxData` has its own contract on the buffer.
  - Lemmas about those functions relate the header's count field to the records the datagram actually holds.
- **`ModbusRtu` (modbus_rtu.dfy)** models the sequential bookkeeping of `SerialModbusRTUClient`:
  - the request record and the request queue;
  - dispatch on the function code;
  - the run flag cleared and set around each library call;
  - the response handlers;
  - one pass of the cyclic holding-register read over the configured slaves;
  - the flag writes of starting and stopping the cyclic loop.

  The serial library is not modelled. Each call it would make is appended to a `transactions` log, and each response-handler call to a `reports` log. How a call ended (a response, an error response, or an exception) is a parameter.
- **`Bridge` (bridge.dfy)** models the Modbus↔FDX glue of the main window:
  - `list_to_bytes_struct_direct`, a loop proved to compute `PackWords`, which has a round trip with `UnpackWords`;
  - decoding inbound data-exchange commands into single- and multi-register writes, with round-trip lemmas;
  - the last-write caches that stop a repeated FDX message from queueing the same write twice;
  - the outbound path, which sends a slave's registers as a data-exchange datagram whose group id is the slave id.
- **`Bytes` (bytes.dfy)** holds the shared pieces: bytes, `Option`/`Result`/`Outcome`, and 16- and 32-bit word encodings.

Python exceptions appear as error values: `OverflowError` from `int.to_bytes`, `ValueError` and `struct.error`. A `Result` or `Outcome` stands for each of them, so a call that would raise is not excluded by a precondition.

Several behaviours of the code are modelled as written:

- The header is 17 bytes, because the protocol-flags field is written with two bytes.
- A new datagram's header carries the command count from **before** the call. Its count field is 0 on a fresh object, and otherwise it is the previous datagram's count. `NewFrameHeaderCountIsPrevious` states this.
- The counter is not reset when a datagram is sent. An appended command on the emptied buffer is therefore counted on top of the previous datagram's commands. `AppendAfterSendCountsPreviousCommands` states this.
- `_add_command` appends and counts before it converts the new count. A count overflow therefore raises with the buffer and counter already changed.
- A response to `write_registers` is reported under code 0x06, since 0x10 has no response handler.
- `add_read_holding_registers_queue` queues its request and then raises `AttributeError`.
- The read used by the cyclic loop swallows every exception. A raised read only leaves the run flag cleared.

## Model

| member | source | states |
|---|---|---|
| Bytes.ByteOrderOf | main.py:53-56 | big-endian exactly when the name is "big"; every other string selects little-endian |
| Bytes.Word | VectorFDX.py:50-52 | a value that fits 16 bits becomes two bytes that read back as the value in the given order |
| Bytes.WordOfWordValue | main.py:54-56 | encoding the word read from two bytes gives the same two bytes (the 16-bit encoding is a bijection) |
| Bytes.BeU32 | VectorFDX.py:107 | a value that fits 32 bits becomes four bytes whose big-endian reading is the value |
| Fdx.BuildFdxHeader | VectorFDX.py:44-55 | succeeds exactly when the count and sequence number fit 16 bits; the header then is the signature, the versions, the count, the sequence number, flags 1 in two bytes and a zero byte |
| Fdx.CreateCommand | VectorFDX.py:74-78 | succeeds exactly when size and code fit 16 bits; the record's size field is 4 plus the payload length, then the code, then the payload unchanged |
| Fdx.KeyCommandBytes | VectorFDX.py:103-108 | succeeds exactly when the key code fits 32 bits; an 8-byte key record carrying the code big-endian |
| Fdx.DataRequestCommandBytes | VectorFDX.py:117-122 | succeeds exactly when the group id fits 16 bits; a 6-byte data-request record carrying the group id |
| Fdx.DataExchangeCommandBytes | VectorFDX.py:131-142 | refuses payloads longer than max_len - 16 (checked first) and group ids over 16 bits; otherwise a record of group id, data size and the data unchanged |
| Fdx.AppendStep | VectorFDX.py:57-71 | header written only on an empty buffer; the command is appended, the count goes up by one and is patched into bytes 10-11; the sequence number and the other header bytes are kept; an overflowing count raises after the append and the increment |
| Fdx.NewFrameStep | VectorFDX.py:83-88 | a new datagram of the header built from the old counters followed by the command; the count becomes 1 and the sequence number goes up by one; a header overflow changes nothing |
| Fdx.EmitStep | VectorFDX.py:131-148 | a command whose bytes could not be made raises with the state unchanged; every step keeps the invariant WellFormed and the versions |
| Fdx.DataExchangeThenStopExample | VectorFDX.py:170-173 | the example at the foot of the file produces the exact datagram bytes after each of its two calls |
| Fdx.CreatedCommandIsRecord | VectorFDX.py:76-77 | every created command's size field equals its length |
| Fdx.RecordCountAppend | VectorFDX.py:64 | appending a record to a datagram body adds one to the number of records read off the size fields |
| Fdx.AppendCountsRecords | VectorFDX.py:62-70 | appending keeps the counter equal to the records in the datagram, and the header's count field then reads that number |
| Fdx.NewFrameHeaderCountIsPrevious | VectorFDX.py:86-87 | a new datagram holds one record and the counter becomes 1, but its header count field holds the previous counter |
| Fdx.AppendAfterSendCountsPreviousCommands | VectorFDX.py:151-160 | start, a successful send, then an appended stop gives a datagram with one record whose header counts 2 |
| Fdx.VectorFdx.constructor | VectorFDX.py:20-29 | an empty buffer, no commands counted, sequence number 1 |
| Fdx.VectorFdx.AddCommand | VectorFDX.py:57-71 | the new state and outcome are those of AppendStep |
| Fdx.VectorFdx.Emit | VectorFDX.py:83-88 | the new state and outcome are those of EmitStep |
| Fdx.VectorFdx.StartCommand | VectorFDX.py:80-89 | EmitStep with a start record (code 1) |
| Fdx.VectorFdx.StopCommand | VectorFDX.py:92-101 | EmitStep with a stop record (code 2) |
| Fdx.VectorFdx.KeyCommand | VectorFDX.py:103-115 | EmitStep with the key record |
| Fdx.VectorFdx.DataRequestCommand | VectorFDX.py:117-129 | EmitStep with the data-request record |
| Fdx.VectorFdx.DataExchangeCommand | VectorFDX.py:131-149 | EmitStep with the data-exchange record |
| Fdx.VectorFdx.SendFdxData | VectorFDX.py:151-162 | sent exactly when the buffer was non-empty and the send succeeded; a sent buffer is cleared, otherwise it is kept |
| ModbusRtu.RequestHandlerFor | SerialModbusRTUClient.py:88-96 | a handler exists exactly for codes 0x03, 0x06 and 0x10, and each code gets its own handler |
| ModbusRtu.TransactionFor | SerialModbusRTUClient.py:177-184 | a dispatched request makes the call of its code with the request's slave, address and flag, and the count, value or values that code uses |
| ModbusRtu.ReportCode | SerialModbusRTUClient.py:206-255 | a response is reported under a code that has a response handler: 0x03 exactly for reads, 0x06 for both kinds of write |
| ModbusRtu.PollCount | SerialModbusRTUClient.py:165-167 | a slave is polled exactly when it has an entry with a nonzero count, and then with that count |
| ModbusRtu.SweepReadsExactlyPolledSlaves | SerialModbusRTUClient.py:164-167 | every read of a sweep is of address 0 for a listed slave with its configured count, and every listed slave with a nonzero count is read |
| ModbusRtu.SweepReportsAreReadReports | SerialModbusRTUClient.py:164-167 | every handler call of a sweep is a holding-register report for a polled slave |
| ModbusRtu.SweepRunFlagIsLastRead | SerialModbusRTUClient.py:164-167 | after a sweep the run flag is unchanged if nothing was read, and otherwise set exactly when the last read did not raise |
| ModbusRtu.SweepTransactionsPrefix | SerialModbusRTUClient.py:164-167 | the reads for a prefix of the slave list are a prefix of the sweep's reads |
| ModbusRtu.SweepReadsInListOrder | SerialModbusRTUClient.py:164-167 | the i-th listed slave, when polled, is read right after the reads of the slaves before it, and before those of every later slave; a slave listed twice is read twice |
| ModbusRtu.SweepReportsPrefix | SerialModbusRTUClient.py:164-167 | the reports for a prefix of the slave list are a prefix of the sweep's reports |
| ModbusRtu.SweepReportsEveryResponse | SerialModbusRTUClient.py:276-277 | every polled slave whose read got a response is reported under 0x03 with those registers, right after the reports of the slaves before it |
| ModbusRtu.SweepTransactions | SerialModbusRTUClient.py:164-167 | a sweep makes at most one read per listed slave |
| ModbusRtu.SweepReports | SerialModbusRTUClient.py:164-167 | a sweep reports at most once per read |
| ModbusRtu.SerialModbusRtuClient.constructor | SerialModbusRTUClient.py:62-96 | not connected, flags clear, queue empty, slaves 1, 2 and 3 configured with 3, 10 and 10 registers, only slave 1 polled |
| ModbusRtu.SerialModbusRtuClient.CreateModbusRtuService | SerialModbusRTUClient.py:105-129 | no-op when already connected; otherwise the result and the connected flag say whether the port opened, and a client exists unless its construction raised |
| ModbusRtu.SerialModbusRtuClient.StartCycleReadLoop | SerialModbusRTUClient.py:130-135 | with a cycle thread and a connection the run flag is set and the stop request cleared; otherwise neither changes |
| ModbusRtu.SerialModbusRtuClient.StopCycleReadLoop | SerialModbusRTUClient.py:137-141 | with a connection and a live cycle thread the run flag is cleared and the stop request set; otherwise neither changes |
| ModbusRtu.SerialModbusRtuClient.ModbusRtuServiceClose | SerialModbusRTUClient.py:312-316 | connected is cleared exactly when a client exists and reports itself connected |
| ModbusRtu.SerialModbusRtuClient.ResponseHandleCommand | SerialModbusRTUClient.py:318-324 | a report is made exactly for the codes with a registered handler |
| ModbusRtu.SerialModbusRtuClient.Bracketed | SerialModbusRTUClient.py:268-282 | the call is logged; the run flag ends set exactly when the call did not raise; a response is reported under ReportCode |
| ModbusRtu.SerialModbusRtuClient.ReadHoldingRegisters | SerialModbusRTUClient.py:268-282 | the read is logged, the run flag ends set unless it raised, a response is reported under 0x03 |
| ModbusRtu.SerialModbusRtuClient.QueuedReadHoldingRegisters | SerialModbusRTUClient.py:284-296 | the read is logged and a response reported under 0x03; the run flag is untouched |
| ModbusRtu.SerialModbusRtuClient.QueuedWriteRegister | SerialModbusRTUClient.py:200-214 | the write is logged, the run flag ends set unless it raised, a response is reported under 0x06 |
| ModbusRtu.SerialModbusRtuClient.QueuedWriteRegisters | SerialModbusRTUClient.py:241-255 | the multi-register write is logged, the run flag ends set unless it raised, a response is reported under 0x06 |
| ModbusRtu.SerialModbusRtuClient.RequestHandleCommand | SerialModbusRTUClient.py:177-184 | a known code makes exactly its call and report; an unknown or missing code does nothing; only writes touch the run flag |
| ModbusRtu.SerialModbusRtuClient.CycleReadSweep | SerialModbusRTUClient.py:164-167 | one pass makes exactly the reads, reports and final run flag of the sweep functions |
| ModbusRtu.SerialModbusRtuClient.AddWriteRegisterQueue | SerialModbusRTUClient.py:216-225 | appends one request with code 0x06, the given fields and defaults elsewhere |
| ModbusRtu.SerialModbusRtuClient.AddWriteRegistersQueue | SerialModbusRTUClient.py:257-266 | appends one request with code 0x10 carrying the values |
| ModbusRtu.SerialModbusRtuClient.AddReadHoldingRegistersQueue | SerialModbusRTUClient.py:298-309 | appends one request with code 0x03 and the count, then fails with AttributeError |
| Bridge.PackWords | main.py:47-59 | succeeds exactly when every item fits 16 bits, giving two bytes per item that read back as the item; otherwise the first bad item decides the error (too large before negative) |
| Bridge.UnpackWords | main.py:180-182 | succeeds exactly when the buffer holds two bytes per word, giving each word's value in order |
| Bridge.UnpackPackedWords | main.py:47-59 | unpacking a packed list gives the list back |
| Bridge.PackUnpackedWords | main.py:203 | packing an unpacked buffer gives the buffer back |
| Bridge.ListToBytesStructDirect | main.py:47-59 | the accumulator loop computes PackWords for the order the name selects |
| Bridge.PackFailureExtends | main.py:49-52 | once a prefix fails to pack, the whole list fails with that error |
| Bridge.Take | main.py:180 | a slice keeps the first n bytes, or all of them when there are fewer |
| Bridge.DecodeWriteRegister | main.py:176-182 | succeeds exactly when the payload cut to the data size is six bytes, giving slave, address and value |
| Bridge.DecodeWriteRegisters | main.py:194-212 | too few bytes for the head raise; a data size under twice the register count plus 6 returns quietly; too few bytes for the values raise; otherwise slave, address, count and each value in order |
| Bridge.WriteRegisterRoundTrip | main.py:180-182 | a single-register write packed as three words decodes back |
| Bridge.PackedRegistersMessage | main.py:199-203 | a packed multi-register message holds slave, address and count in its first three words and value i at bytes 6+2i and 7+2i |
| Bridge.WriteRegistersRoundTrip | main.py:199-212 | a multi-register write packed with its count, with a data size covering it, decodes back |
| Bridge.OutboundDatagramCarriesRegisters | main.py:277-279 | the sent datagram's record is a data exchange for the slave id whose payload unpacks to the registers |
| Bridge.FdxModbusBridge.constructor | main.py:73-78 | both caches empty and nothing queued |
| Bridge.FdxModbusBridge.WriteRegisterByFdxCommand | main.py:175-191 | other groups are ignored; a bad payload raises and changes nothing; a decoded write is queued and cached unless it equals the cached one |
| Bridge.FdxModbusBridge.WriteRegistersByFdxCommand | main.py:193-225 | as for one register, with an undersized data size returning quietly and the cache comparing slave, address, count and values |
| Bridge.FdxModbusBridge.WriteRegisterTwice | main.py:183-191 | the same message delivered twice queues exactly what one delivery queues |
| Bridge.FdxModbusBridge.ModbusRegistersToFdx | main.py:277-279 | a packing error or a builder error raises with the builder unchanged; otherwise the builder holds a new data-exchange datagram, cleared when the send succeeds |

## Left out

- Threads, the request queue's blocking and maximum size, and `_single__loop` are left out: they only run loops around the modelled steps; one dequeued request is `RequestHandleCommand`, and one pass of the cyclic loop is `CycleReadSweep`. Of `start_cycle_read__loop` and `stop_cycle_read__loop` only the flag writes are modelled (`StartCycleReadLoop`, `StopCycleReadLoop`); creating, starting and joining the threads is not, and whether the cycle thread exists or is alive is a parameter.
- The `ModbusIOException` branches of the cyclic loop and of `_single__loop`, which clear `is_connected`, are not modelled: `read_holding_registers` and the three request handlers catch every exception themselves, so those branches cannot be reached through them.
- The public `write_register` and `write_registers` are not modelled. They are outside the modelled core.
- The UDP socket is replaced by `sendSucceeds`, and the serial library by a `TransactionOutcome`/`ConnectOutcome` parameter. The IP addresses, ports, baud rate and other serial settings are not modelled. Neither is `print` output.
- The `isinstance` type checks are not modelled, because the Dafny types already rule those inputs out.
- `Fdx.VectorFdx.constructor` takes the version numbers as bytes. A version above 255 would raise in `to_bytes`, and that case is not modelled.
- The Qt window, configuration loading and signal wiring of main.py are not modelled. The bridge queues write requests on its own `writeQueue`, built with the same request record as `SerialModbusRTUClient`'s queue methods. The Modbus client module that main.py imports, and the Qt variant of VectorFDX it uses, are not part of this model. `ModbusRegistersToFdx` uses `VectorFdx` with the default `is_add_command=False`.
- `PackWords`: a non-integer item (a `ValueError`) cannot occur, because the list holds integers.
