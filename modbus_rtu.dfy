/** The sequential bookkeeping of the Modbus RTU master (SerialModbusRTUClient.py).

    The serial transactions themselves belong to the Modbus library; here each
    one is an outcome the caller supplies (a response, an error response, or
    an exception).  The client records what it asks the library to do in
    `transactions` and which registered response handler it invokes in
    `reports`, so that dispatch, the cyclic sweep and the run-flag bracket
    can be stated over those two logs.  Threads are not modelled: every
    method is one sequential step. */
module ModbusRtu {
  import opened Bytes

  // Function codes of the Modbus Application Protocol Specification V1.1b3.
  const CodeReadCoils := 0x01
  const CodeReadDiscreteInputs := 0x02
  const CodeReadHoldingRegisters := 0x03
  const CodeReadInputRegisters := 0x04
  const CodeWriteSingleCoil := 0x05
  const CodeWriteRegister := 0x06
  const CodeWriteRegisters := 0x10

  /** One queued request (`ModbusRequestParameter`); `code` is None until set. */
  datatype ModbusRequestParameter = ModbusRequestParameter(
    code: Option<int>,
    value: int,
    values: seq<int>,
    slave: int,
    address: int,
    count: int,
    noResponseExpected: bool)

  /** The field values a new request starts with. */
  const DefaultRequest := ModbusRequestParameter(None, 0, [0], 1, 0, 1, false)

  /** The request `add_write_register_queue` builds. */
  function WriteRegisterRequest(address: int, value: int, slave: int, noResponseExpected: bool): ModbusRequestParameter
  {
    DefaultRequest.(code := Some(CodeWriteRegister), value := value, address := address,
                    slave := slave, noResponseExpected := noResponseExpected)
  }

  /** The request `add_write_registers_queue` builds. */
  function WriteRegistersRequest(address: int, values: seq<int>, slave: int, noResponseExpected: bool): ModbusRequestParameter
  {
    DefaultRequest.(code := Some(CodeWriteRegisters), values := values, address := address,
                    slave := slave, noResponseExpected := noResponseExpected)
  }

  /** The request `add_read_holding_registers_queue` builds. */
  function ReadHoldingRegistersRequest(address: int, count: int, slave: int, noResponseExpected: bool): ModbusRequestParameter
  {
    DefaultRequest.(code := Some(CodeReadHoldingRegisters), count := count, address := address,
                    slave := slave, noResponseExpected := noResponseExpected)
  }

  /** A call into the Modbus library's client. */
  datatype Transaction =
    | ReadHoldingRegistersCall(slave: int, address: int, count: int, noResponseExpected: bool)
    | WriteRegisterCall(slave: int, address: int, value: int, noResponseExpected: bool)
    | WriteRegistersCall(slave: int, address: int, values: seq<int>, noResponseExpected: bool)

  /** How the library call ended: a response (its register payload), a
      response for which `isError()` holds, or an exception. */
  datatype TransactionOutcome = Response(registers: seq<int>) | ErrorResponse | Raised

  /** A call of the response handler registered for `code`. */
  datatype Report = Report(slave: int, code: int, registers: seq<int>)

  /** The handlers of `modbus_request_handlers`. */
  datatype RequestHandler = ReadHoldingRegistersHandler | WriteRegisterHandler | WriteRegistersHandler

  const RequestHandlers: map<int, RequestHandler> :=
    map[CodeReadHoldingRegisters := ReadHoldingRegistersHandler,
        CodeWriteRegister := WriteRegisterHandler,
        CodeWriteRegisters := WriteRegistersHandler]

  /** The codes `modbus_response_handlers` has a handler for. */
  const ResponseHandlerCodes: set<int> :=
    {CodeReadCoils, CodeReadDiscreteInputs, CodeReadHoldingRegisters,
     CodeReadInputRegisters, CodeWriteSingleCoil, CodeWriteRegister}

  /** `modbus_request_handlers.get(code)`. */
  function RequestHandlerFor(code: Option<int>): (h: Option<RequestHandler>)
    ensures h.Some? <==> code.Some? && code.value in {CodeReadHoldingRegisters, CodeWriteRegister, CodeWriteRegisters}
    ensures h == Some(ReadHoldingRegistersHandler) <==> code == Some(CodeReadHoldingRegisters)
    ensures h == Some(WriteRegisterHandler) <==> code == Some(CodeWriteRegister)
    ensures h == Some(WriteRegistersHandler) <==> code == Some(CodeWriteRegisters)
  {
    if code.Some? && code.value in RequestHandlers then Some(RequestHandlers[code.value]) else None
  }

  /** The library call the dispatched handler makes with the request's fields. */
  function TransactionFor(req: ModbusRequestParameter): (t: Option<Transaction>)
    ensures t.Some? <==> RequestHandlerFor(req.code).Some?
    ensures t.Some? ==> t.value.slave == req.slave && t.value.address == req.address
                        && t.value.noResponseExpected == req.noResponseExpected
    ensures req.code == Some(CodeReadHoldingRegisters) ==> t.value.ReadHoldingRegistersCall? && t.value.count == req.count
    ensures req.code == Some(CodeWriteRegister) ==> t.value.WriteRegisterCall? && t.value.value == req.value
    ensures req.code == Some(CodeWriteRegisters) ==> t.value.WriteRegistersCall? && t.value.values == req.values
  {
    match RequestHandlerFor(req.code)
    case None => None
    case Some(ReadHoldingRegistersHandler) =>
      Some(ReadHoldingRegistersCall(req.slave, req.address, req.count, req.noResponseExpected))
    case Some(WriteRegisterHandler) =>
      Some(WriteRegisterCall(req.slave, req.address, req.value, req.noResponseExpected))
    case Some(WriteRegistersHandler) =>
      Some(WriteRegistersCall(req.slave, req.address, req.values, req.noResponseExpected))
  }

  /** The code a transaction's successful response is reported under:
      both kinds of write report under the single-register code. */
  function ReportCode(t: Transaction): (code: int)
    ensures code in ResponseHandlerCodes
    ensures code == CodeReadHoldingRegisters <==> t.ReadHoldingRegistersCall?
    ensures !t.ReadHoldingRegistersCall? ==> code == CodeWriteRegister
  {
    if t.ReadHoldingRegistersCall? then CodeReadHoldingRegisters else CodeWriteRegister
  }

  /** The register count the cyclic sweep polls `slave` with, if any:
      a slave without an entry, or with a count of 0, is skipped. */
  function PollCount(slave: int, slavesList: map<int, int>): (count: Option<int>)
    ensures count.Some? <==> slave in slavesList && slavesList[slave] != 0
    ensures count.Some? ==> count.value == slavesList[slave]
  {
    if slave in slavesList && slavesList[slave] != 0 then Some(slavesList[slave]) else None
  }

  /** The reads one pass of `_cycle_read__loop` issues, in list order. */
  function SweepTransactions(slaves: seq<int>, slavesList: map<int, int>): (ts: seq<Transaction>)
    ensures |ts| <= |slaves|
    decreases |slaves|
  {
    if slaves == [] then []
    else
      var n := |slaves| - 1;
      var earlier := SweepTransactions(slaves[..n], slavesList);
      match PollCount(slaves[n], slavesList)
      case None => earlier
      case Some(count) => earlier + [ReadHoldingRegistersCall(slaves[n], 0, count, false)]
  }

  /** The handler calls one pass makes: one per read that got a response. */
  function SweepReports(slaves: seq<int>, slavesList: map<int, int>, outcomes: seq<TransactionOutcome>): (rs: seq<Report>)
    requires |outcomes| == |slaves|
    ensures |rs| <= |SweepTransactions(slaves, slavesList)|
    decreases |slaves|
  {
    if slaves == [] then []
    else
      var n := |slaves| - 1;
      var earlier := SweepReports(slaves[..n], slavesList, outcomes[..n]);
      if PollCount(slaves[n], slavesList).Some? && outcomes[n].Response? then
        earlier + [Report(slaves[n], CodeReadHoldingRegisters, outcomes[n].registers)]
      else earlier
  }

  /** The run flag after one pass: each read clears it and sets it again
      unless the read raised. */
  function SweepRunFlag(runFlag: bool, slaves: seq<int>, slavesList: map<int, int>, outcomes: seq<TransactionOutcome>): bool
    requires |outcomes| == |slaves|
    decreases |slaves|
  {
    if slaves == [] then runFlag
    else
      var n := |slaves| - 1;
      if PollCount(slaves[n], slavesList).Some? then outcomes[n] != Raised
      else SweepRunFlag(runFlag, slaves[..n], slavesList, outcomes[..n])
  }

  /** Every read of a sweep is of address 0, for a listed slave, with the
      slave's configured nonzero count; and every listed slave with such a
      count is read. */
  lemma {:induction false} SweepReadsExactlyPolledSlaves(slaves: seq<int>, slavesList: map<int, int>)
    ensures forall t :: t in SweepTransactions(slaves, slavesList) ==>
      && t.ReadHoldingRegistersCall? && t.address == 0 && !t.noResponseExpected
      && t.slave in slaves && PollCount(t.slave, slavesList) == Some(t.count)
    ensures forall s :: s in slaves && PollCount(s, slavesList).Some? ==>
      ReadHoldingRegistersCall(s, 0, PollCount(s, slavesList).value, false) in SweepTransactions(slaves, slavesList)
    decreases |slaves|
  {
    if slaves != [] {
      var n := |slaves| - 1;
      SweepReadsExactlyPolledSlaves(slaves[..n], slavesList);
      assert slaves == slaves[..n] + [slaves[n]];
    }
  }

  /** Every handler call of a sweep is a read report for a polled slave. */
  lemma {:induction false} SweepReportsAreReadReports(slaves: seq<int>, slavesList: map<int, int>, outcomes: seq<TransactionOutcome>)
    requires |outcomes| == |slaves|
    ensures forall r :: r in SweepReports(slaves, slavesList, outcomes) ==>
      r.code == CodeReadHoldingRegisters && r.slave in slaves && PollCount(r.slave, slavesList).Some?
    decreases |slaves|
  {
    if slaves != [] {
      var n := |slaves| - 1;
      SweepReportsAreReadReports(slaves[..n], slavesList, outcomes[..n]);
      assert slaves == slaves[..n] + [slaves[n]];
    }
  }

  /** After a sweep the run flag is as before when no slave was read, and
      otherwise set exactly when the last read did not raise. */
  lemma {:induction false} SweepRunFlagIsLastRead(runFlag: bool, slaves: seq<int>, slavesList: map<int, int>, outcomes: seq<TransactionOutcome>)
    requires |outcomes| == |slaves|
    ensures (forall i :: 0 <= i < |slaves| ==> PollCount(slaves[i], slavesList).None?) ==>
      SweepRunFlag(runFlag, slaves, slavesList, outcomes) == runFlag
    ensures forall i :: 0 <= i < |slaves| && PollCount(slaves[i], slavesList).Some?
                        && (forall j :: i < j < |slaves| ==> PollCount(slaves[j], slavesList).None?) ==>
                        SweepRunFlag(runFlag, slaves, slavesList, outcomes) == (outcomes[i] != Raised)
    decreases |slaves|
  {
    if slaves != [] {
      var n := |slaves| - 1;
      SweepRunFlagIsLastRead(runFlag, slaves[..n], slavesList, outcomes[..n]);
    }
  }

  /** The reads of a prefix of the slave list are a prefix of the sweep's reads. */
  lemma {:induction false} SweepTransactionsPrefix(slaves: seq<int>, slavesList: map<int, int>, j: nat)
    requires j <= |slaves|
    ensures SweepTransactions(slaves[..j], slavesList) <= SweepTransactions(slaves, slavesList)
    decreases |slaves| - j
  {
    if j == |slaves| {
      assert slaves[..j] == slaves;
    } else {
      var n := |slaves| - 1;
      SweepTransactionsPrefix(slaves[..n], slavesList, j);
      assert slaves[..n][..j] == slaves[..j];
    }
  }

  /** The reads follow the slave list: the i-th listed slave, when polled, is
      read right after the reads of the slaves listed before it, so a slave
      listed twice is read twice and later slaves are read later. */
  lemma SweepReadsInListOrder(slaves: seq<int>, slavesList: map<int, int>, i: nat)
    requires i < |slaves| && PollCount(slaves[i], slavesList).Some?
    ensures var k := |SweepTransactions(slaves[..i], slavesList)|;
      && k < |SweepTransactions(slaves, slavesList)|
      && SweepTransactions(slaves, slavesList)[k]
         == ReadHoldingRegistersCall(slaves[i], 0, PollCount(slaves[i], slavesList).value, false)
      && forall j :: i < j <= |slaves| ==> k < |SweepTransactions(slaves[..j], slavesList)|
  {
    SweepTransactionsPrefix(slaves, slavesList, i + 1);
    assert slaves[..i + 1][..i] == slaves[..i];
    forall j | i < j <= |slaves|
      ensures |SweepTransactions(slaves[..i], slavesList)| < |SweepTransactions(slaves[..j], slavesList)|
    {
      SweepTransactionsPrefix(slaves[..j], slavesList, i + 1);
      assert slaves[..j][..i + 1] == slaves[..i + 1];
    }
  }

  /** The reports of a prefix of the slave list are a prefix of the sweep's reports. */
  lemma {:induction false} SweepReportsPrefix(slaves: seq<int>, slavesList: map<int, int>, outcomes: seq<TransactionOutcome>, j: nat)
    requires |outcomes| == |slaves| && j <= |slaves|
    ensures SweepReports(slaves[..j], slavesList, outcomes[..j]) <= SweepReports(slaves, slavesList, outcomes)
    decreases |slaves| - j
  {
    if j == |slaves| {
      assert slaves[..j] == slaves && outcomes[..j] == outcomes;
    } else {
      var n := |slaves| - 1;
      SweepReportsPrefix(slaves[..n], slavesList, outcomes[..n], j);
      assert slaves[..n][..j] == slaves[..j] && outcomes[..n][..j] == outcomes[..j];
    }
  }

  /** Every polled slave whose read got a response is reported, with those
      registers, right after the reports of the slaves listed before it. */
  lemma SweepReportsEveryResponse(slaves: seq<int>, slavesList: map<int, int>, outcomes: seq<TransactionOutcome>, i: nat)
    requires |outcomes| == |slaves| && i < |slaves|
    requires PollCount(slaves[i], slavesList).Some? && outcomes[i].Response?
    ensures var k := |SweepReports(slaves[..i], slavesList, outcomes[..i])|;
      && k < |SweepReports(slaves, slavesList, outcomes)|
      && SweepReports(slaves, slavesList, outcomes)[k]
         == Report(slaves[i], CodeReadHoldingRegisters, outcomes[i].registers)
  {
    SweepReportsPrefix(slaves, slavesList, outcomes, i + 1);
    assert slaves[..i + 1][..i] == slaves[..i] && outcomes[..i + 1][..i] == outcomes[..i];
  }

  /** How the library's `connect()` went: the port opened, it refused, or the
      client's constructor or `connect()` raised. */
  datatype ConnectOutcome = Opened | Refused | ClientRaised | ConnectRaised

  /** `add_read_holding_registers_queue` always ends by raising. */
  datatype QueueError = AttributeError

  class SerialModbusRtuClient {
    /** `modbus_client is not None`. */
    var hasClient: bool
    var isConnected: bool
    /** `modbus_cycle_is_run_event`: set while the cyclic sweep may run. */
    var runFlag: bool
    var isStopCycleLoop: bool
    /** `request_queue`, oldest first. */
    var queue: seq<ModbusRequestParameter>
    /** `slaves_list`: slave id to the number of holding registers polled. */
    var slavesList: map<int, int>
    /** `cycle_read_slaves_list`: the slaves polled, in order. */
    var cycleReadSlavesList: seq<int>
    /** The library calls made, oldest first. */
    var transactions: seq<Transaction>
    /** The response-handler calls made, oldest first. */
    var reports: seq<Report>

    constructor ()
      ensures !hasClient && !isConnected && !runFlag && !isStopCycleLoop
      ensures queue == [] && transactions == [] && reports == []
      ensures slavesList == map[1 := 3, 2 := 10, 3 := 10]
      ensures cycleReadSlavesList == [1]
    {
      hasClient, isConnected, runFlag, isStopCycleLoop := false, false, false, false;
      queue, transactions, reports := [], [], [];
      slavesList := map[1 := 3, 2 := 10, 3 := 10];
      cycleReadSlavesList := [1];
    }

    /** `create_modbus_rtu_service`: None when already connected, otherwise
        whether the port opened; only an open port sets `isConnected`. */
    method CreateModbusRtuService(outcome: ConnectOutcome) returns (r: Option<bool>)
      modifies this`hasClient, this`isConnected
      ensures old(isConnected) ==> r == None && isConnected && hasClient == old(hasClient)
      ensures !old(isConnected) ==> r == Some(outcome == Opened) && isConnected == (outcome == Opened)
      ensures !old(isConnected) ==> hasClient == (old(hasClient) || outcome != ClientRaised)
    {
      if isConnected {
        return None;
      }
      if outcome == ClientRaised {
        return Some(false);
      }
      hasClient := true;
      if outcome != Opened {
        return Some(false);
      }
      isConnected := true;
      r := Some(true);
    }

    /** `start_cycle_read__loop`: with a cycle thread and a connection, let
        the sweep run and withdraw any stop request; `cycleThreadExists`
        stands for `modbus_cycle_thread is not None`. */
    method StartCycleReadLoop(cycleThreadExists: bool)
      modifies this`runFlag, this`isStopCycleLoop
      ensures cycleThreadExists && isConnected ==> runFlag && !isStopCycleLoop
      ensures !(cycleThreadExists && isConnected) ==>
        runFlag == old(runFlag) && isStopCycleLoop == old(isStopCycleLoop)
    {
      if cycleThreadExists && isConnected {
        runFlag := true;
        isStopCycleLoop := false;
      }
    }

    /** `stop_cycle_read__loop`: with a connection and a live cycle thread,
        pause the sweep and ask the loop to return; `cycleThreadAlive`
        stands for `modbus_cycle_thread.is_alive()`. */
    method StopCycleReadLoop(cycleThreadAlive: bool)
      modifies this`runFlag, this`isStopCycleLoop
      ensures isConnected && cycleThreadAlive ==> !runFlag && isStopCycleLoop
      ensures !(isConnected && cycleThreadAlive) ==>
        runFlag == old(runFlag) && isStopCycleLoop == old(isStopCycleLoop)
    {
      if isConnected && cycleThreadAlive {
        runFlag := false;
        isStopCycleLoop := true;
      }
    }

    /** `modbus_rtu_service_close`; `clientConnected` is the library client's
        own `connected` state.  `isConnected` is cleared only when there is a
        client and it reports itself connected. */
    method ModbusRtuServiceClose(clientConnected: bool)
      modifies this`isConnected
      ensures isConnected == (old(isConnected) && !(hasClient && clientConnected))
    {
      if hasClient && clientConnected {
        isConnected := false;
      }
    }

    /** `response_handle_command`: invoke the handler registered for `code`;
        an unknown code only logs. */
    method ResponseHandleCommand(slave: int, code: int, registers: seq<int>)
      modifies this`reports
      ensures reports == old(reports) + if code in ResponseHandlerCodes then [Report(slave, code, registers)] else []
    {
      if code in ResponseHandlerCodes {
        reports := reports + [Report(slave, code, registers)];
      }
    }

    /** One library call with the run flag cleared before it and set after
        it returns (`read_holding_registers`, `_write_register`,
        `_write_registers`); an exception skips the set. */
    method Bracketed(t: Transaction, outcome: TransactionOutcome)
      modifies this`runFlag, this`transactions, this`reports
      ensures transactions == old(transactions) + [t]
      ensures runFlag == (outcome != Raised)
      ensures reports == old(reports) + if outcome.Response? then [Report(t.slave, ReportCode(t), outcome.registers)] else []
    {
      runFlag := false;
      transactions := transactions + [t];
      if outcome == Raised {
        return;
      }
      runFlag := true;
      if outcome.Response? {
        ResponseHandleCommand(t.slave, ReportCode(t), outcome.registers);
      }
    }

    /** `read_holding_registers`: the bracketed read the cyclic sweep uses. */
    method ReadHoldingRegisters(address: int, count: int, slave: int, noResponseExpected: bool, outcome: TransactionOutcome)
      modifies this`runFlag, this`transactions, this`reports
      ensures transactions == old(transactions) + [ReadHoldingRegistersCall(slave, address, count, noResponseExpected)]
      ensures runFlag == (outcome != Raised)
      ensures reports == old(reports) + if outcome.Response? then [Report(slave, CodeReadHoldingRegisters, outcome.registers)] else []
    {
      Bracketed(ReadHoldingRegistersCall(slave, address, count, noResponseExpected), outcome);
    }

    /** `_read_holding_registers`: the read a queued request runs; it never
        touches the run flag. */
    method QueuedReadHoldingRegisters(address: int, count: int, slave: int, noResponseExpected: bool, outcome: TransactionOutcome)
      modifies this`transactions, this`reports
      ensures transactions == old(transactions) + [ReadHoldingRegistersCall(slave, address, count, noResponseExpected)]
      ensures reports == old(reports) + if outcome.Response? then [Report(slave, CodeReadHoldingRegisters, outcome.registers)] else []
    {
      transactions := transactions + [ReadHoldingRegistersCall(slave, address, count, noResponseExpected)];
      if outcome.Response? {
        ResponseHandleCommand(slave, CodeReadHoldingRegisters, outcome.registers);
      }
    }

    /** `_write_register`: bracketed, reported under 0x06. */
    method QueuedWriteRegister(address: int, value: int, slave: int, noResponseExpected: bool, outcome: TransactionOutcome)
      modifies this`runFlag, this`transactions, this`reports
      ensures transactions == old(transactions) + [WriteRegisterCall(slave, address, value, noResponseExpected)]
      ensures runFlag == (outcome != Raised)
      ensures reports == old(reports) + if outcome.Response? then [Report(slave, CodeWriteRegister, outcome.registers)] else []
    {
      Bracketed(WriteRegisterCall(slave, address, value, noResponseExpected), outcome);
    }

    /** `_write_registers`: bracketed, and also reported under 0x06, since
        0x10 has no response handler. */
    method QueuedWriteRegisters(address: int, values: seq<int>, slave: int, noResponseExpected: bool, outcome: TransactionOutcome)
      modifies this`runFlag, this`transactions, this`reports
      ensures transactions == old(transactions) + [WriteRegistersCall(slave, address, values, noResponseExpected)]
      ensures runFlag == (outcome != Raised)
      ensures reports == old(reports) + if outcome.Response? then [Report(slave, CodeWriteRegister, outcome.registers)] else []
    {
      Bracketed(WriteRegistersCall(slave, address, values, noResponseExpected), outcome);
    }

    /** `request_handle_command`: dispatch a dequeued request on its code;
        any other code, None included, calls nothing. */
    method RequestHandleCommand(req: ModbusRequestParameter, outcome: TransactionOutcome)
      modifies this`runFlag, this`transactions, this`reports
      ensures transactions == old(transactions) + match TransactionFor(req) case Some(t) => [t] case None => []
      ensures reports == old(reports) +
        if TransactionFor(req).Some? && outcome.Response?
        then [Report(req.slave, ReportCode(TransactionFor(req).value), outcome.registers)]
        else []
      ensures runFlag == if req.code in {Some(CodeWriteRegister), Some(CodeWriteRegisters)}
                         then outcome != Raised else old(runFlag)
    {
      var handler := RequestHandlerFor(req.code);
      match handler
      case None =>
      case Some(ReadHoldingRegistersHandler) =>
        QueuedReadHoldingRegisters(req.address, req.count, req.slave, req.noResponseExpected, outcome);
      case Some(WriteRegisterHandler) =>
        QueuedWriteRegister(req.address, req.value, req.slave, req.noResponseExpected, outcome);
      case Some(WriteRegistersHandler) =>
        QueuedWriteRegisters(req.address, req.values, req.slave, req.noResponseExpected, outcome);
    }

    /** One pass of the `for` loop in `_cycle_read__loop`; `outcomes[i]` is
        how the read of the i-th listed slave ends (unused when it is skipped). */
    method CycleReadSweep(outcomes: seq<TransactionOutcome>)
      requires |outcomes| == |cycleReadSlavesList|
      modifies this`runFlag, this`transactions, this`reports
      ensures transactions == old(transactions) + SweepTransactions(cycleReadSlavesList, slavesList)
      ensures reports == old(reports) + SweepReports(cycleReadSlavesList, slavesList, outcomes)
      ensures runFlag == SweepRunFlag(old(runFlag), cycleReadSlavesList, slavesList, outcomes)
    {
      var slaves := cycleReadSlavesList;
      for i := 0 to |slaves|
        invariant transactions == old(transactions) + SweepTransactions(slaves[..i], slavesList)
        invariant reports == old(reports) + SweepReports(slaves[..i], slavesList, outcomes[..i])
        invariant runFlag == SweepRunFlag(old(runFlag), slaves[..i], slavesList, outcomes[..i])
      {
        var slave := slaves[i];
        assert slaves[..i + 1][..i] == slaves[..i];
        assert outcomes[..i + 1][..i] == outcomes[..i];
        var count := PollCount(slave, slavesList);
        if count.Some? {
          ReadHoldingRegisters(0, count.value, slave, false, outcomes[i]);
        }
      }
      assert slaves[..|slaves|] == slaves;
      assert outcomes[..|slaves|] == outcomes;
    }

    /** `add_write_register_queue`: one request with code 0x06; the other
        fields keep their defaults. */
    method AddWriteRegisterQueue(address: int, value: int, slave: int, noResponseExpected: bool)
      modifies this`queue
      ensures queue == old(queue) + [DefaultRequest.(code := Some(CodeWriteRegister), value := value,
        address := address, slave := slave, noResponseExpected := noResponseExpected)]
    {
      queue := queue + [WriteRegisterRequest(address, value, slave, noResponseExpected)];
    }

    /** `add_write_registers_queue`: one request with code 0x10 carrying `values`. */
    method AddWriteRegistersQueue(address: int, values: seq<int>, slave: int, noResponseExpected: bool)
      modifies this`queue
      ensures queue == old(queue) + [DefaultRequest.(code := Some(CodeWriteRegisters), values := values,
        address := address, slave := slave, noResponseExpected := noResponseExpected)]
    {
      queue := queue + [WriteRegistersRequest(address, values, slave, noResponseExpected)];
    }

    /** `add_read_holding_registers_queue`: the request is queued, then the
        call raises because `self.request_parameter` was never assigned. */
    method AddReadHoldingRegistersQueue(address: int, count: int, slave: int, noResponseExpected: bool)
      returns (r: Outcome<QueueError>)
      modifies this`queue
      ensures queue == old(queue) + [DefaultRequest.(code := Some(CodeReadHoldingRegisters), count := count,
        address := address, slave := slave, noResponseExpected := noResponseExpected)]
      ensures r == Fail(AttributeError)
    {
      queue := queue + [ReadHoldingRegistersRequest(address, count, slave, noResponseExpected)];
      r := Fail(AttributeError);
    }
  }
}
