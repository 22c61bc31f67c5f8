/**
 * The acceptor's application callbacks (FixServerApplication.java): the
 * logon gate, the execution report answering a new order, and dispatch of
 * inbound admin and application messages to those handlers.
 *
 * What a handler does is given first as a value, an `Effect`: the outcome of
 * the callback and the calls it makes on engine sessions, in order. The
 * callback methods then perform exactly those calls on the engine stub.
 */
module ServerApplication {
  import opened FixTypes
  import opened QuickFix

  /** The only counterparty allowed to log on. */
  const AllowedTargetCompID := "client-honghuan"

  // Values the execution report carries whatever the order says.
  const ReportExecID := "12345"
  const ReportText := "11111"
  const ReportLeavesQty := 1
  const ReportCumQty := 1

  datatype Effect = Effect(outcome: Outcome, calls: seq<SessionCall>)

  /** The authentication check of `onLogonMessage`. */
  predicate Authenticated(id: SessionId)
  {
    id.targetCompID == AllowedTargetCompID
  }

  /**
   * `onLogonMessage`: reject unless the target comp id is allow-listed;
   * otherwise `logon()` then `sentLogon()` on the session, which must exist.
   */
  function LogonEffect(id: SessionId, known: set<SessionId>): (r: Effect)
    ensures r.outcome == Done <==> id.targetCompID == AllowedTargetCompID && id in known
    ensures id.targetCompID != AllowedTargetCompID ==> r.outcome == Failed(AuthError)
    ensures id.targetCompID == AllowedTargetCompID && id !in known ==> r == Effect(Failed(NullSession), [])
    ensures r.calls == (if r.outcome == Done then [LogonCall(id), SentLogonCall(id)] else [])
  {
    if !Authenticated(id) then Effect(Failed(AuthError), [])
    else if id !in known then Effect(Failed(NullSession), [])
    else Effect(Done, [LogonCall(id), SentLogonCall(id)])
  }

  /** The fields of a report that do not depend on the order. */
  predicate HasFixedReportFields(report: Message)
  {
    && report.ExecutionReport?
    && report.execType == Some(ExecTypeNew)
    && report.ordStatus == Some(OrdStatusNew)
    && report.side == Some(SideBuy)
    && report.execID == Some(ReportExecID)
    && report.leavesQty == Some(ReportLeavesQty)
    && report.cumQty == Some(ReportCumQty)
    && report.text == Some(ReportText)
  }

  /**
   * The report `onNewOrderMessage` builds: ClOrdID and Symbol echoed from the
   * order (reading either when absent throws FieldNotFound, ClOrdID first),
   * a fresh `orderId` and the clock reading `now`, everything else fixed.
   */
  function ExecutionReportFor(order: Message, orderId: string, now: Timestamp): (r: Result<Message, Failure>)
    requires order.NewOrderSingle?
    ensures r.Ok? <==> order.clOrdID.Some? && order.symbol.Some?
    ensures order.clOrdID.None? ==> r == Err(FieldNotFound(TagClOrdID))
    ensures order.clOrdID.Some? && order.symbol.None? ==> r == Err(FieldNotFound(TagSymbol))
    ensures r.Ok? ==> && HasFixedReportFields(r.value)
                      && r.value.clOrdID == order.clOrdID
                      && r.value.symbol == order.symbol
                      && r.value.orderID == Some(orderId)
                      && r.value.transactTime == Some(now)
  {
    if order.clOrdID.None? then Err(FieldNotFound(TagClOrdID))
    else if order.symbol.None? then Err(FieldNotFound(TagSymbol))
    else Ok(ExecutionReport(
      clOrdID := order.clOrdID,
      orderID := Some(orderId),
      execType := Some(ExecTypeNew),
      ordStatus := Some(OrdStatusNew),
      transactTime := Some(now),
      execID := Some(ReportExecID),
      side := Some(SideBuy),
      leavesQty := Some(ReportLeavesQty),
      cumQty := Some(ReportCumQty),
      symbol := order.symbol,
      text := Some(ReportText)))
  }

  /**
   * `onNewOrderMessage`: send the report to the session the order came on;
   * a missing session (SessionNotFound) is logged and swallowed.
   */
  function NewOrderEffect(order: Message, id: SessionId, known: set<SessionId>, orderId: string, now: Timestamp): (r: Effect)
    requires order.NewOrderSingle?
    ensures r.outcome == Done <==> order.clOrdID.Some? && order.symbol.Some?
    ensures r.outcome != Failed(SessionNotFound)
    ensures ExecutionReportFor(order, orderId, now).Err? ==>
              r == Effect(Failed(ExecutionReportFor(order, orderId, now).error), [])
    ensures ExecutionReportFor(order, orderId, now).Ok? ==>
              r.calls == (if id in known then [SendCall(id, ExecutionReportFor(order, orderId, now).value)] else [])
    ensures |r.calls| <= 1
    ensures r.calls != [] <==> r.outcome == Done && id in known
    ensures r.calls != [] ==> && r.calls[0].SendCall?
                               && r.calls[0].id == id
                               && HasFixedReportFields(r.calls[0].message)
                               && r.calls[0].message.clOrdID == order.clOrdID
                               && r.calls[0].message.symbol == order.symbol
  {
    match ExecutionReportFor(order, orderId, now)
    case Err(e) => Effect(Failed(e), [])
    case Ok(report) => Effect(Done, if id in known then [SendCall(id, report)] else [])
  }

  /**
   * The message cracker: logon, new-order and cancel messages go to their
   * handlers; a message type with no handler is UnsupportedMessageType.
   */
  function CrackEffect(message: Message, id: SessionId, known: set<SessionId>, orderId: string, now: Timestamp): (r: Effect)
    ensures message.Logon? ==> r == LogonEffect(id, known)
    ensures message.NewOrderSingle? ==> r == NewOrderEffect(message, id, known, orderId, now)
    ensures r.calls != [] ==> message.Logon? || message.NewOrderSingle?
    ensures message.OrderCancelRequest? ==> r == Effect(Done, [])
    ensures message.ExecutionReport? || message.Other? ==> r == Effect(Failed(UnsupportedMessageType), [])
  {
    match message
    case Logon => LogonEffect(id, known)
    case NewOrderSingle(_, _, _, _, _, _, _, _) => NewOrderEffect(message, id, known, orderId, now)
    case OrderCancelRequest(_, _, _, _, _, _, _) => Effect(Done, [])
    case ExecutionReport(_, _, _, _, _, _, _, _, _, _, _) => Effect(Failed(UnsupportedMessageType), [])
    case Other(_) => Effect(Failed(UnsupportedMessageType), [])
  }

  /** `onLogonMessage` on the engine. */
  method OnLogonMessage(message: Message, id: SessionId, transport: Transport) returns (r: Outcome)
    requires message.Logon?
    modifies transport
    ensures var e := LogonEffect(id, transport.known);
            r == e.outcome && transport.trace == old(transport.trace) + e.calls
  {
    var found := transport.HasSession(id);
    if !Authenticated(id) {
      return Failed(AuthError);
    }
    if !found {
      return Failed(NullSession);
    }
    transport.SessionLogon(id);
    transport.SessionSentLogon(id);
    r := Done;
  }

  /** `onNewOrderMessage` on the engine; `orderId` stands for the random UUID, `now` for the clock. */
  method OnNewOrderMessage(message: Message, id: SessionId, transport: Transport, orderId: string, now: Timestamp)
    returns (r: Outcome)
    requires message.NewOrderSingle?
    modifies transport
    ensures var e := NewOrderEffect(message, id, transport.known, orderId, now);
            r == e.outcome && transport.trace == old(transport.trace) + e.calls
  {
    var report := ExecutionReportFor(message, orderId, now);
    if report.Err? {
      return Failed(report.error);
    }
    var sent := transport.SendToTarget(report.value, Some(id));
    r := Done;
  }

  /** `onCancelOrderMessage`: logs the request and does nothing else. */
  method OnCancelOrderMessage(message: Message, id: SessionId) returns (r: Outcome)
    requires message.OrderCancelRequest?
    ensures r == Done
  {
    r := Done;
  }

  /** `crack`: dispatch by message type. */
  method Crack(message: Message, id: SessionId, transport: Transport, orderId: string, now: Timestamp)
    returns (r: Outcome)
    modifies transport
    ensures var e := CrackEffect(message, id, transport.known, orderId, now);
            r == e.outcome && transport.trace == old(transport.trace) + e.calls
  {
    match message
    case Logon =>
      r := OnLogonMessage(message, id, transport);
    case NewOrderSingle(_, _, _, _, _, _, _, _) =>
      r := OnNewOrderMessage(message, id, transport, orderId, now);
    case OrderCancelRequest(_, _, _, _, _, _, _) =>
      r := OnCancelOrderMessage(message, id);
    case ExecutionReport(_, _, _, _, _, _, _, _, _, _, _) =>
      r := Failed(UnsupportedMessageType);
    case Other(_) =>
      r := Failed(UnsupportedMessageType);
  }

  /** `fromAdmin`: inbound admin messages are dispatched like application messages. */
  method FromAdmin(message: Message, id: SessionId, transport: Transport, orderId: string, now: Timestamp)
    returns (r: Outcome)
    modifies transport
    ensures var e := CrackEffect(message, id, transport.known, orderId, now);
            r == e.outcome && transport.trace == old(transport.trace) + e.calls
  {
    r := Crack(message, id, transport, orderId, now);
  }

  /** `fromApp`: inbound application messages are dispatched. */
  method FromApp(message: Message, id: SessionId, transport: Transport, orderId: string, now: Timestamp)
    returns (r: Outcome)
    modifies transport
    ensures var e := CrackEffect(message, id, transport.known, orderId, now);
            r == e.outcome && transport.trace == old(transport.trace) + e.calls
  {
    r := Crack(message, id, transport, orderId, now);
  }

  /** `onCreate`: logs only. */
  method OnCreate(id: SessionId) returns (r: Outcome)
    ensures r == Done
  {
    r := Done;
  }

  /** `onLogon`: logs only. */
  method OnLogon(id: SessionId) returns (r: Outcome)
    ensures r == Done
  {
    r := Done;
  }

  /** `onLogout`: logs only. */
  method OnLogout(id: SessionId) returns (r: Outcome)
    ensures r == Done
  {
    r := Done;
  }
}
