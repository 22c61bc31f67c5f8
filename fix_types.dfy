/**
 * Values shared by the acceptor and the initiator: session identifiers, the
 * FIX 4.4 messages the gateway builds or reads, and the outcome of a callback.
 *
 * A message is a record of optional fields: a field the counterparty left out
 * is `None`, and reading it is the FieldNotFound error of the FIX engine.
 */
module FixTypes {

  datatype Option<+T> = None | Some(value: T)

  datatype Result<+T, +E> = Ok(value: T) | Err(error: E)

  /** A session identifier: structural equality on all four parts. */
  datatype SessionId = SessionId(
    beginString: string,
    senderCompID: string,
    targetCompID: string,
    qualifier: string)

  /** A wall-clock reading; the clock itself is not modelled. */
  type Timestamp = nat

  // FIX 4.4 tag numbers of the fields the gateway reads.
  const TagClOrdID: nat := 11
  const TagOrderID: nat := 37
  const TagOrdStatus: nat := 39
  const TagSymbol: nat := 55

  // FIX 4.4 enumerated field values used by the gateway.
  const ExecTypeNew: char := '0'
  const OrdStatusNew: char := '0'
  const SideBuy: char := '1'
  const OrdTypeMarket: char := '1'
  const TimeInForceDay: char := '0'
  const HandlInstAutomatedPrivate: char := '1'

  /**
   * The messages the gateway handles. Floating-point fields (OrderQty, Price,
   * CashOrderQty, AvgPx) are not part of the model.
   */
  datatype Message =
    | Logon
    | NewOrderSingle(
        clOrdID: Option<string>,
        side: Option<char>,
        transactTime: Option<Timestamp>,
        ordType: Option<char>,
        symbol: Option<string>,
        handlInst: Option<char>,
        currency: Option<string>,
        timeInForce: Option<char>)
    | OrderCancelRequest(
        clOrdID: Option<string>,
        orderID: Option<string>,
        origClOrdID: Option<string>,
        side: Option<char>,
        symbol: Option<string>,
        transactTime: Option<Timestamp>,
        text: Option<string>)
    | ExecutionReport(
        clOrdID: Option<string>,
        orderID: Option<string>,
        execType: Option<char>,
        ordStatus: Option<char>,
        transactTime: Option<Timestamp>,
        execID: Option<string>,
        side: Option<char>,
        leavesQty: Option<int>,
        cumQty: Option<int>,
        symbol: Option<string>,
        text: Option<string>)
    | Other(msgType: string)

  /** What a callback may throw back into the engine. */
  datatype Failure =
    | FieldNotFound(tag: nat)
    | UnsupportedMessageType
    | AuthError
    | NullSession
    | SessionNotFound

  /** The outcome of a callback: it returned normally, or it threw. */
  datatype Outcome = Done | Failed(failure: Failure)
}
