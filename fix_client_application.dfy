/**
 * The initiator's application callbacks (FixClientApplication.java): one
 * shared slot holding the current session id, set on logon and cleared on
 * any logout, and the two commands that send to whatever session it holds.
 *
 * There is no order bookkeeping here: the execution-report handler reads two
 * fields and logs them.
 */
module ClientApplication {
  import opened FixTypes
  import opened QuickFix

  // The fixed content of the commands.
  const OrderClOrdID := "IT001"
  const OrderSymbol := "BTC"
  const OrderCurrency := "CNY"
  const CancelOrigClOrdID := "XXX"
  const CancelOrderID := "123"
  const CancelText := "Cancel Order!"

  /** The callbacks the engine makes on the application. */
  datatype Callback =
    | Created(id: SessionId)
    | LoggedOn(id: SessionId)
    | LoggedOut(id: SessionId)
    | AdminIn(message: Message)
    | AppIn(message: Message)

  predicate IsLifecycleChange(c: Callback)
  {
    c.LoggedOn? || c.LoggedOut?
  }

  /** The slot after one callback. */
  function NextSlot(slot: Option<SessionId>, c: Callback): Option<SessionId>
  {
    match c
    case LoggedOn(k) => Some(k)
    case LoggedOut(_) => None
    case _ => slot
  }

  /** The slot after a sequence of callbacks, applied in order. */
  function SlotAfter(slot: Option<SessionId>, cs: seq<Callback>): Option<SessionId>
    decreases |cs|
  {
    if cs == [] then slot else SlotAfter(NextSlot(slot, cs[0]), cs[1..])
  }

  /**
   * The last logon or logout among `cs`: None exactly when there is none,
   * otherwise a logon or logout at some position with none after it.
   */
  function LastLifecycleChange(cs: seq<Callback>): (r: Option<Callback>)
    ensures r.None? <==> forall i :: 0 <= i < |cs| ==> !IsLifecycleChange(cs[i])
    ensures r.Some? ==> r.value in cs && IsLifecycleChange(r.value)
    ensures r.Some? ==> exists i :: 0 <= i < |cs| && cs[i] == r.value &&
                          forall j :: i < j < |cs| ==> !IsLifecycleChange(cs[j])
    decreases |cs|
  {
    if cs == [] then None
    else match LastLifecycleChange(cs[1..])
      case Some(c) =>
        var i :| 0 <= i < |cs[1..]| && cs[1..][i] == c &&
                 forall j :: i < j < |cs[1..]| ==> !IsLifecycleChange(cs[1..][j]);
        assert cs[i + 1] == c && forall j :: i + 1 < j < |cs| ==> !IsLifecycleChange(cs[j]) by {
          forall j | i + 1 < j < |cs| ensures !IsLifecycleChange(cs[j]) {
            assert cs[j] == cs[1..][j - 1];
          }
        }
        Some(c)
      case None =>
        assert forall j :: 0 < j < |cs| ==> !IsLifecycleChange(cs[j]) by {
          forall j | 0 < j < |cs| ensures !IsLifecycleChange(cs[j]) {
            assert cs[j] == cs[1..][j - 1];
          }
        }
        if IsLifecycleChange(cs[0]) then Some(cs[0]) else None
  }

  /**
   * The slot is decided by the last logon or logout alone: the id of the last
   * logon, or nothing after a logout of any session; callbacks of other kinds
   * leave it as it was.
   */
  lemma {:induction false} SlotFollowsLastLifecycleChange(slot: Option<SessionId>, cs: seq<Callback>)
    ensures SlotAfter(slot, cs) ==
              match LastLifecycleChange(cs)
              case None => slot
              case Some(c) => if c.LoggedOn? then Some(c.id) else None
    decreases |cs|
  {
    if cs != [] {
      SlotFollowsLastLifecycleChange(NextSlot(slot, cs[0]), cs[1..]);
    }
  }

  /** A logout clears the slot, whichever session logged on last and whichever session logs out. */
  lemma LogoutClearsSlot(slot: Option<SessionId>, cs: seq<Callback>, k: SessionId)
    ensures SlotAfter(slot, cs + [LoggedOut(k)]) == None
  {
    SlotFollowsLastLifecycleChange(slot, cs + [LoggedOut(k)]);
    LastIsLastLifecycleChange(cs, LoggedOut(k));
  }

  lemma {:induction false} LastIsLastLifecycleChange(cs: seq<Callback>, c: Callback)
    requires IsLifecycleChange(c)
    ensures LastLifecycleChange(cs + [c]) == Some(c)
    decreases |cs|
  {
    if cs == [] {
      assert ([c])[1..] == [];
    } else {
      assert (cs + [c])[1..] == cs[1..] + [c];
      LastIsLastLifecycleChange(cs[1..], c);
    }
  }

  /** The order `createOrder` sends; `now` stands for the clock reading. */
  function NewOrder(now: Timestamp): (m: Message)
    ensures m.NewOrderSingle?
    ensures m.clOrdID == Some(OrderClOrdID) && m.symbol == Some(OrderSymbol)
    ensures m.side == Some(SideBuy) && m.ordType == Some(OrdTypeMarket)
    ensures m.handlInst == Some(HandlInstAutomatedPrivate) && m.currency == Some(OrderCurrency)
    ensures m.timeInForce == Some(TimeInForceDay) && m.transactTime == Some(now)
  {
    NewOrderSingle(
      clOrdID := Some(OrderClOrdID),
      side := Some(SideBuy),
      transactTime := Some(now),
      ordType := Some(OrdTypeMarket),
      symbol := Some(OrderSymbol),
      handlInst := Some(HandlInstAutomatedPrivate),
      currency := Some(OrderCurrency),
      timeInForce := Some(TimeInForceDay))
  }

  /** The request `cancelOrder` sends; `clOrdID` stands for the random UUID. */
  function CancelRequest(clOrdID: string, now: Timestamp): (m: Message)
    ensures m.OrderCancelRequest?
    ensures m.clOrdID == Some(clOrdID) && m.origClOrdID == Some(CancelOrigClOrdID)
    ensures m.orderID == Some(CancelOrderID) && m.side == Some(SideBuy)
    ensures m.symbol == Some(OrderSymbol) && m.text == Some(CancelText)
    ensures m.transactTime == Some(now)
  {
    OrderCancelRequest(
      clOrdID := Some(clOrdID),
      orderID := Some(CancelOrderID),
      origClOrdID := Some(CancelOrigClOrdID),
      side := Some(SideBuy),
      symbol := Some(OrderSymbol),
      transactTime := Some(now),
      text := Some(CancelText))
  }

  /**
   * `onExecutionReportMessage`: reads OrderID and then OrdStatus (an absent
   * one throws FieldNotFound) and only logs; every status is accepted.
   */
  function ExecutionReportOutcome(report: Message): (r: Outcome)
    requires report.ExecutionReport?
    ensures r == Done <==> report.orderID.Some? && report.ordStatus.Some?
    ensures report.orderID.None? ==> r == Failed(FieldNotFound(TagOrderID))
    ensures report.orderID.Some? && report.ordStatus.None? ==> r == Failed(FieldNotFound(TagOrdStatus))
  {
    if report.orderID.None? then Failed(FieldNotFound(TagOrderID))
    else if report.ordStatus.None? then Failed(FieldNotFound(TagOrdStatus))
    else Done
  }

  class FixClientApplication {
    /** The current session id; None stands for null. */
    var sessionID: Option<SessionId>

    constructor ()
      ensures sessionID == None
    {
      sessionID := None;
    }

    /** `onCreate`: logs only. */
    method OnCreate(id: SessionId)
      ensures sessionID == NextSlot(old(sessionID), Created(id))
    {
    }

    /** `onLogon`: the session that logged on becomes the current one. */
    method OnLogon(id: SessionId)
      modifies this
      ensures sessionID == NextSlot(old(sessionID), LoggedOn(id))
    {
      sessionID := Some(id);
    }

    /** `onLogout`: clears the current session, whichever session logged out. */
    method OnLogout(id: SessionId)
      modifies this
      ensures sessionID == NextSlot(old(sessionID), LoggedOut(id))
    {
      sessionID := None;
    }

    /** `fromAdmin`: inbound admin messages are logged and not dispatched. */
    method FromAdmin(message: Message, id: SessionId) returns (r: Outcome)
      ensures r == Done
    {
      r := Done;
    }

    /** `fromApp`: only execution reports have a handler. */
    method FromApp(message: Message, id: SessionId) returns (r: Outcome)
      ensures message.ExecutionReport? ==> r == ExecutionReportOutcome(message)
      ensures !message.ExecutionReport? ==> r == Failed(UnsupportedMessageType)
    {
      if message.ExecutionReport? {
        r := OnExecutionReportMessage(message, id);
      } else {
        r := Failed(UnsupportedMessageType);
      }
    }

    /** `onExecutionReportMessage` */
    method OnExecutionReportMessage(report: Message, id: SessionId) returns (r: Outcome)
      requires report.ExecutionReport?
      ensures r == ExecutionReportOutcome(report)
    {
      if report.orderID.None? {
        return Failed(FieldNotFound(TagOrderID));
      }
      if report.ordStatus.None? {
        return Failed(FieldNotFound(TagOrdStatus));
      }
      r := Done;
    }

    /** `createOrder`: send the fixed order to the current session and return the send result. */
    method CreateOrder(transport: Transport, now: Timestamp) returns (r: Result<bool, Failure>)
      modifies transport
      ensures sessionID.Some? && sessionID.value in transport.known ==>
                r == Ok(sessionID.value in transport.loggedOn)
                && transport.trace == old(transport.trace) + [SendCall(sessionID.value, NewOrder(now))]
      ensures !(sessionID.Some? && sessionID.value in transport.known) ==>
                r == Err(SessionNotFound) && transport.trace == old(transport.trace)
    {
      var order := NewOrder(now);
      r := transport.SendToTarget(order, sessionID);
    }

    /** `cancelOrder`: send the fixed cancel request to the current session and return the send result. */
    method CancelOrder(transport: Transport, clOrdID: string, now: Timestamp) returns (r: Result<bool, Failure>)
      modifies transport
      ensures sessionID.Some? && sessionID.value in transport.known ==>
                r == Ok(sessionID.value in transport.loggedOn)
                && transport.trace == old(transport.trace) + [SendCall(sessionID.value, CancelRequest(clOrdID, now))]
      ensures !(sessionID.Some? && sessionID.value in transport.known) ==>
                r == Err(SessionNotFound) && transport.trace == old(transport.trace)
    {
      var request := CancelRequest(clOrdID, now);
      r := transport.SendToTarget(request, sessionID);
    }
  }
}
