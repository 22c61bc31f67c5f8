/**
 * The two sides together: the order the initiator sends is one the acceptor
 * answers, and the answer is one the initiator's handler accepts.
 */
module EndToEnd {
  import opened FixTypes
  import ServerApplication
  import ClientApplication

  /**
   * The fixed order of `createOrder`, received by `onNewOrderMessage`, yields
   * a NEW report for ClOrdID IT001 and symbol BTC, sent back on the session
   * it came from, which `onExecutionReportMessage` handles without error.
   */
  lemma OrderIsAnswered(id: SessionId, known: set<SessionId>, now: Timestamp, orderId: string, reportTime: Timestamp)
    requires id in known
    ensures var e := ServerApplication.NewOrderEffect(ClientApplication.NewOrder(now), id, known, orderId, reportTime);
            && e.outcome == Done
            && |e.calls| == 1 && e.calls[0].SendCall? && e.calls[0].id == id
            && e.calls[0].message.clOrdID == Some(ClientApplication.OrderClOrdID)
            && e.calls[0].message.symbol == Some(ClientApplication.OrderSymbol)
            && e.calls[0].message.ordStatus == Some(OrdStatusNew)
            && ClientApplication.ExecutionReportOutcome(e.calls[0].message) == Done
  {
  }
}
