# quickfixj-spring gateway core in Dafny

This project models the logic-bearing core of a FIX trading-session gateway
built on QuickFIX/J. The gateway has two sides.

- **Acceptor side** (`FixServer`, `FixServerApplication`).
  - At start-up it binds every dynamic-session template section to its
    listening address, groups the templates by address, and registers one
    `DynamicAcceptorSessionProvider` per address before starting the acceptor.
  - At run time it lets a session log on only when the session's target comp
    id is `client-honghuan`.
  - It answers every NewOrderSingle that carries ClOrdID and Symbol, on a
    session the engine knows, with a NEW ExecutionReport that echoes the
    order's ClOrdID and Symbol. An order missing either field fails with
    FieldNotFound before any report is built; on a session the engine cannot
    find, the report is dropped and the SessionNotFound is swallowed.
- **Initiator side** (`FixClient`, `FixClientApplication`).
  - A two-state latch either starts the initiator or asks every session to log
    on again.
  - One shared slot holds the current session id. It is set on logon and
    cleared on any logout.
  - Two commands send a fixed NewOrderSingle or OrderCancelRequest to whatever
    session the slot holds.

Modules, one per source file, plus shared types and engine stand-ins:

| file | module | models |
|---|---|---|
| `fix_types.dfy` | `FixTypes` | session ids, the FIX 4.4 messages used, callback outcomes |
| `quickfix_stubs.dfy` | `QuickFix` | the engine: session registry and `sendToTarget`, acceptor and initiator connectors, as call traces |
| `template_resolver.dfy` | `TemplateResolver` | the pure reads and the section pass of `FixServer.java`, with the grouping lemmas |
| `fix_server.dfy` | `Server` | class `FixServer`: `start`, `configureDynamicSessions`, `getMappings`, `getSessionIDs` |
| `fix_server_application.dfy` | `ServerApplication` | logon gate, execution report, dispatch (`FixServerApplication.java`) |
| `fix_client_application.dfy` | `ClientApplication` | class `FixClientApplication`: the session slot, handlers, commands |
| `fix_client.dfy` | `Client` | class `FixClient`: the start latch |
| `end_to_end.dfy` | `EndToEnd` | the initiator's order as answered by the acceptor |

How the model is built:

- **The section pass.** It is specified by the function `Collect`, a left fold
  over the sections. Its result holds the address map and the failure that
  stopped the pass, if any. So the partly filled map left behind by a failing
  section is part of the model.
- **Reference definition.** `TemplatesAt(sections, a)` lists, in
  section-iteration order, the mappings of the template sections bound to address `a`. The
  grouping lemmas tie `Collect` to it.
- **Provider registration.** `FixServer.ConfigureDynamicSessions` runs the
  loops of the source. It proves that its map equals `Collect`'s. It also
  proves that each address is registered exactly once, with its complete
  list. HashMap iteration order is unspecified, so the registration loop picks
  any address not yet registered.
- **Acceptor handlers.** Each one is first given as an `Effect`: the callback's
  outcome and the calls it makes on engine sessions, in order. The callback
  methods are proved to make exactly those calls on the engine stand-in.
- **Thrown exceptions** are `Failed(...)` outcomes or `Err(...)` results. A
  message field that is absent is `None`, and reading it is
  `FieldNotFound(tag)`.

The code has no session registry with lifecycle states, no order correlation
table, no duplicate-order or cancel-state checks, no status-monotonicity rule
and no logged-on check before sending; its `start` methods log and swallow
every exception. The model follows the code.

## Model

| member | source | states |
|---|---|---|
| `TemplateResolver.IsSessionTemplate` | server-acceptor/src/main/java/com/honghuan/acceptor/fix/FixServer.java:117-119 | a section is a template exactly when its AcceptorTemplate setting is present and true; an unconvertible flag is a FieldConvertError |
| `TemplateResolver.AcceptorSocketAddress` | server-acceptor/src/main/java/com/honghuan/acceptor/fix/FixServer.java:101-109 | the host is the accept-address setting, or `0.0.0.0` when unset; the port is required: missing is ConfigError, unconvertible is FieldConvertError, outside 0..65535 is refused |
| `TemplateResolver.StepOk` | server-acceptor/src/main/java/com/honghuan/acceptor/fix/FixServer.java:72-76 | one loop iteration over a good section adds the section's own mapping to the end of its address's list and changes no other address |
| `TemplateResolver.CollectFailsIff` | server-acceptor/src/main/java/com/honghuan/acceptor/fix/FixServer.java:67-77 | the pass fails exactly when some section has an unconvertible template flag, or is a template whose port is missing, unconvertible or out of range |
| `TemplateResolver.CollectStopsAtFirstFailure` | server-acceptor/src/main/java/com/honghuan/acceptor/fix/FixServer.java:70-77 | the failure reported is the first bad section's, and the map keeps exactly what the sections before it added |
| `TemplateResolver.CollectGroups` | server-acceptor/src/main/java/com/honghuan/acceptor/fix/FixServer.java:70-93 | after a pass with no failure, each address's list is its previous list followed by the template sections bound to it, in section-iteration order; an address gets a list only if some template binds to it |
| `TemplateResolver.TemplatesAtSound` | server-acceptor/src/main/java/com/honghuan/acceptor/fix/FixServer.java:73-75 | every mapping listed for an address is some template section bound there, with that section's id as both pattern and template |
| `TemplateResolver.TemplatesAtComplete` | server-acceptor/src/main/java/com/honghuan/acceptor/fix/FixServer.java:73-75 | every template section bound to an address has its mapping in that address's list |
| `TemplateResolver.ResolveFromEmpty` | server-acceptor/src/main/java/com/honghuan/acceptor/fix/FixServer.java:70-77 | starting from the empty map, no list is empty, and a section's mapping is in an address's list exactly when the section is a template bound to that address |
| `TemplateResolver.NonTemplateSkipped` | server-acceptor/src/main/java/com/honghuan/acceptor/fix/FixServer.java:73 | a section whose template flag is absent or false neither adds a mapping nor fails the pass |
| `Server.FixServer.constructor` | server-acceptor/src/main/java/com/honghuan/acceptor/fix/FixServer.java:28-38 | no acceptor and an empty address map |
| `Server.FixServer.Start` | server-acceptor/src/main/java/com/honghuan/acceptor/fix/FixServer.java:44-57 | a settings failure changes nothing. Otherwise a new acceptor is created and configured. If configuration fails, no provider is registered and `start()` is never called. If it succeeds, each address is registered exactly once before the single `start()` call |
| `Server.FixServer.GetMappings` | server-acceptor/src/main/java/com/honghuan/acceptor/fix/FixServer.java:91-93 | returns the address's list, or a new empty list that it also stores; no other entry changes |
| `Server.FixServer.ConfigureDynamicSessions` | server-acceptor/src/main/java/com/honghuan/acceptor/fix/FixServer.java:67-84 | the map ends as `Collect` says, on failure too. On success the acceptor receives one provider per address, each with that address's complete list, and no other provider |
| `Server.FixServer.GetSessionIDs` | server-acceptor/src/main/java/com/honghuan/acceptor/fix/FixServer.java:125-130 | null while there is no acceptor, otherwise the acceptor's session list |
| `ServerApplication.LogonEffect` | server-acceptor/src/main/java/com/honghuan/acceptor/fix/FixServerApplication.java:31-41 | a logon succeeds exactly when the target comp id is `client-honghuan` (and the session exists); on success it calls `logon()` then `sentLogon()`, once each. A wrong target comp id is an auth error; an allow-listed session that does not exist fails on the null session (NullSession); either rejection calls neither |
| `ServerApplication.OnLogonMessage` | server-acceptor/src/main/java/com/honghuan/acceptor/fix/FixServerApplication.java:31-41 | performs exactly the calls of `LogonEffect` on the engine, in order, and returns its outcome |
| `ServerApplication.ExecutionReportFor` | server-acceptor/src/main/java/com/honghuan/acceptor/fix/FixServerApplication.java:49-66 | the report echoes the order's ClOrdID and Symbol. Whatever else the order says, it carries ExecType NEW, OrdStatus NEW, Side BUY, ExecID `12345`, LeavesQty 1, CumQty 1 and Text `11111`. An order missing ClOrdID (checked first) or Symbol raises FieldNotFound |
| `ServerApplication.NewOrderEffect` | server-acceptor/src/main/java/com/honghuan/acceptor/fix/FixServerApplication.java:49-74 | an order missing ClOrdID or Symbol fails with the FieldNotFound of `ExecutionReportFor` and sends nothing. Otherwise the outcome is success and the report of `ExecutionReportFor` (echoed ClOrdID and Symbol, the new OrderID and TransactTime) is sent once to the session the order arrived on, if the engine knows it; SessionNotFound is swallowed and never becomes the outcome |
| `ServerApplication.OnNewOrderMessage` | server-acceptor/src/main/java/com/honghuan/acceptor/fix/FixServerApplication.java:49-74 | performs exactly the calls of `NewOrderEffect` on the engine and returns its outcome |
| `ServerApplication.OnCancelOrderMessage` | server-acceptor/src/main/java/com/honghuan/acceptor/fix/FixServerApplication.java:82-84 | returns normally; with no modifies clause it changes nothing and sends nothing |
| `ServerApplication.CrackEffect` | server-acceptor/src/main/java/com/honghuan/acceptor/fix/FixServerApplication.java:30-84 | a logon has exactly the effect of the logon gate (`LogonEffect`) and a new order exactly that of the order responder (`NewOrderEffect`); only these two cause session calls. A cancel request causes none and succeeds. A type with no handler is UnsupportedMessageType |
| `ServerApplication.Crack` | server-acceptor/src/main/java/com/honghuan/acceptor/fix/FixServerApplication.java:30-84 | dispatches to the handlers with exactly the calls and outcome of `CrackEffect` |
| `ServerApplication.FromAdmin` | server-acceptor/src/main/java/com/honghuan/acceptor/fix/FixServerApplication.java:108-111 | inbound admin messages are dispatched like application messages |
| `ServerApplication.FromApp` | server-acceptor/src/main/java/com/honghuan/acceptor/fix/FixServerApplication.java:119-122 | inbound application messages are dispatched |
| `ServerApplication.OnCreate` | server-acceptor/src/main/java/com/honghuan/acceptor/fix/FixServerApplication.java:88-90 | returns normally and changes nothing |
| `ServerApplication.OnLogon` | server-acceptor/src/main/java/com/honghuan/acceptor/fix/FixServerApplication.java:93-95 | returns normally and changes nothing |
| `ServerApplication.OnLogout` | server-acceptor/src/main/java/com/honghuan/acceptor/fix/FixServerApplication.java:98-100 | returns normally and changes nothing |
| `ClientApplication.LastLifecycleChange` | client-initiator/src/main/java/com/honghuan/initiator/fix/FixClientApplication.java:34-43 | None exactly when no callback in the sequence is a logon or logout; otherwise a logon or logout that occurs in the sequence at a position with no logon or logout after it |
| `ClientApplication.SlotFollowsLastLifecycleChange` | client-initiator/src/main/java/com/honghuan/initiator/fix/FixClientApplication.java:25-43 | after any sequence of callbacks, the slot holds the id of the last logon if no logout followed it, nothing if a logout came last, and is unchanged if there was neither |
| `ClientApplication.LastIsLastLifecycleChange` | client-initiator/src/main/java/com/honghuan/initiator/fix/FixClientApplication.java:34-43 | a logon or logout appended to any sequence is its last lifecycle change |
| `ClientApplication.LogoutClearsSlot` | client-initiator/src/main/java/com/honghuan/initiator/fix/FixClientApplication.java:40-43 | a logout of any session empties the slot, even when a different session logged on last |
| `ClientApplication.NewOrder` | client-initiator/src/main/java/com/honghuan/initiator/fix/FixClientApplication.java:92-101 | the order has ClOrdID `IT001`, Side BUY, OrdType MARKET, Symbol `BTC`, HandlInst `1`, Currency `CNY` and TimeInForce DAY |
| `ClientApplication.CancelRequest` | client-initiator/src/main/java/com/honghuan/initiator/fix/FixClientApplication.java:110-118 | the request has the fresh ClOrdID, OrderID `123`, OrigClOrdID `XXX`, Side BUY, Symbol `BTC` and Text `Cancel Order!` |
| `ClientApplication.ExecutionReportOutcome` | client-initiator/src/main/java/com/honghuan/initiator/fix/FixClientApplication.java:72-85 | reads OrderID and then OrdStatus; only a missing field fails (FieldNotFound). Every status value, not only NEW and PENDING_CANCEL, is handled without error |
| `ClientApplication.FixClientApplication.constructor` | client-initiator/src/main/java/com/honghuan/initiator/fix/FixClientApplication.java:25 | the slot starts empty |
| `ClientApplication.FixClientApplication.OnCreate` | client-initiator/src/main/java/com/honghuan/initiator/fix/FixClientApplication.java:29-31 | the slot is unchanged |
| `ClientApplication.FixClientApplication.OnLogon` | client-initiator/src/main/java/com/honghuan/initiator/fix/FixClientApplication.java:34-37 | the session that logged on becomes the current one |
| `ClientApplication.FixClientApplication.OnLogout` | client-initiator/src/main/java/com/honghuan/initiator/fix/FixClientApplication.java:40-43 | the slot is emptied, whatever session logged out |
| `ClientApplication.FixClientApplication.FromAdmin` | client-initiator/src/main/java/com/honghuan/initiator/fix/FixClientApplication.java:51-53 | admin messages are not dispatched. It never fails, even on a malformed execution report, and changes nothing |
| `ClientApplication.FixClientApplication.FromApp` | client-initiator/src/main/java/com/honghuan/initiator/fix/FixClientApplication.java:61-64 | execution reports go to their handler; other types are UnsupportedMessageType. The slot is unchanged |
| `ClientApplication.FixClientApplication.OnExecutionReportMessage` | client-initiator/src/main/java/com/honghuan/initiator/fix/FixClientApplication.java:72-85 | the outcome of `ExecutionReportOutcome`. Only logging happens, and the slot is unchanged |
| `ClientApplication.FixClientApplication.CreateOrder` | client-initiator/src/main/java/com/honghuan/initiator/fix/FixClientApplication.java:91-103 | sends `NewOrder` to the current session and returns the send result unmodified. SessionNotFound, with nothing sent, when the slot is empty or names no session |
| `ClientApplication.FixClientApplication.CancelOrder` | client-initiator/src/main/java/com/honghuan/initiator/fix/FixClientApplication.java:109-120 | sends `CancelRequest` to the current session and returns the send result unmodified. SessionNotFound, with nothing sent, when the slot is empty or names no session |
| `Client.FixClient.constructor` | client-initiator/src/main/java/com/honghuan/initiator/fix/FixClient.java:23-28 | no initiator, latch clear |
| `Client.FixClient.Logon` | client-initiator/src/main/java/com/honghuan/initiator/fix/FixClient.java:60-74 | latch clear: one `start()` call, and the latch is set only if it succeeds. Latch set: no `start()`, and one `logon()` per session of the initiator, in order. The latch never returns to clear, and the initiator field is never reassigned |
| `Client.FixClient.Start` | client-initiator/src/main/java/com/honghuan/initiator/fix/FixClient.java:40-54 | a settings failure changes nothing. Otherwise a new initiator is created first, then `logon` runs exactly once |
| `Client.FailedStartIsRetried` | client-initiator/src/main/java/com/honghuan/initiator/fix/FixClient.java:60-74 | a failed start leaves the latch clear, so the next `logon` starts again; once started, `logon` re-drives every session without a third start |
| `EndToEnd.OrderIsAnswered` | server-acceptor/src/main/java/com/honghuan/acceptor/fix/FixServerApplication.java:49-74 | the initiator's fixed order is answered on its own session by a NEW report for `IT001`/`BTC`, which the initiator's report handler accepts |

## Left out

- Spring wiring, `ServerAcceptorApplication.java`, and loading of `server.cfg`/`client.cfg`. These are framework start-up and I/O. Loading plus creating the engine objects is one input: `None` when it throws, otherwise the parsed sections or session list.
- Settings parsing and the `[DEFAULT]` fallback. A section is given with each setting already resolved: unset, unconvertible, or a value.
- QuickFIX/J internals. The stand-ins in `QuickFix` keep only the calls the gateway makes and their results:
  - message stores, log factories and the message factory;
  - how `DynamicAcceptorSessionProvider` matches inbound comp ids;
  - the static sessions `ThreadedSocketAcceptor` creates (its session list is given as data);
  - whether `sendToTarget` delivers (the sessions it reports as sent are given as data).
- `Client.FixClient.Start` and `Server.FixServer.GetSessionIDs`: the engine stand-ins report their session list as soon as they are constructed, whether or not `start()` ran. The engine creates a connector's sessions in `start()`, so one that never started reports none. The model therefore overstates two cases. A second `start` with the latch already set calls `logon()` on every session of the new, never-started initiator, where the engine's loop would find no sessions. After a failed configuration pass, `getSessionIDs` returns the acceptor's sessions although the acceptor never started.
- `MessageCracker` dispatch is modelled by message kind. A message type with no handler yields UnsupportedMessageType, which is the cracker's default.
- `Session.sendToTarget` with a null session id is modelled as SessionNotFound. The engine's own behaviour for a null id is not part of this model.
- Concurrency: the acceptor's worker threads and `synchronized` on `FixClient.logon`. All callbacks run one at a time.
- Static fields: `FixServer.acceptor` and `FixClientApplication.sessionID` are static in the source but instance fields here. Sharing them across instances is not modelled.
- `GetMappings` aliasing: the source returns the map's own list and appends to it in place. The model writes the extended list back, which gives the same map.
- Floating-point fields: OrderQty, CashOrderQty, Price and AvgPx. LeavesQty and CumQty are the integer 1.
- `LocalDateTime.now()` and `UUID.randomUUID()` become parameters (`now`, `orderId`, `clOrdID`).
- `InetSocketAddress`: DNS resolution and equality of resolved addresses are not modelled. An address is a structural (host, port) pair.
- The `(int)` narrowing of the long port. A port outside 0..65535 is refused as it is, without wrapping first.
- Logging: every log statement, `toAdmin`/`toApp` (they only log), and which log line `onExecutionReportMessage`'s switch selects.
- Not in the code: order correlation, duplicate-id rejection, status monotonicity, cancel-state checks and logged-on checks before sending. The source has none of these, so the model has none.
