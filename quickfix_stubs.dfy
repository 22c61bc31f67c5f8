/**
 * Stand-ins for the FIX engine the gateway is built on. Only what the gateway
 * can observe is kept: which calls it made, in which order, and what they
 * returned. Whether a session is known or logged on, and whether starting a
 * connector succeeds, are decided outside the model and given as data.
 */
module QuickFix {
  import opened FixTypes

  /** A listening address, compared structurally as a (host, port) pair. */
  datatype Address = Address(host: string, port: int)

  /**
   * A dynamic-session template mapping: inbound sessions whose id matches
   * `pattern` are created from the settings of `template`.
   */
  datatype TemplateMapping = TemplateMapping(pattern: SessionId, template: SessionId)

  /** One call of `setSessionProvider`: the address and the provider's template list. */
  datatype Registration = Registration(address: Address, mappings: seq<TemplateMapping>)

  /** A call the gateway made on an engine session. */
  datatype SessionCall =
    | LogonCall(id: SessionId)
    | SentLogonCall(id: SessionId)
    | SendCall(id: SessionId, message: Message)

  /**
   * The engine's static session registry (`Session.lookupSession`,
   * `Session.sendToTarget`) together with the trace of calls made on sessions.
   */
  class Transport {
    const known: set<SessionId>
    const loggedOn: set<SessionId>
    var trace: seq<SessionCall>

    constructor (known: set<SessionId>, loggedOn: set<SessionId>)
      ensures this.known == known && this.loggedOn == loggedOn && trace == []
    {
      this.known := known;
      this.loggedOn := loggedOn;
      trace := [];
    }

    /** `Session.lookupSession(id) != null` */
    predicate HasSession(id: SessionId)
    {
      id in known
    }

    /** `session.logon()` on a session that exists */
    method SessionLogon(id: SessionId)
      requires HasSession(id)
      modifies this
      ensures trace == old(trace) + [LogonCall(id)]
    {
      trace := trace + [LogonCall(id)];
    }

    /** `session.sentLogon()` on a session that exists */
    method SessionSentLogon(id: SessionId)
      requires HasSession(id)
      modifies this
      ensures trace == old(trace) + [SentLogonCall(id)]
    {
      trace := trace + [SentLogonCall(id)];
    }

    /**
     * `Session.sendToTarget(message, id)`: SessionNotFound when no session has
     * that id (an absent id included); otherwise the message is handed to the
     * session and the result says whether it went out.
     */
    method SendToTarget(message: Message, id: Option<SessionId>) returns (r: Result<bool, Failure>)
      modifies this
      ensures id.Some? && id.value in known ==>
                r == Ok(id.value in loggedOn) && trace == old(trace) + [SendCall(id.value, message)]
      ensures !(id.Some? && id.value in known) ==>
                r == Err(SessionNotFound) && trace == old(trace)
    {
      if id.Some? && id.value in known {
        trace := trace + [SendCall(id.value, message)];
        r := Ok(id.value in loggedOn);
      } else {
        r := Err(SessionNotFound);
      }
    }
  }

  /** The acceptor connector (`ThreadedSocketAcceptor`). */
  class Acceptor {
    const sessions: seq<SessionId>
    var registrations: seq<Registration>
    var startCalls: nat
    var running: bool
    /** The registrations in place when `start()` was last called. */
    var providersAtStart: seq<Registration>

    constructor (sessions: seq<SessionId>)
      ensures this.sessions == sessions
      ensures registrations == [] && startCalls == 0 && !running && providersAtStart == []
    {
      this.sessions := sessions;
      registrations := [];
      startCalls := 0;
      running := false;
      providersAtStart := [];
    }

    /** `setSessionProvider(address, new DynamicAcceptorSessionProvider(..., mappings, ...))` */
    method SetSessionProvider(address: Address, mappings: seq<TemplateMapping>)
      modifies this
      ensures registrations == old(registrations) + [Registration(address, mappings)]
      ensures startCalls == old(startCalls) && running == old(running)
      ensures providersAtStart == old(providersAtStart)
    {
      registrations := registrations + [Registration(address, mappings)];
    }

    /** `start()`; `bindOk` says whether the engine managed to bind and start. */
    method Start(bindOk: bool) returns (ok: bool)
      modifies this
      ensures ok == bindOk
      ensures startCalls == old(startCalls) + 1 && running == (old(running) || bindOk)
      ensures registrations == old(registrations) && providersAtStart == registrations
    {
      startCalls := startCalls + 1;
      providersAtStart := registrations;
      running := running || bindOk;
      ok := bindOk;
    }
  }

  /** The initiator connector (`SocketInitiator`). */
  class Initiator {
    const sessions: seq<SessionId>
    var startCalls: nat
    var running: bool
    var logons: seq<SessionId>

    constructor (sessions: seq<SessionId>)
      ensures this.sessions == sessions
      ensures startCalls == 0 && !running && logons == []
    {
      this.sessions := sessions;
      startCalls := 0;
      running := false;
      logons := [];
    }

    /** `start()`; `startOk` says whether the engine started or threw. */
    method Start(startOk: bool) returns (ok: bool)
      modifies this
      ensures ok == startOk
      ensures startCalls == old(startCalls) + 1 && running == (old(running) || startOk)
      ensures logons == old(logons)
    {
      startCalls := startCalls + 1;
      running := running || startOk;
      ok := startOk;
    }

    /** `Session.lookupSession(id).logon()` for a session this initiator owns */
    method SessionLogon(id: SessionId)
      requires id in sessions
      modifies this
      ensures logons == old(logons) + [id]
      ensures startCalls == old(startCalls) && running == old(running)
    {
      logons := logons + [id];
    }
  }
}
