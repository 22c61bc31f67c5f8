/**
 * The initiator's start-up (FixClient.java): a two-state latch. Before the
 * initiator has started, `logon` tries to start it; once it has started,
 * `logon` asks every session of the initiator to log on again.
 */
module Client {
  import opened FixTypes
  import opened QuickFix

  class FixClient {
    /** The initiator; null until `start` has created one. */
    var initiator: Initiator?
    /** Set once the initiator has started; never cleared. */
    var initiatorStarted: bool

    /** Once the flag is set there is an initiator to re-drive. */
    ghost predicate Valid()
      reads this
    {
      initiatorStarted ==> initiator != null
    }

    constructor ()
      ensures Valid()
      ensures initiator == null && !initiatorStarted
    {
      initiator := null;
      initiatorStarted := false;
    }

    /**
     * `logon`. Not started: call `start()` on the initiator and set the flag
     * only if it did not throw (with no initiator the call throws, and the
     * exception is logged). Started: call `logon()` on each session the
     * initiator returns, in order, and never `start()`.
     */
    method Logon(startOk: bool)
      requires Valid()
      modifies this, initiator
      ensures Valid()
      ensures initiator == old(initiator)
      ensures old(initiatorStarted) ==> initiatorStarted
      ensures !old(initiatorStarted) && initiator == null ==> !initiatorStarted
      ensures !old(initiatorStarted) && initiator != null ==>
                && initiatorStarted == startOk
                && initiator.startCalls == old(initiator.startCalls) + 1
                && initiator.running == (old(initiator.running) || startOk)
                && initiator.logons == old(initiator.logons)
      ensures old(initiatorStarted) ==>
                && initiator.startCalls == old(initiator.startCalls)
                && initiator.running == old(initiator.running)
                && initiator.logons == old(initiator.logons) + initiator.sessions
    {
      if !initiatorStarted {
        if initiator == null {
          return;
        }
        var ok := initiator.Start(startOk);
        if ok {
          initiatorStarted := true;
        }
      } else {
        var sessions := initiator.sessions;
        var i := 0;
        while i < |sessions|
          invariant 0 <= i <= |sessions|
          invariant initiator == old(initiator) && initiatorStarted
          invariant initiator.startCalls == old(initiator.startCalls) && initiator.running == old(initiator.running)
          invariant initiator.logons == old(initiator.logons) + sessions[..i]
        {
          initiator.SessionLogon(sessions[i]);
          assert sessions[..i + 1] == sessions[..i] + [sessions[i]];
          i := i + 1;
        }
        assert sessions[..i] == sessions;
      }
    }

    /**
     * `start`: create the initiator from the settings, then call `logon` once.
     * `sessions` is None when loading the settings or creating the initiator
     * failed; the exception is logged and nothing changes.
     */
    method Start(sessions: Option<seq<SessionId>>, startOk: bool)
      requires Valid()
      modifies this
      ensures Valid()
      ensures old(initiatorStarted) ==> initiatorStarted
      ensures sessions.None? ==>
                initiator == old(initiator) && initiatorStarted == old(initiatorStarted)
      ensures sessions.Some? ==>
                && initiator != null && fresh(initiator) && initiator.sessions == sessions.value
                && (old(initiatorStarted) ==>
                      initiator.startCalls == 0 && initiator.logons == sessions.value)
                && (!old(initiatorStarted) ==>
                      initiator.startCalls == 1 && initiator.logons == [] && initiatorStarted == startOk)
    {
      if sessions.None? {
        return;
      }
      var created := new Initiator(sessions.value);
      initiator := created;
      Logon(startOk);
    }
  }

  /**
   * The latch over three calls: a start that throws leaves the flag clear,
   * so the next `logon` starts the initiator again; after that, `logon`
   * re-drives every session and does not start again.
   */
  method FailedStartIsRetried(sessions: seq<SessionId>) returns (client: FixClient)
    ensures client.initiator != null && client.initiatorStarted
    ensures client.initiator.startCalls == 2 && client.initiator.running
    ensures client.initiator.logons == sessions
  {
    client := new FixClient();
    client.Start(Some(sessions), false);
    assert !client.initiatorStarted;
    client.Logon(true);
    client.Logon(false);
  }
}
