/**
 * The acceptor's start-up (FixServer.java): create the acceptor, bind every
 * dynamic-session template to its listening address, then start accepting.
 */
module Server {
  import opened FixTypes
  import opened QuickFix
  import opened TemplateResolver

  /**
   * The provider log `log` registers every address of `m` exactly once, each
   * with that address's complete list, and registers no other address.
   */
  ghost predicate RegisteredExactlyOnce(log: seq<Registration>, m: Mappings)
  {
    && (forall i :: 0 <= i < |log| ==> log[i].address in m && log[i].mappings == m[log[i].address])
    && (forall i, j :: 0 <= i < j < |log| ==> log[i].address != log[j].address)
    && (forall a :: a in m ==> exists i :: 0 <= i < |log| && log[i].address == a)
  }

  class FixServer {
    /** The acceptor; null until `start` has created one. */
    var acceptor: Acceptor?
    /** Template lists by listening address, filled by `configureDynamicSessions`. */
    var dynamicSessionMappings: Mappings

    constructor ()
      ensures acceptor == null && dynamicSessionMappings == map[]
    {
      acceptor := null;
      dynamicSessionMappings := map[];
    }

    /**
     * `start`: load the settings, create the acceptor, configure the dynamic
     * sessions and only then start the acceptor. Every exception is logged and
     * swallowed. `settings` is None when loading the settings or creating the
     * engine objects failed; `bindOk` says whether the acceptor manages to start.
     */
    method Start(settings: Option<seq<Section>>, sessions: seq<SessionId>, bindOk: bool)
      modifies this
      ensures settings.None? ==>
                acceptor == old(acceptor) && dynamicSessionMappings == old(dynamicSessionMappings)
      ensures settings.Some? ==>
                var pass := Collect(old(dynamicSessionMappings), settings.value);
                && acceptor != null && fresh(acceptor) && acceptor.sessions == sessions
                && dynamicSessionMappings == pass.mappings
                && (pass.failure.Some? ==>
                      acceptor.registrations == [] && acceptor.startCalls == 0 && !acceptor.running)
                && (pass.failure.None? ==>
                      && RegisteredExactlyOnce(acceptor.registrations, dynamicSessionMappings)
                      && acceptor.startCalls == 1
                      && acceptor.providersAtStart == acceptor.registrations
                      && acceptor.running == bindOk)
    {
      if settings.None? {
        return;
      }
      acceptor := new Acceptor(sessions);
      var failure := ConfigureDynamicSessions(settings.value);
      if failure.Some? {
        return;
      }
      var _ := acceptor.Start(bindOk);
    }

    /** `getMappings`: `computeIfAbsent(address, k -> new ArrayList<>())`. */
    method GetMappings(address: Address) returns (list: seq<TemplateMapping>)
      modifies this
      ensures list == MappingsAt(old(dynamicSessionMappings), address)
      ensures address in dynamicSessionMappings
      ensures dynamicSessionMappings == old(dynamicSessionMappings)[address := list]
      ensures acceptor == old(acceptor)
    {
      if address !in dynamicSessionMappings {
        dynamicSessionMappings := dynamicSessionMappings[address := []];
      }
      list := dynamicSessionMappings[address];
    }

    /**
     * `configureDynamicSessions`: one pass over the sections appending each
     * template's mapping to its address's list, then one provider per address.
     * A failing section stops the pass with the map as far as it got, and no
     * provider is registered.
     */
    method ConfigureDynamicSessions(sections: seq<Section>) returns (failure: Option<ConfigFailure>)
      requires acceptor != null && acceptor.registrations == []
      modifies this, acceptor
      ensures acceptor == old(acceptor)
      ensures Collect(old(dynamicSessionMappings), sections) == Pass(dynamicSessionMappings, failure)
      ensures failure.Some? ==> acceptor.registrations == []
      ensures failure.None? ==> RegisteredExactlyOnce(acceptor.registrations, dynamicSessionMappings)
      ensures acceptor.startCalls == old(acceptor.startCalls) && acceptor.running == old(acceptor.running)
      ensures acceptor.providersAtStart == old(acceptor.providersAtStart)
    {
      var i := 0;
      while i < |sections|
        invariant 0 <= i <= |sections|
        invariant acceptor == old(acceptor)
        invariant unchanged(acceptor)
        invariant Collect(old(dynamicSessionMappings), sections) == Collect(dynamicSessionMappings, sections[i..])
      {
        var s := sections[i];
        ghost var current := dynamicSessionMappings;
        assert sections[i..][0] == s && sections[i..][1..] == sections[i + 1..];
        var isTemplate := IsSessionTemplate(s);
        if isTemplate.Err? {
          failure := Some(isTemplate.error);
          return;
        }
        if isTemplate.value {
          var address := AcceptorSocketAddress(s);
          if address.Err? {
            failure := Some(address.error);
            return;
          }
          var list := GetMappings(address.value);
          dynamicSessionMappings := dynamicSessionMappings[address.value := list + [MappingOf(s)]];
          assert dynamicSessionMappings == current[address.value := MappingsAt(current, address.value) + [MappingOf(s)]];
        }
        assert Step(current, s) == Ok(dynamicSessionMappings);
        i := i + 1;
      }
      failure := None;

      var mappings := dynamicSessionMappings;
      var remaining := mappings.Keys;
      while remaining != {}
        invariant remaining <= mappings.Keys
        invariant acceptor == old(acceptor) && dynamicSessionMappings == mappings
        invariant acceptor.startCalls == old(acceptor.startCalls) && acceptor.running == old(acceptor.running)
        invariant acceptor.providersAtStart == old(acceptor.providersAtStart)
        invariant RegisteredExactlyOnce(acceptor.registrations, mappings - remaining)
        decreases remaining
      {
        var address :| address in remaining;
        ghost var before := acceptor.registrations;
        ghost var done := mappings - remaining;
        acceptor.SetSessionProvider(address, mappings[address]);
        remaining := remaining - {address};
        forall a | a in mappings - remaining
          ensures exists j :: 0 <= j < |acceptor.registrations| && acceptor.registrations[j].address == a
        {
          if a == address {
            assert acceptor.registrations[|before|].address == a;
          } else {
            assert a in done;
            var j :| 0 <= j < |before| && before[j].address == a;
            assert acceptor.registrations[j].address == a;
          }
        }
      }
      assert mappings - {} == mappings;
    }

    /** `getSessionIDs`: null while there is no acceptor, else the acceptor's sessions. */
    method GetSessionIDs() returns (r: Option<seq<SessionId>>)
      ensures acceptor == null <==> r.None?
      ensures acceptor != null ==> r == Some(acceptor.sessions)
    {
      if acceptor != null {
        return Some(acceptor.sessions);
      }
      return None;
    }
  }
}
