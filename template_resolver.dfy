/**
 * The pure part of the acceptor's dynamic-session configuration
 * (FixServer.java): which configured sections are acceptor templates, which
 * address each template binds to, and how one pass over the sections groups
 * the templates by address.
 *
 * A section is seen through the engine's settings lookups, already resolved
 * against the [DEFAULT] section: each setting is unset, set to text the
 * engine cannot convert, or set to a value.
 */
module TemplateResolver {
  import opened FixTypes
  import opened QuickFix

  datatype Setting<+T> = Unset | Unconvertible(text: string) | Value(v: T)

  datatype Section = Section(
    id: SessionId,
    acceptorTemplate: Setting<bool>,   // AcceptorTemplate
    acceptAddress: Option<string>,     // SocketAcceptAddress
    acceptPort: Setting<int>)          // SocketAcceptPort

  const AcceptorTemplateKey := "AcceptorTemplate"
  const SocketAcceptPortKey := "SocketAcceptPort"

  /** The wildcard host used when a template names no accept address. */
  const AnyHost := "0.0.0.0"

  /** Why the configuration pass stopped. */
  datatype ConfigFailure =
    | ConfigError(section: SessionId, key: string)          // a required setting is missing
    | FieldConvertError(section: SessionId, key: string)    // a setting cannot be converted
    | PortOutOfRange(section: SessionId, port: int)         // InetSocketAddress refuses the port

  type Mappings = map<Address, seq<TemplateMapping>>

  predicate ValidPort(port: int)
  {
    0 <= port <= 65535
  }

  /** `isSessionTemplate`: the flag must be present and true. */
  function IsSessionTemplate(s: Section): (r: Result<bool, ConfigFailure>)
    ensures r == Ok(true) <==> s.acceptorTemplate == Value(true)
    ensures r.Err? <==> s.acceptorTemplate.Unconvertible?
    ensures r.Err? ==> r.error == FieldConvertError(s.id, AcceptorTemplateKey)
  {
    match s.acceptorTemplate
    case Unset => Ok(false)
    case Unconvertible(_) => Err(FieldConvertError(s.id, AcceptorTemplateKey))
    case Value(b) => Ok(b)
  }

  /** `getAcceptorSocketAddress`: the accept address or the wildcard host, and a required port. */
  function AcceptorSocketAddress(s: Section): (r: Result<Address, ConfigFailure>)
    ensures r.Ok? <==> s.acceptPort.Value? && ValidPort(s.acceptPort.v)
    ensures r.Ok? ==> r.value.port == s.acceptPort.v
    ensures r.Ok? && s.acceptAddress.Some? ==> r.value.host == s.acceptAddress.value
    ensures r.Ok? && s.acceptAddress.None? ==> r.value.host == AnyHost
    ensures s.acceptPort.Unset? ==> r == Err(ConfigError(s.id, SocketAcceptPortKey))
    ensures s.acceptPort.Unconvertible? ==> r == Err(FieldConvertError(s.id, SocketAcceptPortKey))
  {
    var host := if s.acceptAddress.Some? then s.acceptAddress.value else AnyHost;
    match s.acceptPort
    case Unset => Err(ConfigError(s.id, SocketAcceptPortKey))
    case Unconvertible(_) => Err(FieldConvertError(s.id, SocketAcceptPortKey))
    case Value(port) =>
      if ValidPort(port) then Ok(Address(host, port)) else Err(PortOutOfRange(s.id, port))
  }

  /** The mapping a template section contributes: its own id as pattern and template. */
  function MappingOf(s: Section): TemplateMapping
  {
    TemplateMapping(s.id, s.id)
  }

  /** The list kept for an address; an address without one reads as empty. */
  function MappingsAt(m: Mappings, a: Address): seq<TemplateMapping>
  {
    if a in m then m[a] else []
  }

  /** A section that the pass handles without throwing. */
  predicate SectionOk(s: Section)
  {
    IsSessionTemplate(s).Ok? && (IsSessionTemplate(s) == Ok(true) ==> AcceptorSocketAddress(s).Ok?)
  }

  /** A template section that binds to `a`. */
  predicate BindsTo(s: Section, a: Address)
  {
    IsSessionTemplate(s) == Ok(true) && AcceptorSocketAddress(s) == Ok(a)
  }

  /** One iteration of the section loop: skip the section, append its mapping, or throw. */
  function Step(m: Mappings, s: Section): Result<Mappings, ConfigFailure>
  {
    match IsSessionTemplate(s)
    case Err(e) => Err(e)
    case Ok(isTemplate) =>
      if !isTemplate then Ok(m)
      else match AcceptorSocketAddress(s)
        case Err(e) => Err(e)
        case Ok(a) => Ok(m[a := MappingsAt(m, a) + [MappingOf(s)]])
  }

  /** The map after the loop, and the failure that stopped it if one did. */
  datatype Pass = Pass(mappings: Mappings, failure: Option<ConfigFailure>)

  /** The section loop of `configureDynamicSessions`, in iteration order, from map `m`. */
  function Collect(m: Mappings, sections: seq<Section>): Pass
    decreases |sections|
  {
    if sections == [] then Pass(m, None)
    else match Step(m, sections[0])
      case Err(e) => Pass(m, Some(e))
      case Ok(m') => Collect(m', sections[1..])
  }

  /**
   * Reference definition of one address's list: the mappings of the template
   * sections bound to `a`, in section order.
   */
  function TemplatesAt(sections: seq<Section>, a: Address): seq<TemplateMapping>
    decreases |sections|
  {
    if sections == [] then []
    else (if BindsTo(sections[0], a) then [MappingOf(sections[0])] else [])
         + TemplatesAt(sections[1..], a)
  }

  lemma StepOk(m: Mappings, s: Section, a: Address)
    requires SectionOk(s)
    ensures Step(m, s).Ok?
    ensures a in Step(m, s).value <==> a in m || BindsTo(s, a)
    ensures MappingsAt(Step(m, s).value, a)
            == MappingsAt(m, a) + (if BindsTo(s, a) then [MappingOf(s)] else [])
  {
  }

  /** The pass fails exactly when some section cannot be handled. */
  lemma {:induction false} CollectFailsIff(m: Mappings, sections: seq<Section>)
    ensures Collect(m, sections).failure.None? <==>
            forall i :: 0 <= i < |sections| ==> SectionOk(sections[i])
    decreases |sections|
  {
    if sections != [] {
      var s := sections[0];
      if SectionOk(s) {
        assert Step(m, s).Ok?;
        CollectFailsIff(Step(m, s).value, sections[1..]);
        assert forall i :: 1 <= i < |sections| ==> sections[i] == sections[1..][i - 1];
      } else {
        assert Step(m, s).Err?;
      }
    }
  }

  /**
   * The failure reported is that of the first section that cannot be handled,
   * and the map holds what the sections before it contributed.
   */
  lemma {:induction false} CollectStopsAtFirstFailure(m: Mappings, sections: seq<Section>, k: nat)
    requires k < |sections| && !SectionOk(sections[k])
    requires forall i :: 0 <= i < k ==> SectionOk(sections[i])
    ensures Step(Collect(m, sections[..k]).mappings, sections[k]).Err?
    ensures Collect(m, sections) ==
            Pass(Collect(m, sections[..k]).mappings,
                 Some(Step(Collect(m, sections[..k]).mappings, sections[k]).error))
    decreases k
  {
    var s := sections[0];
    if k == 0 {
      assert sections[..0] == [];
    } else {
      assert Step(m, s).Ok?;
      var rest := sections[1..];
      assert forall i :: 0 <= i < k - 1 ==> rest[i] == sections[i + 1];
      CollectStopsAtFirstFailure(Step(m, s).value, rest, k - 1);
      assert sections[..k][0] == s && sections[..k][1..] == rest[..k - 1];
    }
  }

  /** Grouping at one address; see CollectGroups. */
  lemma {:induction false} CollectGroupsAt(m: Mappings, sections: seq<Section>, a: Address)
    requires forall i :: 0 <= i < |sections| ==> SectionOk(sections[i])
    ensures a in Collect(m, sections).mappings <==> a in m || TemplatesAt(sections, a) != []
    ensures MappingsAt(Collect(m, sections).mappings, a) == MappingsAt(m, a) + TemplatesAt(sections, a)
    decreases |sections|
  {
    if sections != [] {
      var s := sections[0];
      StepOk(m, s, a);
      var m' := Step(m, s).value;
      var rest := sections[1..];
      assert forall i :: 0 <= i < |rest| ==> rest[i] == sections[i + 1];
      assert Collect(m, sections) == Collect(m', rest);
      CollectGroupsAt(m', rest, a);
      var head := if BindsTo(s, a) then [MappingOf(s)] else [];
      assert TemplatesAt(sections, a) == head + TemplatesAt(rest, a);
      assert MappingsAt(m, a) + head + TemplatesAt(rest, a)
             == MappingsAt(m, a) + (head + TemplatesAt(rest, a));
    }
  }

  /**
   * Grouping: after a pass with no failure, each address holds its previous
   * list followed by exactly the template sections bound to it, in order, and
   * an address has a list only if it had one or some template binds to it.
   */
  lemma CollectGroups(m: Mappings, sections: seq<Section>)
    requires forall i :: 0 <= i < |sections| ==> SectionOk(sections[i])
    ensures Collect(m, sections).failure.None?
    ensures forall a :: a in Collect(m, sections).mappings <==> a in m || TemplatesAt(sections, a) != []
    ensures forall a :: MappingsAt(Collect(m, sections).mappings, a) == MappingsAt(m, a) + TemplatesAt(sections, a)
  {
    CollectFailsIff(m, sections);
    forall a
      ensures a in Collect(m, sections).mappings <==> a in m || TemplatesAt(sections, a) != []
      ensures MappingsAt(Collect(m, sections).mappings, a) == MappingsAt(m, a) + TemplatesAt(sections, a)
    {
      CollectGroupsAt(m, sections, a);
    }
  }

  /** A mapping in an address's reference list comes from a template section bound there. */
  lemma {:induction false} TemplatesAtSound(sections: seq<Section>, a: Address, t: TemplateMapping)
    requires t in TemplatesAt(sections, a)
    ensures exists i :: 0 <= i < |sections| && BindsTo(sections[i], a) && t == MappingOf(sections[i])
    decreases |sections|
  {
    if BindsTo(sections[0], a) && t == MappingOf(sections[0]) {
      assert BindsTo(sections[0], a);
    } else {
      TemplatesAtSound(sections[1..], a, t);
      var i :| 0 <= i < |sections[1..]| && BindsTo(sections[1..][i], a) && t == MappingOf(sections[1..][i]);
      assert sections[1..][i] == sections[i + 1];
    }
  }

  /** Every template section bound to `a` has its mapping in that address's reference list. */
  lemma {:induction false} TemplatesAtComplete(sections: seq<Section>, a: Address, i: nat)
    requires i < |sections| && BindsTo(sections[i], a)
    ensures MappingOf(sections[i]) in TemplatesAt(sections, a)
    decreases i
  {
    if i > 0 {
      assert sections[1..][i - 1] == sections[i];
      TemplatesAtComplete(sections[1..], a, i - 1);
    }
  }

  /**
   * The configuration pass proper, which starts from an empty map: on success
   * every address key has a non-empty list, and a section's mapping is in the
   * list of address `a` exactly when that section is a template bound to `a`.
   */
  lemma ResolveFromEmpty(sections: seq<Section>)
    requires forall i :: 0 <= i < |sections| ==> SectionOk(sections[i])
    ensures var r := Collect(map[], sections).mappings;
            && (forall a :: a in r ==> r[a] == TemplatesAt(sections, a) && r[a] != [])
            && (forall a, i :: 0 <= i < |sections| && BindsTo(sections[i], a) ==>
                                 a in r && MappingOf(sections[i]) in r[a])
            && (forall a, t :: a in r && t in r[a] ==>
                                 exists i :: 0 <= i < |sections| && BindsTo(sections[i], a) && t == MappingOf(sections[i]))
  {
    var r := Collect(map[], sections).mappings;
    forall a | a in r
      ensures r[a] == TemplatesAt(sections, a) && r[a] != []
    {
      CollectGroupsAt(map[], sections, a);
    }
    forall a, i | 0 <= i < |sections| && BindsTo(sections[i], a)
      ensures a in r && MappingOf(sections[i]) in r[a]
    {
      TemplatesAtComplete(sections, a, i);
      CollectGroupsAt(map[], sections, a);
    }
    forall a, t | a in r && t in r[a]
      ensures exists i :: 0 <= i < |sections| && BindsTo(sections[i], a) && t == MappingOf(sections[i])
    {
      CollectGroupsAt(map[], sections, a);
      TemplatesAtSound(sections, a, t);
    }
  }

  /** A section whose template flag is absent or false contributes nothing and cannot fail. */
  lemma {:induction false} NonTemplateSkipped(m: Mappings, sections: seq<Section>, s: Section)
    requires s.acceptorTemplate == Unset || s.acceptorTemplate == Value(false)
    ensures Collect(m, [s] + sections) == Collect(m, sections)
  {
    assert ([s] + sections)[1..] == sections;
  }
}
