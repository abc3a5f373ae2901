/**
 * The twelve exported functions of the real library. Each validates its C
 * arguments (null pointers, negative counts), converts names through the
 * bridge's name cache and delegates to the bridge. The process-wide bridge
 * singleton is passed in explicitly. A C array argument is modelled as an
 * optional sequence (None is a null pointer) that, when non-null, holds at
 * least as many entries as the count the caller passes.
 */
module LiveLinkApi {
  import opened Wrappers
  import opened Names
  import opened LiveLinkTypes
  import Registry
  import opened Bridge

  /** Copies the first `propertyCount` values, in order. */
  method ConvertPropertyValues(propertyValues: Option<seq<real>>, propertyCount: int) returns (result: seq<real>)
    requires propertyCount >= 0
    requires propertyCount > 0 ==> propertyValues.Some? && propertyCount <= |propertyValues.value|
    ensures |result| == propertyCount
    ensures forall i :: 0 <= i < propertyCount ==> result[i] == propertyValues.value[i]
  {
    result := [];
    var i := 0;
    while i < propertyCount
      invariant 0 <= i <= propertyCount
      invariant |result| == i
      invariant forall j :: 0 <= j < i ==> result[j] == propertyValues.value[j]
    {
      result := result + [propertyValues.value[i]];
      i := i + 1;
    }
  }

  /** Converts the first `propertyCount` names: a null entry becomes the "none" name,
      any other goes through the bridge's name cache. */
  method ConvertPropertyNames(bridge: LiveLinkBridge, propertyNames: Option<seq<CString>>, propertyCount: int)
    returns (result: seq<Name>)
    requires bridge.Valid()
    requires propertyCount >= 0
    requires propertyCount > 0 ==> propertyNames.Some? && propertyCount <= |propertyNames.value|
    modifies bridge
    ensures bridge.Valid()
    ensures result == NamesOf(Prefix(propertyNames, propertyCount))
    ensures bridge.State() == Registry.CacheAll(old(bridge.State()), Prefix(propertyNames, propertyCount))
  {
    ghost var entries := Prefix(propertyNames, propertyCount);
    result := [];
    var i := 0;
    while i < propertyCount
      invariant 0 <= i <= propertyCount
      invariant bridge.Valid()
      invariant result == NamesOf(entries[..i])
      invariant bridge.State() == Registry.CacheAll(old(bridge.State()), entries[..i])
    {
      assert entries[..i + 1][..i] == entries[..i];
      var name: Name;
      if propertyNames.value[i].Some? {
        name := bridge.GetCachedName(propertyNames.value[i]);
      } else {
        name := NoName;
      }
      result := result + [name];
      i := i + 1;
    }
    assert entries[..propertyCount] == entries;
  }

  //===========================================================================
  // Lifecycle
  //===========================================================================

  /** A null or empty provider name is rejected without touching the bridge; otherwise
      the bridge is initialized (idempotently) and the call succeeds. */
  method Initialize(bridge: LiveLinkBridge, providerName: CString) returns (status: int)
    requires bridge.Valid()
    modifies bridge
    ensures bridge.Valid()
    ensures providerName.None? || providerName.value == "" ==> status == Error && bridge.State() == old(bridge.State())
    ensures providerName.Some? && providerName.value != "" ==>
      status == Ok && bridge.State() == Registry.Initialize(old(bridge.State()), providerName.value)
  {
    if providerName.None? {
      return Error;
    }
    if providerName.value == "" {
      return Error;
    }
    var success := bridge.Initialize(providerName.value);
    status := if success then Ok else Error;
  }

  method Shutdown(bridge: LiveLinkBridge)
    requires bridge.Valid()
    modifies bridge
    ensures bridge.Valid()
    ensures bridge.State() == Registry.Shutdown(old(bridge.State()))
  {
    bridge.Shutdown();
  }

  method GetVersion() returns (version: int)
    ensures version == ApiVersion
  {
    return ApiVersion;
  }

  /** The bridge's connection status, unchanged: Ok once initialized, NotInitialized before. */
  method IsConnected(bridge: LiveLinkBridge) returns (status: int)
    requires bridge.Valid()
    ensures status == Registry.ConnectionStatus(bridge.State())
    ensures status != NotConnected
  {
    status := bridge.GetConnectionStatus();
  }

  //===========================================================================
  // Transform subjects
  //===========================================================================

  /** The bridge state after a subject name has gone through the cache. */
  function Interned(s: Registry.BridgeState, subjectName: CString): (r: Registry.BridgeState)
    ensures r == s.(nameCache := r.nameCache)
    ensures Registry.Valid(s) ==> Registry.Valid(r)
    ensures subjectName.None? || subjectName.value == "" ==> r == s
    ensures subjectName.Some? && subjectName.value != "" ==>
      r.nameCache.Keys == s.nameCache.Keys + {subjectName.value}
  {
    Registry.CachedName(s, subjectName).0
  }

  method RegisterObject(bridge: LiveLinkBridge, subjectName: CString)
    requires bridge.Valid()
    modifies bridge
    ensures bridge.Valid()
    ensures subjectName.None? ==> bridge.State() == old(bridge.State())
    ensures subjectName.Some? ==>
      bridge.State() == Registry.RegisterTransform(Interned(old(bridge.State()), subjectName), NameOf(subjectName))
  {
    if subjectName.None? {
      return;
    }
    var name := bridge.GetCachedName(subjectName);
    bridge.RegisterTransformSubject(name);
  }

  /** Rejected, with no effect at all, for a null name, a negative count, or a positive
      count with a null array. */
  method RegisterObjectWithProperties(bridge: LiveLinkBridge, subjectName: CString,
                                      propertyNames: Option<seq<CString>>, propertyCount: int)
    requires bridge.Valid()
    requires Holds(propertyNames, propertyCount)
    modifies bridge
    ensures bridge.Valid()
    ensures subjectName.None? || propertyCount < 0 || (propertyCount > 0 && propertyNames.None?) ==>
      bridge.State() == old(bridge.State())
    ensures subjectName.Some? && propertyCount >= 0 && (propertyCount > 0 ==> propertyNames.Some?) ==>
      var entries := Prefix(propertyNames, propertyCount);
      bridge.State() == Registry.RegisterTransformWithProperties(
        Registry.CacheAll(Interned(old(bridge.State()), subjectName), entries),
        NameOf(subjectName), NamesOf(entries))
  {
    if subjectName.None? {
      return;
    }
    if propertyCount > 0 && propertyNames.None? {
      return;
    }
    if propertyCount < 0 {
      return;
    }
    var name := bridge.GetCachedName(subjectName);
    var names := ConvertPropertyNames(bridge, propertyNames, propertyCount);
    bridge.RegisterTransformSubjectWithProperties(name, names);
  }

  /** Rejected for a null name or a null transform; otherwise auto-registers. */
  method UpdateObject(bridge: LiveLinkBridge, subjectName: CString, transform: Option<Transform>)
    requires bridge.Valid()
    modifies bridge
    ensures bridge.Valid()
    ensures subjectName.None? || transform.None? ==> bridge.State() == old(bridge.State())
    ensures subjectName.Some? && transform.Some? ==>
      bridge.State() == Registry.UpdateTransform(Interned(old(bridge.State()), subjectName), NameOf(subjectName), transform.value)
  {
    if subjectName.None? {
      return;
    }
    if transform.None? {
      return;
    }
    var name := bridge.GetCachedName(subjectName);
    bridge.UpdateTransformSubject(name, transform.value);
  }

  /** Rejected for a null name, a null transform, or a positive count with null values.
      Only the name cache can change; the result names the bridge's branch. */
  method UpdateObjectWithProperties(bridge: LiveLinkBridge, subjectName: CString, transform: Option<Transform>,
                                    propertyValues: Option<seq<real>>, propertyCount: int)
    returns (check: Option<Registry.UpdateCheck>)
    requires bridge.Valid()
    requires propertyCount >= 0
    requires Holds(propertyValues, propertyCount)
    modifies bridge
    ensures bridge.Valid()
    ensures check.None? <==> subjectName.None? || transform.None? || (propertyCount > 0 && propertyValues.None?)
    ensures check.None? ==> bridge.State() == old(bridge.State())
    ensures check.Some? ==>
      && bridge.State() == Interned(old(bridge.State()), subjectName)
      && check.value == Registry.CheckTransformUpdate(bridge.State(), NameOf(subjectName), Prefix(propertyValues, propertyCount))
  {
    if subjectName.None? {
      return None;
    }
    if transform.None? {
      return None;
    }
    if propertyCount > 0 && propertyValues.None? {
      return None;
    }
    var name := bridge.GetCachedName(subjectName);
    var values := ConvertPropertyValues(propertyValues, propertyCount);
    assert values == Prefix(propertyValues, propertyCount);
    var c := bridge.UpdateTransformSubjectWithProperties(name, transform.value, values);
    return Some(c);
  }

  method RemoveObject(bridge: LiveLinkBridge, subjectName: CString)
    requires bridge.Valid()
    modifies bridge
    ensures bridge.Valid()
    ensures subjectName.None? ==> bridge.State() == old(bridge.State())
    ensures subjectName.Some? ==>
      bridge.State() == Registry.RemoveTransform(Interned(old(bridge.State()), subjectName), NameOf(subjectName))
  {
    if subjectName.None? {
      return;
    }
    var name := bridge.GetCachedName(subjectName);
    bridge.RemoveTransformSubject(name);
  }

  //===========================================================================
  // Data subjects
  //===========================================================================

  /** Rejected, with no effect at all, for a null name, a negative count, or a positive
      count with a null array. */
  method RegisterDataSubject(bridge: LiveLinkBridge, subjectName: CString,
                             propertyNames: Option<seq<CString>>, propertyCount: int)
    requires bridge.Valid()
    requires Holds(propertyNames, propertyCount)
    modifies bridge
    ensures bridge.Valid()
    ensures subjectName.None? || propertyCount < 0 || (propertyCount > 0 && propertyNames.None?) ==>
      bridge.State() == old(bridge.State())
    ensures subjectName.Some? && propertyCount >= 0 && (propertyCount > 0 ==> propertyNames.Some?) ==>
      var entries := Prefix(propertyNames, propertyCount);
      bridge.State() == Registry.RegisterData(
        Registry.CacheAll(Interned(old(bridge.State()), subjectName), entries),
        NameOf(subjectName), NamesOf(entries))
  {
    if subjectName.None? {
      return;
    }
    if propertyCount > 0 && propertyNames.None? {
      return;
    }
    if propertyCount < 0 {
      return;
    }
    var name := bridge.GetCachedName(subjectName);
    var names := ConvertPropertyNames(bridge, propertyNames, propertyCount);
    bridge.RegisterDataSubject(name, names);
  }

  /** The property names are ignored: only the values reach the bridge, so this call can
      never register a data subject. Rejected for a null name, a negative count, or a
      positive count with null values. */
  method UpdateDataSubject(bridge: LiveLinkBridge, subjectName: CString, propertyNames: Option<seq<CString>>,
                           propertyValues: Option<seq<real>>, propertyCount: int)
    returns (check: Option<Registry.UpdateCheck>)
    requires bridge.Valid()
    requires Holds(propertyValues, propertyCount)
    modifies bridge
    ensures bridge.Valid()
    ensures bridge.dataSubjects == old(bridge.dataSubjects) && bridge.transformSubjects == old(bridge.transformSubjects)
    ensures check.None? <==> subjectName.None? || propertyCount < 0 || (propertyCount > 0 && propertyValues.None?)
    ensures check.None? ==> bridge.State() == old(bridge.State())
    ensures check.Some? ==>
      && bridge.State() == Interned(old(bridge.State()), subjectName)
      && check.value == Registry.CheckDataUpdate(bridge.State(), NameOf(subjectName), Prefix(propertyValues, propertyCount))
  {
    if subjectName.None? {
      return None;
    }
    if propertyCount > 0 && propertyValues.None? {
      return None;
    }
    if propertyCount < 0 {
      return None;
    }
    var name := bridge.GetCachedName(subjectName);
    var values := ConvertPropertyValues(propertyValues, propertyCount);
    assert values == Prefix(propertyValues, propertyCount);
    var c := bridge.UpdateDataSubject(name, values);
    return Some(c);
  }

  method RemoveDataSubject(bridge: LiveLinkBridge, subjectName: CString)
    requires bridge.Valid()
    modifies bridge
    ensures bridge.Valid()
    ensures subjectName.None? ==> bridge.State() == old(bridge.State())
    ensures subjectName.Some? ==>
      bridge.State() == Registry.RemoveData(Interned(old(bridge.State()), subjectName), NameOf(subjectName))
  {
    if subjectName.None? {
      return;
    }
    var name := bridge.GetCachedName(subjectName);
    bridge.RemoveDataSubject(name);
  }
}
