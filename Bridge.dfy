/**
 * The real bridge object. Its fields are the bridge's member variables, its
 * methods update them in place, and each method is proved to take the state
 * to the one the matching function of module Registry describes. The lock
 * that makes each method atomic is not modelled: every method is one step.
 */
module Bridge {
  import opened Wrappers
  import opened Names
  import opened LiveLinkTypes
  import Registry

  class LiveLinkBridge {
    var initialized: bool
    var liveLinkReady: bool
    var providerName: string
    var transformSubjects: Registry.Subjects
    var dataSubjects: Registry.Subjects
    var nameCache: map<string, Name>

    /** The bridge's fields as one value. */
    function State(): Registry.BridgeState
      reads this
    {
      Registry.BridgeState(initialized, liveLinkReady, providerName, transformSubjects, dataSubjects, nameCache)
    }

    ghost predicate Valid()
      reads this
    {
      Registry.Valid(State())
    }

    /** A new bridge: uninitialized, not ready, no provider name, empty maps. */
    constructor ()
      ensures Valid()
      ensures State() == Registry.Fresh()
    {
      initialized := false;
      liveLinkReady := false;
      providerName := "";
      transformSubjects := map[];
      dataSubjects := map[];
      nameCache := map[];
    }

    /** Whether the bridge is initialized; when it is not, it holds no subjects. */
    function IsInitialized(): (r: bool)
      reads this
      requires Valid()
      ensures r == State().initialized
      ensures !r ==> transformSubjects == map[] && dataSubjects == map[] && providerName == ""
    {
      initialized
    }

    /** Always succeeds; when already initialized nothing changes. */
    method Initialize(inProviderName: string) returns (ok: bool)
      requires Valid()
      modifies this
      ensures Valid()
      ensures ok
      ensures State() == Registry.Initialize(old(State()), inProviderName)
    {
      if initialized {
        return true;
      }
      providerName := inProviderName;
      initialized := true;
      liveLinkReady := true;
      return true;
    }

    method Shutdown()
      requires Valid()
      modifies this
      ensures Valid()
      ensures State() == Registry.Shutdown(old(State()))
    {
      if !initialized {
        return;
      }
      transformSubjects := map[];
      dataSubjects := map[];
      nameCache := map[];
      providerName := "";
      initialized := false;
      liveLinkReady := false;
    }

    /** NotInitialized before Initialize, Ok afterwards; never NotConnected. */
    method GetConnectionStatus() returns (status: int)
      requires Valid()
      ensures status == Registry.ConnectionStatus(State())
      ensures status == if initialized then Ok else NotInitialized
    {
      if !initialized {
        return NotInitialized;
      }
      if liveLinkReady {
        return Ok;
      }
      return NotConnected;
    }

    method RegisterTransformSubject(subjectName: Name)
      requires Valid()
      modifies this
      ensures Valid()
      ensures State() == Registry.RegisterTransform(old(State()), subjectName)
    {
      if !initialized {
        return;
      }
      if subjectName in transformSubjects {
        return;
      }
      transformSubjects := transformSubjects[subjectName := Registry.EmptyInfo()];
    }

    method RegisterTransformSubjectWithProperties(subjectName: Name, propertyNames: seq<Name>)
      requires Valid()
      modifies this
      ensures Valid()
      ensures State() == Registry.RegisterTransformWithProperties(old(State()), subjectName, propertyNames)
    {
      if !initialized {
        return;
      }
      if subjectName in transformSubjects {
        return;
      }
      transformSubjects := transformSubjects[subjectName := Registry.InfoOf(propertyNames)];
    }

    /** The transform is not pushed anywhere yet; an unknown name is auto-registered. */
    method UpdateTransformSubject(subjectName: Name, transform: Transform)
      requires Valid()
      modifies this
      ensures Valid()
      ensures State() == Registry.UpdateTransform(old(State()), subjectName, transform)
    {
      if !initialized {
        return;
      }
      if subjectName !in transformSubjects {
        transformSubjects := transformSubjects[subjectName := Registry.EmptyInfo()];
      }
    }

    /** Changes nothing; the result names the branch taken (dropped or passed on). */
    method UpdateTransformSubjectWithProperties(subjectName: Name, transform: Transform, propertyValues: seq<real>)
      returns (check: Registry.UpdateCheck)
      ensures check == Registry.CheckTransformUpdate(State(), subjectName, propertyValues)
      ensures check.CountMismatch? ==> subjectName in transformSubjects
    {
      if !initialized {
        return Registry.Ignored;
      }
      if subjectName in transformSubjects {
        var info := transformSubjects[subjectName];
        if info.expectedPropertyCount != |propertyValues| {
          return Registry.CountMismatch(info.expectedPropertyCount, |propertyValues|);
        }
        return Registry.Validated;
      }
      return Registry.Unvalidated;
    }

    method RemoveTransformSubject(subjectName: Name)
      requires Valid()
      modifies this
      ensures Valid()
      ensures State() == Registry.RemoveTransform(old(State()), subjectName)
    {
      if !initialized {
        return;
      }
      transformSubjects := transformSubjects - {subjectName};
    }

    method RegisterDataSubject(subjectName: Name, propertyNames: seq<Name>)
      requires Valid()
      modifies this
      ensures Valid()
      ensures State() == Registry.RegisterData(old(State()), subjectName, propertyNames)
    {
      if !initialized {
        return;
      }
      if subjectName in dataSubjects {
        return;
      }
      dataSubjects := dataSubjects[subjectName := Registry.InfoOf(propertyNames)];
    }

    /** Changes nothing; the result names the branch taken (dropped or passed on). */
    method UpdateDataSubject(subjectName: Name, propertyValues: seq<real>) returns (check: Registry.UpdateCheck)
      ensures check == Registry.CheckDataUpdate(State(), subjectName, propertyValues)
      ensures check.CountMismatch? ==> subjectName in dataSubjects
    {
      if !initialized {
        return Registry.Ignored;
      }
      if subjectName in dataSubjects {
        var info := dataSubjects[subjectName];
        if info.expectedPropertyCount != |propertyValues| {
          return Registry.CountMismatch(info.expectedPropertyCount, |propertyValues|);
        }
        return Registry.Validated;
      }
      return Registry.Unvalidated;
    }

    method RemoveDataSubject(subjectName: Name)
      requires Valid()
      modifies this
      ensures Valid()
      ensures State() == Registry.RemoveData(old(State()), subjectName)
    {
      if !initialized {
        return;
      }
      dataSubjects := dataSubjects - {subjectName};
    }

    /** Looks a string up in the name cache, adding it on a miss; does not consult the
        initialized flag. */
    method GetCachedName(cString: CString) returns (name: Name)
      requires Valid()
      modifies this
      ensures Valid()
      ensures (State(), name) == Registry.CachedName(old(State()), cString)
      ensures name == NameOf(cString)
    {
      if cString.None? || cString.value == "" {
        return NoName;
      }
      var key := cString.value;
      if key in nameCache {
        return nameCache[key];
      }
      name := ToName(key);
      nameCache := nameCache[key := name];
    }
  }
}
