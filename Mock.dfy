/**
 * The mock library's globals as one object, and its exported functions as
 * methods that update them in place. Each method is proved to take the state
 * to the one the matching function of module MockSpec describes. Logging to
 * the console and the log file is not modelled.
 */
module Mock {
  import opened Wrappers
  import opened Names
  import opened LiveLinkTypes
  import MockSpec

  /** Copies the first `count` entries of a C string array, spelling a null entry
      "NULL"; a null array or a non-positive count gives the empty list. */
  method CollectPropertyNames(propertyNames: Option<seq<CString>>, count: int) returns (properties: seq<string>)
    requires Holds(propertyNames, count)
    ensures properties == MockSpec.StoredNames(propertyNames, count)
  {
    properties := [];
    if propertyNames.Some? && count > 0 {
      var entries := propertyNames.value;
      var i := 0;
      while i < count
        invariant 0 <= i <= count
        invariant |properties| == i
        invariant forall k :: 0 <= k < i ==> properties[k] == MockSpec.StoredText(entries[k])
      {
        var entry := entries[i];
        properties := properties + [if entry.Some? then entry.value else "NULL"];
        i := i + 1;
      }
    }
  }

  class MockLiveLink {
    var isInitialized: bool
    var providerName: string
    var transformObjects: set<string>
    var transformObjectProperties: map<string, seq<string>>
    var dataSubjectProperties: map<string, seq<string>>

    function State(): MockSpec.MockState
      reads this
    {
      MockSpec.MockState(isInitialized, providerName, transformObjects, transformObjectProperties, dataSubjectProperties)
    }

    ghost predicate Valid()
      reads this
    {
      MockSpec.Valid(State())
    }

    /** The globals at load time. */
    constructor ()
      ensures Valid()
      ensures State() == MockSpec.Empty()
    {
      isInitialized := false;
      providerName := "";
      transformObjects := {};
      transformObjectProperties := map[];
      dataSubjectProperties := map[];
    }

    method Initialize(inProviderName: CString) returns (status: int)
      requires Valid()
      modifies this
      ensures Valid()
      ensures (State(), status) == MockSpec.Initialize(old(State()), inProviderName)
    {
      if inProviderName.None? {
        return MockError;
      }
      if isInitialized {
        return MockError;
      }
      providerName := inProviderName.value;
      isInitialized := true;
      transformObjects := {};
      transformObjectProperties := map[];
      dataSubjectProperties := map[];
      return Ok;
    }

    method Shutdown()
      modifies this
      ensures Valid()
      ensures State() == MockSpec.Shutdown(old(State()))
    {
      isInitialized := false;
      providerName := "";
      transformObjects := {};
      transformObjectProperties := map[];
      dataSubjectProperties := map[];
    }

    method GetVersion() returns (version: int)
      ensures version == MockSpec.MockVersion
    {
      return 1;
    }

    /** 2 before Initialize; always 0 (connected) afterwards. */
    method IsConnected() returns (status: int)
      ensures status == MockSpec.IsConnected(State())
      ensures status == Ok || status == MockNotInitialized
    {
      if !isInitialized {
        return MockNotInitialized;
      }
      return Ok;
    }

    method RegisterObject(subjectName: CString)
      requires Valid()
      modifies this
      ensures Valid()
      ensures State() == MockSpec.RegisterObject(old(State()), subjectName)
    {
      if subjectName.None? || !isInitialized {
        return;
      }
      transformObjects := transformObjects + {subjectName.value};
    }

    method RegisterObjectWithProperties(subjectName: CString, propertyNames: Option<seq<CString>>, propertyCount: int)
      requires Valid()
      requires Holds(propertyNames, propertyCount)
      modifies this
      ensures Valid()
      ensures State() == MockSpec.RegisterObjectWithProperties(old(State()), subjectName, propertyNames, propertyCount)
    {
      if subjectName.None? || !isInitialized || propertyCount < 0 {
        return;
      }
      var properties := CollectPropertyNames(propertyNames, propertyCount);
      transformObjects := transformObjects + {subjectName.value};
      transformObjectProperties := transformObjectProperties[subjectName.value := properties];
    }

    method UpdateObject(subjectName: CString, transform: Option<Transform>)
      requires Valid()
      modifies this
      ensures Valid()
      ensures State() == MockSpec.UpdateObject(old(State()), subjectName, transform)
    {
      if subjectName.None? || !isInitialized {
        return;
      }
      if subjectName.value !in transformObjects {
        transformObjects := transformObjects + {subjectName.value};
      }
    }

    method UpdateObjectWithProperties(subjectName: CString, transform: Option<Transform>,
                                      propertyValues: Option<seq<real>>, propertyCount: int)
      requires Valid()
      modifies this
      ensures Valid()
      ensures State() == MockSpec.UpdateObjectWithProperties(old(State()), subjectName, transform, propertyValues, propertyCount)
    {
      if subjectName.None? || !isInitialized || propertyCount < 0 {
        return;
      }
      var name := subjectName.value;
      if name in transformObjectProperties && propertyCount != |transformObjectProperties[name]| {
        return;
      }
      if name !in transformObjects {
        transformObjects := transformObjects + {name};
      }
    }

    method RemoveObject(subjectName: CString)
      requires Valid()
      modifies this
      ensures Valid()
      ensures State() == MockSpec.RemoveObject(old(State()), subjectName)
    {
      if subjectName.None? || !isInitialized {
        return;
      }
      transformObjects := transformObjects - {subjectName.value};
      transformObjectProperties := transformObjectProperties - {subjectName.value};
    }

    method RegisterDataSubject(subjectName: CString, propertyNames: Option<seq<CString>>, propertyCount: int)
      requires Valid()
      requires Holds(propertyNames, propertyCount)
      modifies this
      ensures Valid()
      ensures State() == MockSpec.RegisterDataSubject(old(State()), subjectName, propertyNames, propertyCount)
    {
      if subjectName.None? || !isInitialized || propertyCount < 0 {
        return;
      }
      var properties := CollectPropertyNames(propertyNames, propertyCount);
      dataSubjectProperties := dataSubjectProperties[subjectName.value := properties];
    }

    method UpdateDataSubject(subjectName: CString, propertyNames: Option<seq<CString>>,
                             propertyValues: Option<seq<real>>, propertyCount: int)
      requires Valid()
      requires Holds(propertyNames, propertyCount)
      modifies this
      ensures Valid()
      ensures State() == MockSpec.UpdateDataSubject(old(State()), subjectName, propertyNames, propertyValues, propertyCount)
    {
      if subjectName.None? || !isInitialized || propertyCount < 0 {
        return;
      }
      var name := subjectName.value;
      if name in dataSubjectProperties {
        // a count mismatch is only reported; a registered subject is never changed here
        return;
      }
      if propertyNames.Some? && propertyCount > 0 {
        var properties := CollectPropertyNames(propertyNames, propertyCount);
        dataSubjectProperties := dataSubjectProperties[name := properties];
      }
    }

    method RemoveDataSubject(subjectName: CString)
      requires Valid()
      modifies this
      ensures Valid()
      ensures State() == MockSpec.RemoveDataSubject(old(State()), subjectName)
    {
      if subjectName.None? || !isInitialized {
        return;
      }
      dataSubjectProperties := dataSubjectProperties - {subjectName.value};
    }
  }
}
