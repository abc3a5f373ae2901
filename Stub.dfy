/**
 * The stub library's flag and counters as one object; its exported functions
 * are methods proved to match module StubSpec. The function-local static
 * counters of the three update functions are fields here. A subject call
 * returns the branch it ended in, and an update call also whether it wrote
 * its throttled log line; the library itself returns nothing from them.
 */
module Stub {
  import opened Wrappers
  import opened Names
  import opened LiveLinkTypes
  import StubSpec

  class StubLiveLink {
    var initialized: bool
    var initializeCallCount: nat
    var shutdownCallCount: nat
    var updateCallCount: nat
    var updateWithPropertiesCallCount: nat
    var dataUpdateCallCount: nat

    function State(): StubSpec.StubState
      reads this
    {
      StubSpec.StubState(initialized, initializeCallCount, shutdownCallCount,
                         updateCallCount, updateWithPropertiesCallCount, dataUpdateCallCount)
    }

    constructor ()
      ensures State() == StubSpec.Fresh()
    {
      initialized := false;
      initializeCallCount := 0;
      shutdownCallCount := 0;
      updateCallCount := 0;
      updateWithPropertiesCallCount := 0;
      dataUpdateCallCount := 0;
    }

    method Initialize(providerName: CString) returns (status: int)
      modifies this
      ensures (State(), status) == StubSpec.Initialize(old(State()), providerName)
    {
      if providerName.None? {
        return Error;
      }
      if providerName.value == "" {
        return Error;
      }
      initializeCallCount := initializeCallCount + 1;
      if initialized {
        return Ok;
      }
      initialized := true;
      return Ok;
    }

    method Shutdown()
      modifies this
      ensures State() == StubSpec.Shutdown(old(State()))
    {
      shutdownCallCount := shutdownCallCount + 1;
      if !initialized {
        return;
      }
      initialized := false;
    }

    method GetVersion() returns (version: int)
      ensures version == ApiVersion
    {
      return ApiVersion;
    }

    method IsConnected() returns (status: int)
      ensures status == StubSpec.IsConnected(State())
    {
      if !initialized {
        return NotInitialized;
      }
      return NotConnected;
    }

    method RegisterObject(subjectName: CString) returns (d: StubSpec.Disposition)
      ensures d == StubSpec.RegisterObject(State(), subjectName)
    {
      if subjectName.None? {
        return StubSpec.Rejected;
      }
      if !initialized {
        return StubSpec.Uninitialized;
      }
      return StubSpec.Accepted;
    }

    method RegisterObjectWithProperties(subjectName: CString, propertyNames: Option<seq<CString>>, propertyCount: int)
      returns (d: StubSpec.Disposition)
      requires Holds(propertyNames, propertyCount)
      ensures d == StubSpec.RegisterObjectWithProperties(State(), subjectName, propertyNames, propertyCount)
    {
      if subjectName.None? {
        return StubSpec.Rejected;
      }
      if propertyCount > 0 && propertyNames.None? {
        return StubSpec.Rejected;
      }
      if propertyCount < 0 {
        return StubSpec.Rejected;
      }
      if !initialized {
        return StubSpec.Uninitialized;
      }
      return StubSpec.Accepted;
    }

    method UpdateObject(subjectName: CString, transform: Option<Transform>)
      returns (d: StubSpec.Disposition, logged: bool)
      modifies this
      ensures StubSpec.UpdateResult(State(), d, logged) == StubSpec.UpdateObject(old(State()), subjectName, transform)
    {
      if subjectName.None? || transform.None? {
        return StubSpec.Rejected, false;
      }
      updateCallCount := updateCallCount + 1;
      logged := StubSpec.LogsOnCall(updateCallCount);
      if !initialized {
        return StubSpec.Uninitialized, logged;
      }
      return StubSpec.Accepted, logged;
    }

    method UpdateObjectWithProperties(subjectName: CString, transform: Option<Transform>,
                                      propertyValues: Option<seq<real>>, propertyCount: int)
      returns (d: StubSpec.Disposition, logged: bool)
      modifies this
      ensures StubSpec.UpdateResult(State(), d, logged)
              == StubSpec.UpdateObjectWithProperties(old(State()), subjectName, transform, propertyValues, propertyCount)
    {
      if subjectName.None? || transform.None? {
        return StubSpec.Rejected, false;
      }
      if propertyCount > 0 && propertyValues.None? {
        return StubSpec.Rejected, false;
      }
      updateWithPropertiesCallCount := updateWithPropertiesCallCount + 1;
      logged := StubSpec.LogsOnCall(updateWithPropertiesCallCount);
      if !initialized {
        return StubSpec.Uninitialized, logged;
      }
      return StubSpec.Accepted, logged;
    }

    method RemoveObject(subjectName: CString) returns (d: StubSpec.Disposition)
      ensures d == StubSpec.RemoveObject(State(), subjectName)
    {
      if subjectName.None? {
        return StubSpec.Rejected;
      }
      if !initialized {
        return StubSpec.Uninitialized;
      }
      return StubSpec.Accepted;
    }

    method RegisterDataSubject(subjectName: CString, propertyNames: Option<seq<CString>>, propertyCount: int)
      returns (d: StubSpec.Disposition)
      requires Holds(propertyNames, propertyCount)
      ensures d == StubSpec.RegisterDataSubject(State(), subjectName, propertyNames, propertyCount)
    {
      if subjectName.None? {
        return StubSpec.Rejected;
      }
      if propertyCount > 0 && propertyNames.None? {
        return StubSpec.Rejected;
      }
      if propertyCount < 0 {
        return StubSpec.Rejected;
      }
      if !initialized {
        return StubSpec.Uninitialized;
      }
      return StubSpec.Accepted;
    }

    method UpdateDataSubject(subjectName: CString, propertyNames: Option<seq<CString>>,
                             propertyValues: Option<seq<real>>, propertyCount: int)
      returns (d: StubSpec.Disposition, logged: bool)
      modifies this
      ensures StubSpec.UpdateResult(State(), d, logged)
              == StubSpec.UpdateDataSubject(old(State()), subjectName, propertyNames, propertyValues, propertyCount)
    {
      if subjectName.None? {
        return StubSpec.Rejected, false;
      }
      if propertyCount > 0 && propertyValues.None? {
        return StubSpec.Rejected, false;
      }
      if propertyCount < 0 {
        return StubSpec.Rejected, false;
      }
      dataUpdateCallCount := dataUpdateCallCount + 1;
      logged := StubSpec.LogsOnCall(dataUpdateCallCount);
      if !initialized {
        return StubSpec.Uninitialized, logged;
      }
      return StubSpec.Accepted, logged;
    }

    method RemoveDataSubject(subjectName: CString) returns (d: StubSpec.Disposition)
      ensures d == StubSpec.RemoveDataSubject(State(), subjectName)
    {
      if subjectName.None? {
        return StubSpec.Rejected;
      }
      if !initialized {
        return StubSpec.Uninitialized;
      }
      return StubSpec.Accepted;
    }
  }
}
