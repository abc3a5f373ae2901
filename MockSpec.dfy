/**
 * The mock library's state machine, as values. It shares the call surface of
 * the real library but has rules of its own: Initialize is not idempotent,
 * re-registration replaces a schema, an update of data auto-registers with
 * the names it carries, and the status codes are positive. Subject names are
 * plain strings here (no interning).
 */
module MockSpec {
  import opened Wrappers
  import opened Names
  import opened LiveLinkTypes

  datatype MockState = MockState(
    initialized: bool,
    providerName: string,
    transformObjects: set<string>,
    transformObjectProperties: map<string, seq<string>>,
    dataSubjectProperties: map<string, seq<string>>)

  /** Uninitialized means no provider and empty collections, and every transform object
      with a stored property list is a registered transform object. */
  predicate Valid(m: MockState)
  {
    && (!m.initialized ==>
          && m.providerName == ""
          && m.transformObjects == {}
          && m.transformObjectProperties == map[]
          && m.dataSubjectProperties == map[])
    && m.transformObjectProperties.Keys <= m.transformObjects
  }

  /** The state at load time, and after every Shutdown. */
  function Empty(): (m: MockState)
    ensures Valid(m) && !m.initialized
  {
    MockState(false, "", {}, map[], map[])
  }

  /** A subject call gets past the first two guards: a non-null name, while initialized. */
  predicate Accepts(m: MockState, subjectName: CString)
  {
    subjectName.Some? && m.initialized
  }

  /** How a property-name entry is stored: a null entry becomes the text "NULL". */
  function StoredText(entry: CString): string
  {
    if entry.None? then "NULL" else entry.value
  }

  /** The stored property list: empty for a null array or a non-positive count, otherwise
      the first `count` entries with nulls spelled "NULL". */
  function StoredNames(propertyNames: Option<seq<CString>>, count: int): (r: seq<string>)
    requires Holds(propertyNames, count)
    ensures propertyNames.None? || count <= 0 ==> r == []
    ensures propertyNames.Some? && count > 0 ==>
      |r| == count && forall i :: 0 <= i < count ==> r[i] == StoredText(propertyNames.value[i])
  {
    if propertyNames.Some? && count > 0 then
      seq(count, i requires 0 <= i < count => StoredText(propertyNames.value[i]))
    else []
  }

  //===========================================================================
  // Lifecycle
  //===========================================================================

  /** Initialize: a null name, or a second call while initialized, fails with 1 and
      changes nothing; otherwise the provider is stored, every collection cleared, and
      the result is 0. */
  function Initialize(m: MockState, providerName: CString): (r: (MockState, int))
    ensures providerName.None? || m.initialized ==> r == (m, MockError)
    ensures providerName.Some? && !m.initialized ==>
      && r.1 == Ok
      && r.0.initialized && r.0.providerName == providerName.value
      && r.0.transformObjects == {} && r.0.transformObjectProperties == map[] && r.0.dataSubjectProperties == map[]
    ensures Valid(m) ==> Valid(r.0)
  {
    if providerName.None? || m.initialized then (m, MockError)
    else (MockState(true, providerName.value, {}, map[], map[]), Ok)
  }

  /** Shutdown: unconditionally back to the empty, uninitialized state. */
  function Shutdown(m: MockState): (r: MockState)
    ensures r == Empty()
  {
    MockState(false, "", {}, map[], map[])
  }

  /** 2 before Initialize, 0 (connected) afterwards. */
  function IsConnected(m: MockState): (status: int)
    ensures status == Ok <==> m.initialized
    ensures status == MockNotInitialized <==> !m.initialized
  {
    if !m.initialized then MockNotInitialized else Ok
  }

  const MockVersion: int := 1

  //===========================================================================
  // Transform objects
  //===========================================================================

  function RegisterObject(m: MockState, subjectName: CString): (r: MockState)
    ensures r == m.(transformObjects := r.transformObjects)
    ensures !Accepts(m, subjectName) ==> r == m
    ensures Accepts(m, subjectName) ==> r.transformObjects == m.transformObjects + {subjectName.value}
    ensures Valid(m) ==> Valid(r)
  {
    if !Accepts(m, subjectName) then m
    else m.(transformObjects := m.transformObjects + {subjectName.value})
  }

  /** Registers the object and stores its property list, replacing any earlier one. */
  function RegisterObjectWithProperties(m: MockState, subjectName: CString,
                                        propertyNames: Option<seq<CString>>, count: int): (r: MockState)
    requires Holds(propertyNames, count)
    ensures r == m.(transformObjects := r.transformObjects, transformObjectProperties := r.transformObjectProperties)
    ensures !Accepts(m, subjectName) || count < 0 ==> r == m
    ensures Accepts(m, subjectName) && count >= 0 ==>
      && r.transformObjects == m.transformObjects + {subjectName.value}
      && r.transformObjectProperties == m.transformObjectProperties[subjectName.value := StoredNames(propertyNames, count)]
    ensures Valid(m) ==> Valid(r)
  {
    if !Accepts(m, subjectName) || count < 0 then m
    else
      var name := subjectName.value;
      m.(transformObjects := m.transformObjects + {name},
         transformObjectProperties := m.transformObjectProperties[name := StoredNames(propertyNames, count)])
  }

  /** Adds the object if it is missing. */
  function UpdateObject(m: MockState, subjectName: CString, transform: Option<Transform>): (r: MockState)
    ensures r == m.(transformObjects := r.transformObjects)
    ensures !Accepts(m, subjectName) ==> r == m
    ensures Accepts(m, subjectName) ==> r.transformObjects == m.transformObjects + {subjectName.value}
    ensures Valid(m) ==> Valid(r)
  {
    if !Accepts(m, subjectName) then m
    else m.(transformObjects := m.transformObjects + {subjectName.value})
  }

  /** Rejects a negative count and a count that differs from a stored property list;
      otherwise adds the object if it is missing. Stored property lists never change. */
  function UpdateObjectWithProperties(m: MockState, subjectName: CString, transform: Option<Transform>,
                                      propertyValues: Option<seq<real>>, count: int): (r: MockState)
    ensures r == m.(transformObjects := r.transformObjects)
    ensures !Accepts(m, subjectName) || count < 0 ==> r == m
    ensures (Accepts(m, subjectName) && subjectName.value in m.transformObjectProperties
             && count != |m.transformObjectProperties[subjectName.value]|) ==> r == m
    ensures Accepts(m, subjectName) && count >= 0
            && (subjectName.value in m.transformObjectProperties ==> count == |m.transformObjectProperties[subjectName.value]|) ==>
      r.transformObjects == m.transformObjects + {subjectName.value}
    ensures Valid(m) ==> Valid(r)
  {
    if !Accepts(m, subjectName) || count < 0 then m
    else if subjectName.value in m.transformObjectProperties && count != |m.transformObjectProperties[subjectName.value]| then m
    else m.(transformObjects := m.transformObjects + {subjectName.value})
  }

  /** Erases the object and its property list. */
  function RemoveObject(m: MockState, subjectName: CString): (r: MockState)
    ensures r == m.(transformObjects := r.transformObjects, transformObjectProperties := r.transformObjectProperties)
    ensures !Accepts(m, subjectName) ==> r == m
    ensures Accepts(m, subjectName) ==>
      && r.transformObjects == m.transformObjects - {subjectName.value}
      && r.transformObjectProperties.Keys == m.transformObjectProperties.Keys - {subjectName.value}
    ensures forall n :: n in r.transformObjectProperties ==>
      n in m.transformObjectProperties && r.transformObjectProperties[n] == m.transformObjectProperties[n]
    ensures Valid(m) ==> Valid(r)
  {
    if !Accepts(m, subjectName) then m
    else m.(transformObjects := m.transformObjects - {subjectName.value},
            transformObjectProperties := m.transformObjectProperties - {subjectName.value})
  }

  //===========================================================================
  // Data subjects
  //===========================================================================

  /** Stores the property list, replacing any earlier one. */
  function RegisterDataSubject(m: MockState, subjectName: CString,
                               propertyNames: Option<seq<CString>>, count: int): (r: MockState)
    requires Holds(propertyNames, count)
    ensures r == m.(dataSubjectProperties := r.dataSubjectProperties)
    ensures !Accepts(m, subjectName) || count < 0 ==> r == m
    ensures Accepts(m, subjectName) && count >= 0 ==>
      r.dataSubjectProperties == m.dataSubjectProperties[subjectName.value := StoredNames(propertyNames, count)]
    ensures Valid(m) ==> Valid(r)
  {
    if !Accepts(m, subjectName) || count < 0 then m
    else m.(dataSubjectProperties := m.dataSubjectProperties[subjectName.value := StoredNames(propertyNames, count)])
  }

  /** A registered subject is never changed (a count mismatch is rejected, a match only
      logged); an unregistered one is auto-registered with the names it carries when they
      are non-null and the count is positive. */
  function UpdateDataSubject(m: MockState, subjectName: CString, propertyNames: Option<seq<CString>>,
                             propertyValues: Option<seq<real>>, count: int): (r: MockState)
    requires Holds(propertyNames, count)
    ensures r == m.(dataSubjectProperties := r.dataSubjectProperties)
    ensures !Accepts(m, subjectName) || count < 0 || subjectName.value in m.dataSubjectProperties ==> r == m
    ensures Accepts(m, subjectName) && count > 0 && propertyNames.Some? && subjectName.value !in m.dataSubjectProperties ==>
      r.dataSubjectProperties == m.dataSubjectProperties[subjectName.value := StoredNames(propertyNames, count)]
    ensures (count <= 0 || propertyNames.None?) ==> r == m
    ensures Valid(m) ==> Valid(r)
  {
    if !Accepts(m, subjectName) || count < 0 then m
    else if subjectName.value in m.dataSubjectProperties then m
    else if propertyNames.Some? && count > 0 then
      m.(dataSubjectProperties := m.dataSubjectProperties[subjectName.value := StoredNames(propertyNames, count)])
    else m
  }

  function RemoveDataSubject(m: MockState, subjectName: CString): (r: MockState)
    ensures r == m.(dataSubjectProperties := r.dataSubjectProperties)
    ensures !Accepts(m, subjectName) ==> r == m
    ensures Accepts(m, subjectName) ==> r.dataSubjectProperties.Keys == m.dataSubjectProperties.Keys - {subjectName.value}
    ensures forall n :: n in r.dataSubjectProperties ==>
      n in m.dataSubjectProperties && r.dataSubjectProperties[n] == m.dataSubjectProperties[n]
    ensures Valid(m) ==> Valid(r)
  {
    if !Accepts(m, subjectName) then m
    else m.(dataSubjectProperties := m.dataSubjectProperties - {subjectName.value})
  }

  //===========================================================================
  // Properties across calls
  //===========================================================================

  /** Initialize is not idempotent: a second call fails with 1 and keeps the first
      provider and every collection. */
  lemma InitializeNotIdempotent(m: MockState, first: string, second: CString)
    requires !m.initialized
    ensures var (once, status) := Initialize(m, Some(first));
      && status == Ok
      && Initialize(once, second) == (once, MockError)
  {
  }

  /** Shutdown twice is Shutdown once. */
  lemma ShutdownIdempotent(m: MockState)
    ensures Shutdown(Shutdown(m)) == Shutdown(m)
  {
  }

  /** Re-registration replaces the schema: the second property list is the one kept. */
  lemma ReRegistrationReplaces(m: MockState, name: string,
                               first: Option<seq<CString>>, firstCount: nat,
                               second: Option<seq<CString>>, secondCount: nat)
    requires m.initialized
    requires Holds(first, firstCount) && Holds(second, secondCount)
    ensures var twice := RegisterObjectWithProperties(RegisterObjectWithProperties(m, Some(name), first, firstCount),
                                                      Some(name), second, secondCount);
      twice == RegisterObjectWithProperties(m, Some(name), second, secondCount)
    ensures var twice := RegisterDataSubject(RegisterDataSubject(m, Some(name), first, firstCount),
                                             Some(name), second, secondCount);
      twice == RegisterDataSubject(m, Some(name), second, secondCount)
  {
    var once := RegisterObjectWithProperties(m, Some(name), first, firstCount);
    assert once.transformObjects + {name} == m.transformObjects + {name};
  }

  /** A mismatched update of a transform object with a stored list is rejected and
      leaves everything as it was. */
  lemma MismatchRejected(m: MockState, name: string, propertyNames: Option<seq<CString>>, count: nat,
                         t: Option<Transform>, values: Option<seq<real>>, valueCount: nat)
    requires m.initialized && Holds(propertyNames, count)
    requires valueCount != |StoredNames(propertyNames, count)|
    ensures var r := RegisterObjectWithProperties(m, Some(name), propertyNames, count);
      UpdateObjectWithProperties(r, Some(name), t, values, valueCount) == r
  {
  }

  /** An update of an unregistered data subject with names registers it with those names;
      its later updates are then checked against that count. */
  lemma UpdateDataAutoRegisters(m: MockState, name: string, propertyNames: seq<CString>, count: nat,
                                values: Option<seq<real>>)
    requires m.initialized && name !in m.dataSubjectProperties
    requires 0 < count <= |propertyNames|
    ensures var r := UpdateDataSubject(m, Some(name), Some(propertyNames), values, count);
      && name in r.dataSubjectProperties
      && |r.dataSubjectProperties[name]| == count
      && r.dataSubjectProperties[name] == StoredNames(Some(propertyNames), count)
  {
  }

  /** Every subject call made before Initialize changes nothing. */
  lemma UninitializedIgnoresSubjects(m: MockState, name: CString, names: Option<seq<CString>>, count: int,
                                     t: Option<Transform>, values: Option<seq<real>>)
    requires !m.initialized && Holds(names, count)
    ensures RegisterObject(m, name) == m
    ensures RegisterObjectWithProperties(m, name, names, count) == m
    ensures UpdateObject(m, name, t) == m
    ensures UpdateObjectWithProperties(m, name, t, values, count) == m
    ensures RemoveObject(m, name) == m
    ensures RegisterDataSubject(m, name, names, count) == m
    ensures UpdateDataSubject(m, name, names, values, count) == m
    ensures RemoveDataSubject(m, name) == m
  {
  }
}
