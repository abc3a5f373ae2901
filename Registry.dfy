/**
 * The bookkeeping of the real bridge, as values: the lifecycle flags, the
 * provider name, the two subject maps (transform subjects and data subjects,
 * separate namespaces) and the name cache. Each operation of the bridge is a
 * function from the old state to the new one; the class in module Bridge is
 * proved to implement these functions, and the lemmas below state what the
 * operations promise across calls.
 */
module Registry {
  import opened Wrappers
  import opened Names
  import opened LiveLinkTypes

  /** A subject's schema: its property names and the count every update must match. */
  datatype SubjectInfo = SubjectInfo(propertyNames: seq<Name>, expectedPropertyCount: int)

  predicate Consistent(info: SubjectInfo)
  {
    info.expectedPropertyCount == |info.propertyNames|
  }

  /** The default record: no properties, expected count zero. */
  function EmptyInfo(): (info: SubjectInfo)
    ensures Consistent(info) && info.propertyNames == [] && info.expectedPropertyCount == 0
  {
    SubjectInfo([], 0)
  }

  /** The record built from a property-name list: the count is the list's length. */
  function InfoOf(names: seq<Name>): (info: SubjectInfo)
    ensures Consistent(info) && info.propertyNames == names && info.expectedPropertyCount == |names|
  {
    SubjectInfo(names, |names|)
  }

  type Subjects = map<Name, SubjectInfo>

  datatype BridgeState = BridgeState(
    initialized: bool,
    liveLinkReady: bool,
    providerName: string,
    transformSubjects: Subjects,
    dataSubjects: Subjects,
    nameCache: map<string, Name>)

  predicate AllConsistent(subjects: Subjects)
  {
    forall n :: n in subjects ==> Consistent(subjects[n])
  }

  /** Every cached entry is keyed by a non-empty string and holds that string's name. */
  predicate CacheSound(cache: map<string, Name>)
  {
    forall k :: k in cache ==> k != "" && cache[k] == ToName(k)
  }

  /** The invariant every reachable state keeps: the ready flag follows the initialized
      flag, an uninitialized bridge has no provider and no subjects, every stored record
      counts its own names, and the cache is sound. */
  predicate Valid(s: BridgeState)
  {
    && s.liveLinkReady == s.initialized
    && (!s.initialized ==> s.providerName == "" && s.transformSubjects == map[] && s.dataSubjects == map[])
    && AllConsistent(s.transformSubjects)
    && AllConsistent(s.dataSubjects)
    && CacheSound(s.nameCache)
  }

  /** A newly constructed bridge. */
  function Fresh(): (s: BridgeState)
    ensures Valid(s) && !s.initialized && !s.liveLinkReady && s.providerName == ""
    ensures s.transformSubjects == map[] && s.dataSubjects == map[] && s.nameCache == map[]
  {
    BridgeState(false, false, "", map[], map[], map[])
  }

  //===========================================================================
  // Lifecycle
  //===========================================================================

  /** Initialize: a no-op when already initialized (the provider name is kept);
      otherwise stores the provider name and raises both flags. */
  function Initialize(s: BridgeState, providerName: string): (r: BridgeState)
    ensures r.initialized
    ensures r.providerName == if s.initialized then s.providerName else providerName
    ensures r.transformSubjects == s.transformSubjects && r.dataSubjects == s.dataSubjects
    ensures r.nameCache == s.nameCache
    ensures s.initialized ==> r == s
    ensures Valid(s) ==> Valid(r) && r.liveLinkReady
  {
    if s.initialized then s
    else s.(providerName := providerName, initialized := true, liveLinkReady := true)
  }

  /** Shutdown: a no-op when uninitialized; otherwise clears both subject maps, the
      name cache and the provider name and lowers both flags. */
  function Shutdown(s: BridgeState): (r: BridgeState)
    ensures !r.initialized
    ensures s.initialized ==> r == Fresh()
    ensures !s.initialized ==> r == s
    ensures Valid(s) ==> Valid(r) && !r.liveLinkReady
  {
    if !s.initialized then s
    else s.(transformSubjects := map[], dataSubjects := map[], nameCache := map[],
            providerName := "", initialized := false, liveLinkReady := false)
  }

  /** The connection status: not initialized, else ready (Ok), else not connected. */
  function ConnectionStatus(s: BridgeState): (status: int)
    ensures status == NotInitialized <==> !s.initialized
    ensures s.initialized ==> (status == Ok <==> s.liveLinkReady)
    ensures status == Ok || status == NotConnected || status == NotInitialized
  {
    if !s.initialized then NotInitialized
    else if s.liveLinkReady then Ok
    else NotConnected
  }

  /** Because the ready flag follows the initialized flag, the status is Ok exactly when
      initialized and NotInitialized otherwise: NotConnected is never reported. */
  lemma StatusNeverNotConnected(s: BridgeState)
    requires Valid(s)
    ensures ConnectionStatus(s) == if s.initialized then Ok else NotInitialized
    ensures ConnectionStatus(s) != NotConnected
  {
  }

  //===========================================================================
  // Registration and removal on one map
  //===========================================================================

  /** Registration into one map: ignored while uninitialized; an absent name gets `info`,
      a present name keeps its record (first registration wins). */
  function Registered(initialized: bool, subjects: Subjects, name: Name, info: SubjectInfo): (r: Subjects)
    ensures !initialized ==> r == subjects
    ensures initialized ==> r.Keys == subjects.Keys + {name}
    ensures forall n :: n in subjects ==> n in r && r[n] == subjects[n]
    ensures initialized && name !in subjects ==> r[name] == info
  {
    if !initialized || name in subjects then subjects else subjects[name := info]
  }

  /** Removal from one map: ignored while uninitialized; otherwise erases exactly `name`,
      which may be absent. */
  function Removed(initialized: bool, subjects: Subjects, name: Name): (r: Subjects)
    ensures !initialized ==> r == subjects
    ensures initialized ==> r.Keys == subjects.Keys - {name}
    ensures forall n :: n in r ==> n in subjects && r[n] == subjects[n]
  {
    if !initialized then subjects else subjects - {name}
  }

  //===========================================================================
  // Transform subjects
  //===========================================================================

  /** RegisterTransformSubject: registers with no properties unless already registered. */
  function RegisterTransform(s: BridgeState, name: Name): (r: BridgeState)
    ensures r == s.(transformSubjects := r.transformSubjects)
    ensures r.transformSubjects == Registered(s.initialized, s.transformSubjects, name, EmptyInfo())
    ensures Valid(s) ==> Valid(r)
  {
    s.(transformSubjects := Registered(s.initialized, s.transformSubjects, name, EmptyInfo()))
  }

  /** RegisterTransformSubjectWithProperties: registers with the given property names
      unless already registered; an existing schema is never replaced. */
  function RegisterTransformWithProperties(s: BridgeState, name: Name, propertyNames: seq<Name>): (r: BridgeState)
    ensures r == s.(transformSubjects := r.transformSubjects)
    ensures r.transformSubjects == Registered(s.initialized, s.transformSubjects, name, InfoOf(propertyNames))
    ensures Valid(s) ==> Valid(r)
  {
    s.(transformSubjects := Registered(s.initialized, s.transformSubjects, name, InfoOf(propertyNames)))
  }

  /** UpdateTransformSubject: the transform itself goes nowhere yet; an unknown name is
      auto-registered with no properties, so once initialized the name is always registered. */
  function UpdateTransform(s: BridgeState, name: Name, transform: Transform): (r: BridgeState)
    ensures r == s.(transformSubjects := r.transformSubjects)
    ensures s.initialized ==> name in r.transformSubjects
    ensures s.initialized && name !in s.transformSubjects ==> r.transformSubjects[name] == EmptyInfo()
    ensures forall n :: n in s.transformSubjects ==> n in r.transformSubjects && r.transformSubjects[n] == s.transformSubjects[n]
    ensures r.transformSubjects.Keys <= s.transformSubjects.Keys + {name}
    ensures Valid(s) ==> Valid(r)
  {
    s.(transformSubjects := Registered(s.initialized, s.transformSubjects, name, EmptyInfo()))
  }

  /** RemoveTransformSubject: erases exactly that name from the transform map. */
  function RemoveTransform(s: BridgeState, name: Name): (r: BridgeState)
    ensures r == s.(transformSubjects := r.transformSubjects)
    ensures r.transformSubjects == Removed(s.initialized, s.transformSubjects, name)
    ensures Valid(s) ==> Valid(r)
  {
    s.(transformSubjects := Removed(s.initialized, s.transformSubjects, name))
  }

  //===========================================================================
  // Data subjects
  //===========================================================================

  /** RegisterDataSubject: registers with the given property names unless already registered. */
  function RegisterData(s: BridgeState, name: Name, propertyNames: seq<Name>): (r: BridgeState)
    ensures r == s.(dataSubjects := r.dataSubjects)
    ensures r.dataSubjects == Registered(s.initialized, s.dataSubjects, name, InfoOf(propertyNames))
    ensures Valid(s) ==> Valid(r)
  {
    s.(dataSubjects := Registered(s.initialized, s.dataSubjects, name, InfoOf(propertyNames)))
  }

  /** RemoveDataSubject: erases exactly that name from the data map. */
  function RemoveData(s: BridgeState, name: Name): (r: BridgeState)
    ensures r == s.(dataSubjects := r.dataSubjects)
    ensures r.dataSubjects == Removed(s.initialized, s.dataSubjects, name)
    ensures Valid(s) ==> Valid(r)
  {
    s.(dataSubjects := Removed(s.initialized, s.dataSubjects, name))
  }

  //===========================================================================
  // Updates that carry property values
  //===========================================================================

  /** Which branch an update with property values takes. The two updates that carry
      values never change the state; this is what they decide. */
  datatype UpdateCheck =
    | Ignored                                   // not initialized
    | CountMismatch(expected: int, actual: int) // registered, wrong count: dropped
    | Unvalidated                               // not registered: passed through unchecked
    | Validated                                 // registered, count matches

  /** Whether the update goes on to the (future) push rather than being dropped. */
  predicate Forwarded(c: UpdateCheck)
  {
    c.Unvalidated? || c.Validated?
  }

  function CheckUpdate(initialized: bool, subjects: Subjects, name: Name, valueCount: int): (c: UpdateCheck)
    ensures c == Ignored <==> !initialized
    ensures c.CountMismatch? <==> initialized && name in subjects && subjects[name].expectedPropertyCount != valueCount
    ensures c.CountMismatch? ==> c.expected == subjects[name].expectedPropertyCount && c.actual == valueCount
    ensures c == Unvalidated <==> initialized && name !in subjects
    ensures c == Validated <==> initialized && name in subjects && subjects[name].expectedPropertyCount == valueCount
  {
    if !initialized then Ignored
    else if name !in subjects then Unvalidated
    else if subjects[name].expectedPropertyCount != valueCount then CountMismatch(subjects[name].expectedPropertyCount, valueCount)
    else Validated
  }

  /** UpdateTransformSubjectWithProperties: checked against the transform map only. */
  function CheckTransformUpdate(s: BridgeState, name: Name, values: seq<real>): UpdateCheck
  {
    CheckUpdate(s.initialized, s.transformSubjects, name, |values|)
  }

  /** UpdateDataSubject: checked against the data map only. */
  function CheckDataUpdate(s: BridgeState, name: Name, values: seq<real>): UpdateCheck
  {
    CheckUpdate(s.initialized, s.dataSubjects, name, |values|)
  }

  //===========================================================================
  // Name cache
  //===========================================================================

  /** GetCachedName: a null or empty string gives the "none" name and leaves the cache
      alone; otherwise a cache hit returns the stored name and a miss stores and returns
      a new one. The initialized flag is not consulted. */
  function CachedName(s: BridgeState, c: CString): (r: (BridgeState, Name))
    ensures c.None? || c.value == "" ==> r == (s, NoName)
    ensures r.0 == s.(nameCache := r.0.nameCache)
    ensures Valid(s) ==> Valid(r.0) && r.1 == NameOf(c)
    ensures Valid(s) && c.Some? && c.value != "" ==> r.0.nameCache == s.nameCache[c.value := r.1]
  {
    if c.None? || c.value == "" then (s, NoName)
    else if c.value in s.nameCache then (s, s.nameCache[c.value])
    else
      var n := ToName(c.value);
      (s.(nameCache := s.nameCache[c.value := n]), n)
  }

  /** The strings of a list of C strings that go into the cache: the non-null, non-empty ones. */
  function CachedTexts(entries: seq<CString>): set<string>
  {
    set i | 0 <= i < |entries| && entries[i].Some? && entries[i].value != "" :: entries[i].value
  }

  /** The cache effect of converting a list of property names left to right: each
      non-null entry goes through the cache, which gains exactly the non-empty ones. */
  function CacheAll(s: BridgeState, entries: seq<CString>): (r: BridgeState)
    decreases |entries|
    ensures r == s.(nameCache := r.nameCache)
    ensures Valid(s) ==> Valid(r)
    ensures r.nameCache.Keys == s.nameCache.Keys + CachedTexts(entries)
    ensures forall k :: k in s.nameCache ==> k in r.nameCache && r.nameCache[k] == s.nameCache[k]
  {
    if entries == [] then s
    else
      var last := entries[|entries| - 1];
      var init := entries[..|entries| - 1];
      var before := CacheAll(s, init);
      assert CachedTexts(entries) == CachedTexts(init) + CachedTexts([last]) by {
        assert entries == init + [last];
        assert forall i :: 0 <= i < |init| ==> init[i] == entries[i];
      }
      CachedName(before, last).0
  }

  //===========================================================================
  // Properties across calls
  //===========================================================================

  /** Initialize twice is Initialize once: the second call keeps the first provider name. */
  lemma InitializeIdempotent(s: BridgeState, first: string, second: string)
    ensures Initialize(Initialize(s, first), second) == Initialize(s, first)
  {
  }

  /** Shutdown twice is Shutdown once. */
  lemma ShutdownIdempotent(s: BridgeState)
    ensures Shutdown(Shutdown(s)) == Shutdown(s)
  {
  }

  /** Shutdown then Initialize: the status goes back to NotInitialized and then to Ok,
      the provider is the new one, and every earlier subject is gone. */
  lemma RestartForgetsSubjects(s: BridgeState, providerName: string)
    requires Valid(s) && s.initialized
    ensures ConnectionStatus(Shutdown(s)) == NotInitialized
    ensures var r := Initialize(Shutdown(s), providerName);
      && ConnectionStatus(r) == Ok
      && r.providerName == providerName
      && r.transformSubjects == map[] && r.dataSubjects == map[] && r.nameCache == map[]
  {
  }

  /** First registration wins: registering a name again, with any property list, changes
      nothing. */
  lemma RegisterTwiceKeepsFirst(s: BridgeState, name: Name, first: seq<Name>, second: seq<Name>)
    ensures var once := RegisterTransformWithProperties(s, name, first);
      && RegisterTransformWithProperties(once, name, second) == once
      && RegisterTransform(once, name) == once
      && UpdateTransform(once, name, Transform([0.0, 0.0, 0.0], [0.0, 0.0, 0.0, 1.0], [1.0, 1.0, 1.0])) == once
    ensures var once := RegisterData(s, name, first);
      RegisterData(once, name, second) == once
  {
  }

  /** A registered schema survives any number of updates: a mismatched update is dropped
      and the record still reports the original count. */
  lemma MismatchKeepsSchema(s: BridgeState, name: Name, propertyNames: seq<Name>, values: seq<real>)
    requires Valid(s) && s.initialized && name !in s.transformSubjects
    requires |values| != |propertyNames|
    ensures var r := RegisterTransformWithProperties(s, name, propertyNames);
      && CheckTransformUpdate(r, name, values) == CountMismatch(|propertyNames|, |values|)
      && r.transformSubjects[name].expectedPropertyCount == |propertyNames|
  {
  }

  /** After auto-registration by a plain update, an update with values passes validation
      only when it carries no values. */
  lemma AutoRegisteredAcceptsOnlyEmpty(s: BridgeState, name: Name, t: Transform, values: seq<real>)
    requires s.initialized && name !in s.transformSubjects
    ensures var r := UpdateTransform(s, name, t);
      && name in r.transformSubjects
      && r.transformSubjects[name] == EmptyInfo()
      && (CheckTransformUpdate(r, name, values) == Validated <==> values == [])
      && (values != [] ==> CheckTransformUpdate(r, name, values) == CountMismatch(0, |values|))
  {
  }

  /** An update with values for an unregistered name is passed through and does not
      register it: the update never changes the state, so the name stays unregistered. */
  lemma UnregisteredUpdatePassesThrough(s: BridgeState, name: Name, values: seq<real>)
    requires s.initialized
    ensures name !in s.transformSubjects ==> Forwarded(CheckTransformUpdate(s, name, values))
    ensures name !in s.dataSubjects ==> Forwarded(CheckDataUpdate(s, name, values))
  {
  }

  /** Registration and removal are inverse: removing a freshly registered name restores
      the state exactly. */
  lemma RemoveUndoesRegister(s: BridgeState, name: Name, propertyNames: seq<Name>)
    requires name !in s.transformSubjects && name !in s.dataSubjects
    ensures RemoveTransform(RegisterTransformWithProperties(s, name, propertyNames), name) == s
    ensures RemoveData(RegisterData(s, name, propertyNames), name) == s
  {
    if s.initialized {
      var t := RegisterTransformWithProperties(s, name, propertyNames).transformSubjects;
      assert t - {name} == s.transformSubjects;
      var d := RegisterData(s, name, propertyNames).dataSubjects;
      assert d - {name} == s.dataSubjects;
    }
  }

  /** Removal is idempotent, and removing an absent name is a no-op. */
  lemma RemoveIdempotent(s: BridgeState, name: Name)
    ensures RemoveTransform(RemoveTransform(s, name), name) == RemoveTransform(s, name)
    ensures RemoveData(RemoveData(s, name), name) == RemoveData(s, name)
    ensures name !in s.transformSubjects ==> RemoveTransform(s, name) == s
    ensures name !in s.dataSubjects ==> RemoveData(s, name) == s
  {
    if s.initialized {
      assert name !in s.transformSubjects ==> s.transformSubjects - {name} == s.transformSubjects;
      assert name !in s.dataSubjects ==> s.dataSubjects - {name} == s.dataSubjects;
    }
  }

  /** Transform and data subjects are separate namespaces: one name can be registered as
      both, and removing it as one kind leaves the other kind's record. */
  lemma KindsIndependent(s: BridgeState, name: Name, propertyNames: seq<Name>)
    requires s.initialized
    ensures var r := RegisterData(RegisterTransform(s, name), name, propertyNames);
      && name in r.transformSubjects && name in r.dataSubjects
      && RemoveTransform(r, name).dataSubjects == r.dataSubjects
      && RemoveData(r, name).transformSubjects == r.transformSubjects
  {
  }

  /** The name cache is stable: once a non-empty string has been looked up, looking it up
      again returns the same name and leaves the cache as it is. */
  lemma CachedNameStable(s: BridgeState, c: CString)
    requires Valid(s)
    ensures var (s1, n1) := CachedName(s, c);
      CachedName(s1, c) == (s1, n1)
  {
    var (s1, n1) := CachedName(s, c);
    if c.Some? && c.value != "" {
      assert c.value in s1.nameCache;
      assert s1.nameCache[c.value] == n1;
    }
  }

  /** Every empty subject name shares one key, the "none" name. */
  lemma EmptyNamesShareOneKey(s: BridgeState, a: CString, b: CString)
    requires Valid(s)
    requires a.Some? && a.value == "" && b.Some? && b.value == ""
    ensures CachedName(s, a) == CachedName(s, b) == (s, NoName)
  {
  }

  /** The scenario of a forklift with two properties: an update with two values is
      validated, one with a single value is dropped as a count mismatch. */
  lemma ForkliftScenario()
    ensures var forklift := ToName("Forklift_01");
      var s := RegisterTransformWithProperties(Initialize(Fresh(), "Sim"), forklift, [ToName("Speed"), ToName("Load")]);
      && CheckTransformUpdate(s, forklift, [1.5, 0.2]) == Validated
      && CheckTransformUpdate(s, forklift, [1.5]) == CountMismatch(2, 1)
  {
  }
}
