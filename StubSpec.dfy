/**
 * The earlier stub library, as values: one initialized flag and five call
 * counters (two kept with the flag, three function-local statics of the
 * update functions). Subject calls never change the flag; the update calls
 * count themselves and write a log line only on calls 1, 61, 121, ...
 */
module StubSpec {
  import opened Wrappers
  import opened Names
  import opened LiveLinkTypes

  datatype StubState = StubState(
    initialized: bool,
    initializeCallCount: nat,
    shutdownCallCount: nat,
    updateCallCount: nat,
    updateWithPropertiesCallCount: nat,
    dataUpdateCallCount: nat)

  /** The globals at load time. */
  function Fresh(): (s: StubState)
    ensures !s.initialized
    ensures s.initializeCallCount == s.shutdownCallCount == 0
    ensures s.updateCallCount == s.updateWithPropertiesCallCount == s.dataUpdateCallCount == 0
  {
    StubState(false, 0, 0, 0, 0, 0)
  }

  /** Which branch a subject call ends in: a failed argument check, the warning that
      the library is not initialized, or the "no actual work" stub body. */
  datatype Disposition = Rejected | Uninitialized | Accepted

  /** The disposition of a call whose arguments passed. */
  function Reached(s: StubState): (d: Disposition)
    ensures d != Rejected
    ensures d == Accepted <==> s.initialized
  {
    if s.initialized then Accepted else Uninitialized
  }

  //===========================================================================
  // Log throttle
  //===========================================================================

  /** An update call writes its log line when its running count is 1 modulo 60. */
  predicate LogsOnCall(count: nat)
  {
    count % 60 == 1
  }

  /** How many of calls 1..n write a log line. */
  function LoggedCalls(n: nat): nat
  {
    if n == 0 then 0 else LoggedCalls(n - 1) + (if LogsOnCall(n) then 1 else 0)
  }

  /** Exactly one call in every 60 logs, starting with the first: calls 1..n log
      ceil(n / 60) times. */
  lemma {:induction false} LoggedCallsCount(n: nat)
    ensures LoggedCalls(n) == (n + 59) / 60
  {
    if n > 0 {
      LoggedCallsCount(n - 1);
      var q := (n - 1) / 60;
      var r := (n - 1) % 60;
      assert n - 1 == 60 * q + r;
      if r == 0 {
        assert n % 60 == 1;
        assert (n + 58) / 60 == q;
        assert (n + 59) / 60 == q + 1;
      } else {
        assert n == 60 * q + (r + 1) && 2 <= r + 1 <= 60;
        assert !LogsOnCall(n);
        assert (n + 58) / 60 == q + 1;
        assert (n + 59) / 60 == q + 1;
      }
    }
  }

  /** The logging calls are exactly 1, 61, 121, ... */
  lemma LogsExactlyOnFirstOfSixty(k: nat, n: nat)
    ensures LogsOnCall(60 * k + 1)
    ensures LogsOnCall(n) ==> n == 60 * (n / 60) + 1
  {
  }

  /** Any 60 consecutive calls contain exactly one logging call. */
  lemma OneLogPerSixty(n: nat)
    ensures LoggedCalls(n + 60) == LoggedCalls(n) + 1
  {
    LoggedCallsCount(n);
    LoggedCallsCount(n + 60);
  }

  //===========================================================================
  // Lifecycle
  //===========================================================================

  /** A null or empty name fails with Error and changes nothing; otherwise the call is
      counted, the flag ends up set, and the result is Ok even when already set. */
  function Initialize(s: StubState, providerName: CString): (r: (StubState, int))
    ensures providerName.None? || providerName.value == "" ==> r == (s, Error)
    ensures providerName.Some? && providerName.value != "" ==>
      && r.1 == Ok && r.0.initialized
      && r.0.initializeCallCount == s.initializeCallCount + 1
      && r.0 == s.(initialized := r.0.initialized, initializeCallCount := r.0.initializeCallCount)
  {
    if providerName.None? || providerName.value == "" then (s, Error)
    else (s.(initialized := true, initializeCallCount := s.initializeCallCount + 1), Ok)
  }

  /** A second valid Initialize succeeds as well and is counted again, and IsConnected
      then still reports NotConnected. */
  lemma RepeatedInitializeSucceeds(s: StubState, first: string, second: string)
    requires first != "" && second != ""
    ensures var (once, status1) := Initialize(s, Some(first));
      var (twice, status2) := Initialize(once, Some(second));
      && status1 == Ok && status2 == Ok
      && twice.initializeCallCount == s.initializeCallCount + 2
      && IsConnected(twice) == NotConnected
  {
  }

  /** Always counted; the flag ends up clear. */
  function Shutdown(s: StubState): (r: StubState)
    ensures !r.initialized
    ensures r.shutdownCallCount == s.shutdownCallCount + 1
    ensures r == s.(initialized := r.initialized, shutdownCallCount := r.shutdownCallCount)
  {
    s.(initialized := false, shutdownCallCount := s.shutdownCallCount + 1)
  }

  /** NotInitialized before Initialize, NotConnected afterwards: never Ok. */
  function IsConnected(s: StubState): (status: int)
    ensures status != Ok
    ensures status == NotInitialized <==> !s.initialized
    ensures status == NotConnected <==> s.initialized
  {
    if !s.initialized then NotInitialized else NotConnected
  }

  //===========================================================================
  // Subject calls that change nothing
  //===========================================================================

  function RegisterObject(s: StubState, subjectName: CString): (d: Disposition)
    ensures d == Rejected <==> subjectName.None?
    ensures d == Accepted <==> subjectName.Some? && s.initialized
  {
    if subjectName.None? then Rejected else Reached(s)
  }

  /** The argument checks of the two register-with-names calls: a positive count needs
      an array, and a negative count is refused. */
  predicate NamesAccepted(subjectName: CString, propertyNames: Option<seq<CString>>, count: int)
  {
    subjectName.Some? && !(count > 0 && propertyNames.None?) && count >= 0
  }

  function RegisterObjectWithProperties(s: StubState, subjectName: CString,
                                        propertyNames: Option<seq<CString>>, count: int): (d: Disposition)
    ensures d == Rejected <==> subjectName.None? || count < 0 || (count > 0 && propertyNames.None?)
    ensures d == Accepted <==> NamesAccepted(subjectName, propertyNames, count) && s.initialized
  {
    if !NamesAccepted(subjectName, propertyNames, count) then Rejected else Reached(s)
  }

  function RemoveObject(s: StubState, subjectName: CString): (d: Disposition)
    ensures d == Rejected <==> subjectName.None?
    ensures d == Accepted <==> subjectName.Some? && s.initialized
  {
    if subjectName.None? then Rejected else Reached(s)
  }

  function RegisterDataSubject(s: StubState, subjectName: CString,
                               propertyNames: Option<seq<CString>>, count: int): (d: Disposition)
    ensures d == Rejected <==> subjectName.None? || count < 0 || (count > 0 && propertyNames.None?)
    ensures d == Accepted <==> NamesAccepted(subjectName, propertyNames, count) && s.initialized
  {
    if !NamesAccepted(subjectName, propertyNames, count) then Rejected else Reached(s)
  }

  function RemoveDataSubject(s: StubState, subjectName: CString): (d: Disposition)
    ensures d == Rejected <==> subjectName.None?
    ensures d == Accepted <==> subjectName.Some? && s.initialized
  {
    if subjectName.None? then Rejected else Reached(s)
  }

  //===========================================================================
  // Update calls: counted once they pass their argument checks
  //===========================================================================

  /** The three throttled counters. */
  datatype Counter = TransformCounter | TransformWithPropertiesCounter | DataCounter

  function CountOf(s: StubState, which: Counter): nat
  {
    match which
    case TransformCounter => s.updateCallCount
    case TransformWithPropertiesCounter => s.updateWithPropertiesCallCount
    case DataCounter => s.dataUpdateCallCount
  }

  /** The state after one more counted call on `which`. */
  function Bump(s: StubState, which: Counter): (r: StubState)
    ensures CountOf(r, which) == CountOf(s, which) + 1
    ensures forall other :: other != which ==> CountOf(r, other) == CountOf(s, other)
    ensures r.initialized == s.initialized
    ensures r.initializeCallCount == s.initializeCallCount && r.shutdownCallCount == s.shutdownCallCount
  {
    match which
    case TransformCounter => s.(updateCallCount := s.updateCallCount + 1)
    case TransformWithPropertiesCounter => s.(updateWithPropertiesCallCount := s.updateWithPropertiesCallCount + 1)
    case DataCounter => s.(dataUpdateCallCount := s.dataUpdateCallCount + 1)
  }

  /** The outcome of an update call: the new state, the branch taken, and whether the
      call wrote its throttled log line. */
  datatype UpdateResult = UpdateResult(state: StubState, disposition: Disposition, logged: bool)

  /** A call that passed its checks: counted, and logged when its count is 1 modulo 60. */
  function Counted(s: StubState, which: Counter): (r: UpdateResult)
    ensures r.state == Bump(s, which)
    ensures r.disposition == Reached(s)
    ensures r.logged <==> LogsOnCall(CountOf(s, which) + 1)
  {
    var next := Bump(s, which);
    UpdateResult(next, Reached(s), LogsOnCall(CountOf(next, which)))
  }

  /** The lines a throttled update writes: none unless it logs; otherwise its Log line, and
      when the flag is clear the "not initialized" Warning too, which tests the same count. */
  function LinesWritten(r: UpdateResult): nat
  {
    if !r.logged then 0 else if r.disposition == Uninitialized then 2 else 1
  }

  /** A counted call writes two lines on a logging count while uninitialized, one on a
      logging count while initialized, and none on any other count. */
  lemma CountedLines(s: StubState, which: Counter)
    ensures var n := LinesWritten(Counted(s, which));
      && (n == 0 <==> !LogsOnCall(CountOf(s, which) + 1))
      && (n == 2 <==> LogsOnCall(CountOf(s, which) + 1) && !s.initialized)
      && (n == 1 <==> LogsOnCall(CountOf(s, which) + 1) && s.initialized)
  {
  }

  /** A null name or a null transform is refused before the counter moves. */
  function UpdateObject(s: StubState, subjectName: CString, transform: Option<Transform>): (r: UpdateResult)
    ensures subjectName.None? || transform.None? ==> r == UpdateResult(s, Rejected, false)
    ensures subjectName.Some? && transform.Some? ==> r == Counted(s, TransformCounter)
  {
    if subjectName.None? || transform.None? then UpdateResult(s, Rejected, false)
    else Counted(s, TransformCounter)
  }

  /** Also refuses a positive count without values; a negative count is not checked. */
  function UpdateObjectWithProperties(s: StubState, subjectName: CString, transform: Option<Transform>,
                                      propertyValues: Option<seq<real>>, count: int): (r: UpdateResult)
    ensures subjectName.None? || transform.None? || (count > 0 && propertyValues.None?) ==>
      r == UpdateResult(s, Rejected, false)
    ensures subjectName.Some? && transform.Some? && !(count > 0 && propertyValues.None?) ==>
      r == Counted(s, TransformWithPropertiesCounter)
  {
    if subjectName.None? || transform.None? || (count > 0 && propertyValues.None?) then UpdateResult(s, Rejected, false)
    else Counted(s, TransformWithPropertiesCounter)
  }

  /** Refuses a positive count without values and a negative count; the names are never read. */
  function UpdateDataSubject(s: StubState, subjectName: CString, propertyNames: Option<seq<CString>>,
                             propertyValues: Option<seq<real>>, count: int): (r: UpdateResult)
    ensures subjectName.None? || (count > 0 && propertyValues.None?) || count < 0 ==>
      r == UpdateResult(s, Rejected, false)
    ensures subjectName.Some? && !(count > 0 && propertyValues.None?) && count >= 0 ==>
      r == Counted(s, DataCounter)
  {
    if subjectName.None? || (count > 0 && propertyValues.None?) || count < 0 then UpdateResult(s, Rejected, false)
    else Counted(s, DataCounter)
  }
}
