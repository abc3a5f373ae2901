/**
 * Sequences of calls on the stub: only Initialize and Shutdown move the flag,
 * each throttled counter logs on one of every 60 counted calls, and such a
 * call writes one line while initialized and two while not.
 */
module StubTrace {
  import opened Wrappers
  import opened Names
  import opened LiveLinkTypes
  import S = StubSpec

  /** One call on the stub, with its arguments. */
  datatype Call =
    | Initialize(providerName: CString)
    | Shutdown
    | RegisterObject(subjectName: CString)
    | RegisterObjectWithProperties(subjectName: CString, propertyNames: Option<seq<CString>>, count: int)
    | UpdateObject(subjectName: CString, transform: Option<Transform>)
    | UpdateObjectWithProperties(subjectName: CString, transform: Option<Transform>, values: Option<seq<real>>, count: int)
    | RemoveObject(subjectName: CString)
    | RegisterDataSubject(subjectName: CString, propertyNames: Option<seq<CString>>, count: int)
    | UpdateDataSubject(subjectName: CString, propertyNames: Option<seq<CString>>, values: Option<seq<real>>, count: int)
    | RemoveDataSubject(subjectName: CString)

  /** The state after one call, and how many throttled log lines it wrote. */
  function Step(s: S.StubState, call: Call): (r: (S.StubState, nat))
    ensures !call.Initialize? && !call.Shutdown? ==> r.0.initialized == s.initialized
  {
    match call
    case Initialize(p) => (S.Initialize(s, p).0, 0)
    case Shutdown => (S.Shutdown(s), 0)
    case UpdateObject(n, t) =>
      var u := S.UpdateObject(s, n, t); (u.state, S.LinesWritten(u))
    case UpdateObjectWithProperties(n, t, v, c) =>
      var u := S.UpdateObjectWithProperties(s, n, t, v, c); (u.state, S.LinesWritten(u))
    case UpdateDataSubject(n, ps, v, c) =>
      var u := S.UpdateDataSubject(s, n, ps, v, c); (u.state, S.LinesWritten(u))
    case _ => (s, 0)
  }

  /** The counter a call advances, if it is an update. */
  function CounterOfCall(call: Call): Option<S.Counter>
  {
    match call
    case UpdateObject(_, _) => Some(S.TransformCounter)
    case UpdateObjectWithProperties(_, _, _, _) => Some(S.TransformWithPropertiesCounter)
    case UpdateDataSubject(_, _, _, _) => Some(S.DataCounter)
    case _ => None
  }

  /** The state after a sequence of calls. */
  function Run(s: S.StubState, calls: seq<Call>): S.StubState
    decreases |calls|
  {
    if calls == [] then s else Run(Step(s, calls[0]).0, calls[1..])
  }

  /** How many calls of a sequence on counter `which` logged. */
  function LoggingCalls(s: S.StubState, calls: seq<Call>, which: S.Counter): nat
    decreases |calls|
  {
    if calls == [] then 0
    else
      var (next, lines) := Step(s, calls[0]);
      (if lines > 0 && CounterOfCall(calls[0]) == Some(which) then 1 else 0) + LoggingCalls(next, calls[1..], which)
  }

  /** How many throttled lines the calls of a sequence on counter `which` wrote. */
  function WrittenLines(s: S.StubState, calls: seq<Call>, which: S.Counter): nat
    decreases |calls|
  {
    if calls == [] then 0
    else
      var (next, lines) := Step(s, calls[0]);
      (if CounterOfCall(calls[0]) == Some(which) then lines else 0) + WrittenLines(next, calls[1..], which)
  }

  /** One step moves counter `which` by at most one, logs for it only when it moved onto
      a count that is 1 modulo 60, and then writes two lines iff the flag is clear. */
  lemma StepCounts(s: S.StubState, call: Call, which: S.Counter)
    ensures var (next, lines) := Step(s, call);
      && (S.CountOf(next, which) == S.CountOf(s, which) || S.CountOf(next, which) == S.CountOf(s, which) + 1)
      && (S.CountOf(next, which) == S.CountOf(s, which) + 1 ==> CounterOfCall(call) == Some(which))
      && (lines > 0 && CounterOfCall(call) == Some(which) <==>
            S.CountOf(next, which) == S.CountOf(s, which) + 1 && S.LogsOnCall(S.CountOf(next, which)))
      && (lines > 0 ==> (lines == 2 <==> !s.initialized) && (lines == 1 <==> s.initialized))
  {
  }

  /** Over any sequence of calls, the calls that logged for one counter are exactly the
      logging counts the counter passed through. */
  lemma {:induction false} ThrottledLoggingCalls(s: S.StubState, calls: seq<Call>, which: S.Counter)
    ensures S.CountOf(s, which) <= S.CountOf(Run(s, calls), which)
    ensures LoggingCalls(s, calls, which) == S.LoggedCalls(S.CountOf(Run(s, calls), which)) - S.LoggedCalls(S.CountOf(s, which))
    decreases |calls|
  {
    if calls != [] {
      var (next, lines) := Step(s, calls[0]);
      StepCounts(s, calls[0], which);
      ThrottledLoggingCalls(next, calls[1..], which);
    }
  }

  /** Starting from a fresh stub, ceil(n / 60) of n counted calls log. */
  lemma FreshLoggingCalls(calls: seq<Call>, which: S.Counter)
    ensures LoggingCalls(S.Fresh(), calls, which) == (S.CountOf(Run(S.Fresh(), calls), which) + 59) / 60
  {
    ThrottledLoggingCalls(S.Fresh(), calls, which);
    S.LoggedCallsCount(S.CountOf(Run(S.Fresh(), calls), which));
  }

  /** While the flag does not move, every logging call writes one line when initialized
      and two (the Log line and the "not initialized" Warning) when not. */
  lemma {:induction false} LinesPerLoggingCall(s: S.StubState, calls: seq<Call>, which: S.Counter)
    requires forall i :: 0 <= i < |calls| ==> !calls[i].Initialize? && !calls[i].Shutdown?
    ensures WrittenLines(s, calls, which) == (if s.initialized then 1 else 2) * LoggingCalls(s, calls, which)
    decreases |calls|
  {
    if calls != [] {
      var (next, lines) := Step(s, calls[0]);
      StepCounts(s, calls[0], which);
      LinesPerLoggingCall(next, calls[1..], which);
    }
  }

  /** A fresh stub that only receives subject calls writes 2 * ceil(n / 60) throttled
      lines for n counted calls on a counter. */
  lemma FreshUninitializedLines(calls: seq<Call>, which: S.Counter)
    requires forall i :: 0 <= i < |calls| ==> !calls[i].Initialize? && !calls[i].Shutdown?
    ensures WrittenLines(S.Fresh(), calls, which) == 2 * ((S.CountOf(Run(S.Fresh(), calls), which) + 59) / 60)
  {
    LinesPerLoggingCall(S.Fresh(), calls, which);
    FreshLoggingCalls(calls, which);
  }

  /** Only Initialize and Shutdown move the flag: a sequence of subject calls leaves it
      as it was. */
  lemma {:induction false} SubjectCallsKeepFlag(s: S.StubState, calls: seq<Call>)
    requires forall i :: 0 <= i < |calls| ==> !calls[i].Initialize? && !calls[i].Shutdown?
    ensures Run(s, calls).initialized == s.initialized
    decreases |calls|
  {
    if calls != [] {
      SubjectCallsKeepFlag(Step(s, calls[0]).0, calls[1..]);
    }
  }
}
