/**
 * Any sequence of calls on the bridge, starting from a new bridge, keeps the
 * registry invariant: in particular an uninitialized bridge never holds a
 * subject, and the connection status is never "not connected".
 */
module BridgeTrace {
  import opened Names
  import opened LiveLinkTypes
  import Registry

  /** One call on the bridge, with its arguments. */
  datatype Call =
    | Initialize(providerName: string)
    | Shutdown
    | RegisterTransformSubject(name: Name)
    | RegisterTransformSubjectWithProperties(name: Name, propertyNames: seq<Name>)
    | UpdateTransformSubject(name: Name, transform: Transform)
    | UpdateTransformSubjectWithProperties(name: Name, transform: Transform, values: seq<real>)
    | RemoveTransformSubject(name: Name)
    | RegisterDataSubject(name: Name, propertyNames: seq<Name>)
    | UpdateDataSubject(name: Name, values: seq<real>)
    | RemoveDataSubject(name: Name)
    | GetCachedName(text: CString)

  /** The state after one call. The two updates that carry values leave the state alone. */
  function Apply(s: Registry.BridgeState, call: Call): (r: Registry.BridgeState)
    ensures Registry.Valid(s) ==> Registry.Valid(r)
  {
    match call
    case Initialize(p) => Registry.Initialize(s, p)
    case Shutdown => Registry.Shutdown(s)
    case RegisterTransformSubject(n) => Registry.RegisterTransform(s, n)
    case RegisterTransformSubjectWithProperties(n, ps) => Registry.RegisterTransformWithProperties(s, n, ps)
    case UpdateTransformSubject(n, t) => Registry.UpdateTransform(s, n, t)
    case UpdateTransformSubjectWithProperties(_, _, _) => s
    case RemoveTransformSubject(n) => Registry.RemoveTransform(s, n)
    case RegisterDataSubject(n, ps) => Registry.RegisterData(s, n, ps)
    case UpdateDataSubject(_, _) => s
    case RemoveDataSubject(n) => Registry.RemoveData(s, n)
    case GetCachedName(c) => Registry.CachedName(s, c).0
  }

  /** The state after a sequence of calls, in order. */
  function Run(s: Registry.BridgeState, calls: seq<Call>): Registry.BridgeState
    decreases |calls|
  {
    if calls == [] then s else Run(Apply(s, calls[0]), calls[1..])
  }

  lemma {:induction false} RunPreservesValid(s: Registry.BridgeState, calls: seq<Call>)
    requires Registry.Valid(s)
    ensures Registry.Valid(Run(s, calls))
    decreases |calls|
  {
    if calls != [] {
      RunPreservesValid(Apply(s, calls[0]), calls[1..]);
    }
  }

  /** Every state reachable from a new bridge is valid: while uninitialized it holds no
      subjects and no provider name, and the status is never NotConnected. */
  lemma ReachableStatesValid(calls: seq<Call>)
    ensures var s := Run(Registry.Fresh(), calls);
      && Registry.Valid(s)
      && (!s.initialized ==> s.transformSubjects == map[] && s.dataSubjects == map[] && s.providerName == "")
      && Registry.ConnectionStatus(s) == (if s.initialized then Ok else NotInitialized)
  {
    RunPreservesValid(Registry.Fresh(), calls);
  }
}
