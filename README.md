# Simio → Unreal LiveLink connector: subject registry and lifecycle, in Dafny

The connector's native library is a C call surface (`ULL_Initialize`,
`ULL_RegisterObject`, `ULL_UpdateDataSubject`, …) through which a Simio
simulation announces 3D objects ("transform subjects") and metric streams
("data subjects") to Unreal Engine's LiveLink. This project models the three
implementations of that surface and proves what each promises:

- **The real library.** The bridge object (`FLiveLinkBridge`, here the class
  `Bridge.LiveLinkBridge`) holds the state:
  - an initialized flag and a ready flag;
  - the provider name;
  - two separate subject maps, from name to schema (property names and expected count);
  - a string → name cache.

  The twelve exports (module `LiveLinkApi`) check their C arguments, intern
  names through the cache and delegate to the bridge. The bridge's
  bookkeeping is also written as pure functions on a state value
  (module `Registry`). Each bridge method is proved to move the object's
  fields exactly as its function says. The lemmas about those functions state:
  - idempotent Initialize and Shutdown;
  - first registration wins;
  - mismatched updates are dropped;
  - removal undoes registration;
  - the two subject kinds are independent namespaces;
  - the cache is stable;
  - every reachable state satisfies the invariant: an uninitialized bridge holds
    no subject, and the connection status is never "not connected" (module `BridgeTrace`).
- **The mock library** used by the managed-side tests (module `MockSpec` for the
  rules, `Mock` for the class over its globals). It follows different rules:
  - a second Initialize fails;
  - re-registration replaces a schema;
  - a data update auto-registers with the names it carries;
  - its codes are positive.
- **The earlier stub library** (module `StubSpec` for the rules, `Stub` for the
  class, `StubTrace` for call sequences). It holds a flag and five call
  counters. Its update calls log only on calls 1, 61, 121, … of each counter.
  Lemmas prove that in a run with n counted calls on a counter, exactly ⌈n/60⌉
  of them log. A logging call writes one line while the stub is initialized and
  two (a Log line and a "not initialized" Warning) while it is not.
- **The wire types** (`LiveLinkTypes`, `TypesValidation`):
  - the status codes and API version;
  - the packed 80-byte transform record with its field offsets;
  - the identity transform, and the validator that recognises exactly it.

Subject names are modelled by `Names.Name`, either the "none" name or the
interned text of a non-empty string. A C pointer that may be null is an
`Option`. A C array is an optional sequence; when non-null, it holds at
least as many entries as the count the caller passes.

Several source functions return `void`, and their branches differ only in
what they log. Their models return a small value naming the branch taken:
- `Registry.UpdateCheck` for the bridge's validated updates;
- `StubSpec.Disposition`, plus a `logged` flag, for the stub.

The real API's two property updates return `None` when argument checking rejects the call.

## Model

| member | source | states |
|---|---|---|
| LiveLinkTypes.StatusCodesDistinct | src/Native/UnrealLiveLink.Native/Public/UnrealLiveLink.Types.h:19-29 | success is 0, the three error codes are negative and pairwise distinct, the API version is 1 |
| LiveLinkTypes.MockCodesDistinct | src/Native/UnrealLiveLink.Native/Public/UnrealLiveLink.Types.h:81-83 | the mock's codes 1 and 2 are positive, distinct, and never equal to success or a real error code |
| LiveLinkTypes.SizeOfAppend | src/Native/UnrealLiveLink.Native/Public/UnrealLiveLink.Types.h:37-49 | a packed record grows by exactly the size of a field appended to it (no padding) |
| LiveLinkTypes.OffsetStep | src/Native/UnrealLiveLink.Native/Public/UnrealLiveLink.Types.h:61-64 | each field starts exactly where the previous one ends |
| LiveLinkTypes.LastFieldEndsRecord | src/Native/UnrealLiveLink.Native/Public/UnrealLiveLink.Types.h:58-59 | the last field ends at the record's size: no trailing padding |
| LiveLinkTypes.TransformLayout | src/Native/UnrealLiveLink.Native/Public/UnrealLiveLink.Types.h:38-64 | position, rotation and scale take 24, 32 and 24 bytes at offsets 0, 24, 56, the record takes 80 bytes, and the datatype's arrays have the field lengths 3, 4, 3 |
| TypesValidation.CreateIdentityTransform | src/Native/UnrealLiveLink.Native/Private/TypesValidation.cpp:38-58 | the identity's rotation is a unit quaternion and the validator accepts it |
| TypesValidation.VerifyIdentityTransform | src/Native/UnrealLiveLink.Native/Private/TypesValidation.cpp:61-88 | the validator returns true iff position is (0,0,0), rotation is (0,0,0,1) and scale is (1,1,1) |
| TypesValidation.IdentityVerifies | src/Native/UnrealLiveLink.Native/Private/TypesValidation.cpp:38-88 | the validator accepts the transform the identity constructor builds |
| TypesValidation.VerifyIdentityExact | src/Native/UnrealLiveLink.Native/Private/TypesValidation.cpp:61-88 | the validator returns true iff position is all 0, rotation is (0,0,0,1) and scale is all 1, i.e. iff the transform is the identity of lines 38-58 |
| Names.ToNameInjective | src/Native/UnrealLiveLink.Native/Private/LiveLinkBridge.cpp:433-456 | interning is injective and only the empty string yields the "none" name |
| Names.ToName | src/Native/UnrealLiveLink.Native/Private/LiveLinkBridge.cpp:451-454 | the "none" name iff the string is empty; otherwise a name carrying exactly that string |
| Names.NameOf | src/Native/UnrealLiveLink.Native/Private/UnrealLiveLink.API.cpp:68-78 | "none" iff the C string is null or empty; otherwise a name carrying its text |
| Names.NamesOf | src/Native/UnrealLiveLink.Native/Private/UnrealLiveLink.API.cpp:68-78 | the converted names have the list's length and entry i is the name of entry i, "none" for a null entry |
| Registry.EmptyInfo | src/Native/UnrealLiveLink.Native/Private/LiveLinkBridge.h:33-35 | the default schema has no property names and expected count 0 |
| Registry.InfoOf | src/Native/UnrealLiveLink.Native/Private/LiveLinkBridge.h:37-40 | a schema built from names stores them and expects exactly their number |
| Registry.Fresh | src/Native/UnrealLiveLink.Native/Private/LiveLinkBridge.h:166-179 | a new bridge is uninitialized, not ready, with no provider, empty maps and cache, and satisfies the invariant |
| Registry.Initialize | src/Native/UnrealLiveLink.Native/Private/LiveLinkBridge.cpp:27-54 | the bridge ends initialized; when it already was, nothing changes, the provider name included; otherwise the new name is stored; subjects and cache are untouched; the invariant is kept and the ready flag raised |
| Registry.Shutdown | src/Native/UnrealLiveLink.Native/Private/LiveLinkBridge.cpp:56-82 | the bridge ends uninitialized; when it was initialized every map, the cache and the provider are cleared (the fresh state); otherwise nothing changes |
| Registry.ConnectionStatus | src/Native/UnrealLiveLink.Native/Private/LiveLinkBridge.cpp:84-100 | NotInitialized iff uninitialized; once initialized Ok iff ready; always one of the three codes |
| Registry.StatusNeverNotConnected | src/Native/UnrealLiveLink.Native/Private/LiveLinkBridge.cpp:45-47 | under the invariant the status is Ok when initialized and NotInitialized otherwise, never NotConnected |
| Registry.Registered | src/Native/UnrealLiveLink.Native/Private/LiveLinkBridge.cpp:118-127 | registration into a map is ignored while uninitialized, otherwise adds exactly the name, keeps every existing record, and gives an absent name the new record |
| Registry.Removed | src/Native/UnrealLiveLink.Native/Private/LiveLinkBridge.cpp:287-300 | removal is ignored while uninitialized, otherwise erases exactly the name and keeps every other record |
| Registry.RegisterTransform | src/Native/UnrealLiveLink.Native/Private/LiveLinkBridge.cpp:106-134 | only the transform map changes, by first-wins registration of an empty schema; the invariant is kept |
| Registry.RegisterTransformWithProperties | src/Native/UnrealLiveLink.Native/Private/LiveLinkBridge.cpp:136-176 | only the transform map changes, by first-wins registration of the names' schema; the invariant is kept |
| Registry.UpdateTransform | src/Native/UnrealLiveLink.Native/Private/LiveLinkBridge.cpp:178-220 | only the transform map changes; once initialized the name is registered afterwards, an unknown name with an empty schema, and no existing record changes |
| Registry.RemoveTransform | src/Native/UnrealLiveLink.Native/Private/LiveLinkBridge.cpp:275-301 | only the transform map changes, by removal of exactly that name |
| Registry.RegisterData | src/Native/UnrealLiveLink.Native/Private/LiveLinkBridge.cpp:307-347 | only the data map changes, by first-wins registration of the names' schema |
| Registry.RemoveData | src/Native/UnrealLiveLink.Native/Private/LiveLinkBridge.cpp:401-427 | only the data map changes, by removal of exactly that name |
| Registry.CheckUpdate | src/Native/UnrealLiveLink.Native/Private/LiveLinkBridge.cpp:229-259 | an update with values is ignored iff uninitialized, dropped as a mismatch iff the name is registered with a different count (reporting both counts), passed unchecked iff unregistered, validated iff the counts agree |
| Registry.CachedName | src/Native/UnrealLiveLink.Native/Private/LiveLinkBridge.cpp:433-456 | a null or empty string gives "none" and leaves everything alone; otherwise the result is the string's name and the cache afterwards maps the string to it; only the cache changes, regardless of the initialized flag |
| Registry.CacheAll | src/Native/UnrealLiveLink.Native/Private/UnrealLiveLink.API.cpp:63-81 | converting a list of names changes only the cache and keeps the invariant; the cache's keys afterwards are exactly the old keys plus the non-null, non-empty entries, and every old entry keeps its name |
| Registry.InitializeIdempotent | src/Native/UnrealLiveLink.Native/Private/LiveLinkBridge.cpp:31-39 | Initialize twice equals Initialize once; the second provider name is ignored |
| Registry.ShutdownIdempotent | src/Native/UnrealLiveLink.Native/Private/LiveLinkBridge.cpp:56-82 | Shutdown twice equals Shutdown once |
| Registry.RestartForgetsSubjects | src/Native/UnrealLiveLink.Native/Private/LiveLinkBridge.cpp:56-82 | Shutdown then Initialize gives status NotInitialized then Ok, the new provider, and no subjects or cached names |
| Registry.RegisterTwiceKeepsFirst | src/Native/UnrealLiveLink.Native/Private/LiveLinkBridge.cpp:150-159 | once a name is registered, registering it again (with or without names) or auto-registering it by an update changes nothing |
| Registry.MismatchKeepsSchema | src/Native/UnrealLiveLink.Native/Private/LiveLinkBridge.cpp:241-259 | after registering n names, an update with a different number of values is a mismatch (n, m) and the record still expects n |
| Registry.AutoRegisteredAcceptsOnlyEmpty | src/Native/UnrealLiveLink.Native/Private/LiveLinkBridge.cpp:187-195 | a name auto-registered by a plain update has an empty schema, so a later update with values is validated iff it carries none |
| Registry.UnregisteredUpdatePassesThrough | src/Native/UnrealLiveLink.Native/Private/LiveLinkBridge.cpp:367-385 | an update with values for an unregistered name of either kind is forwarded |
| Registry.RemoveUndoesRegister | src/Native/UnrealLiveLink.Native/Private/LiveLinkBridge.cpp:287-300 | removing a freshly registered name restores the exact earlier state, for both kinds |
| Registry.RemoveIdempotent | src/Native/UnrealLiveLink.Native/Private/LiveLinkBridge.cpp:413-426 | removing twice equals removing once, and removing an absent name changes nothing |
| Registry.KindsIndependent | src/Native/UnrealLiveLink.Native/Private/LiveLinkBridge.h:175-176 | one name can be both a transform and a data subject, and removing one kind keeps the other's record |
| Registry.CachedNameStable | src/Native/UnrealLiveLink.Native/Private/LiveLinkBridge.cpp:441-455 | looking the same string up again returns the same name and leaves the cache unchanged |
| Registry.EmptyNamesShareOneKey | src/Native/UnrealLiveLink.Native/Private/UnrealLiveLink.API.cpp:176-177 | every empty subject name becomes the one "none" name without touching the cache |
| Registry.ForkliftScenario | src/Native/UnrealLiveLink.Native/Private/LiveLinkBridge.cpp:241-259 | with two registered properties, a two-value update is validated and a one-value update is a mismatch (2, 1) |
| BridgeTrace.Apply | src/Native/UnrealLiveLink.Native/Private/LiveLinkBridge.cpp:27-456 | every bridge operation keeps the invariant |
| BridgeTrace.RunPreservesValid | src/Native/UnrealLiveLink.Native/Private/LiveLinkBridge.cpp:110-116 | any sequence of calls keeps the invariant |
| BridgeTrace.ReachableStatesValid | src/Native/UnrealLiveLink.Native/Private/LiveLinkBridge.h:166-179 | from a new bridge, every reachable state keeps the invariant: uninitialized means no subjects and no provider, and the status is Ok or NotInitialized |
| Bridge.LiveLinkBridge.constructor | src/Native/UnrealLiveLink.Native/Private/LiveLinkBridge.h:166-179 | a new bridge object holds the fresh state |
| Bridge.LiveLinkBridge.IsInitialized | src/Native/UnrealLiveLink.Native/Private/LiveLinkBridge.h:75 | returns exactly the initialized flag; false implies both maps and the provider are empty |
| Bridge.LiveLinkBridge.Initialize | src/Native/UnrealLiveLink.Native/Private/LiveLinkBridge.cpp:27-54 | always returns true and moves the fields as Registry.Initialize |
| Bridge.LiveLinkBridge.Shutdown | src/Native/UnrealLiveLink.Native/Private/LiveLinkBridge.cpp:56-82 | moves the fields as Registry.Shutdown |
| Bridge.LiveLinkBridge.GetConnectionStatus | src/Native/UnrealLiveLink.Native/Private/LiveLinkBridge.cpp:84-100 | returns the connection status, which is Ok when initialized and NotInitialized otherwise |
| Bridge.LiveLinkBridge.RegisterTransformSubject | src/Native/UnrealLiveLink.Native/Private/LiveLinkBridge.cpp:106-134 | moves the fields as Registry.RegisterTransform |
| Bridge.LiveLinkBridge.RegisterTransformSubjectWithProperties | src/Native/UnrealLiveLink.Native/Private/LiveLinkBridge.cpp:136-176 | moves the fields as Registry.RegisterTransformWithProperties |
| Bridge.LiveLinkBridge.UpdateTransformSubject | src/Native/UnrealLiveLink.Native/Private/LiveLinkBridge.cpp:178-220 | moves the fields as Registry.UpdateTransform |
| Bridge.LiveLinkBridge.UpdateTransformSubjectWithProperties | src/Native/UnrealLiveLink.Native/Private/LiveLinkBridge.cpp:222-273 | changes nothing and takes the branch Registry.CheckUpdate gives on the transform map |
| Bridge.LiveLinkBridge.RemoveTransformSubject | src/Native/UnrealLiveLink.Native/Private/LiveLinkBridge.cpp:275-301 | moves the fields as Registry.RemoveTransform |
| Bridge.LiveLinkBridge.RegisterDataSubject | src/Native/UnrealLiveLink.Native/Private/LiveLinkBridge.cpp:307-347 | moves the fields as Registry.RegisterData |
| Bridge.LiveLinkBridge.UpdateDataSubject | src/Native/UnrealLiveLink.Native/Private/LiveLinkBridge.cpp:349-399 | changes nothing and takes the branch Registry.CheckUpdate gives on the data map |
| Bridge.LiveLinkBridge.RemoveDataSubject | src/Native/UnrealLiveLink.Native/Private/LiveLinkBridge.cpp:401-427 | moves the fields as Registry.RemoveData |
| Bridge.LiveLinkBridge.GetCachedName | src/Native/UnrealLiveLink.Native/Private/LiveLinkBridge.cpp:433-456 | returns the string's name ("none" for null or empty) and updates the cache as Registry.CachedName |
| LiveLinkApi.ConvertPropertyValues | src/Native/UnrealLiveLink.Native/Private/UnrealLiveLink.API.cpp:86-97 | returns exactly the first `propertyCount` values, in order |
| LiveLinkApi.ConvertPropertyNames | src/Native/UnrealLiveLink.Native/Private/UnrealLiveLink.API.cpp:63-81 | returns `propertyCount` names, entry i "none" for a null entry and the cached name otherwise, and leaves the cache as Registry.CacheAll |
| LiveLinkApi.Initialize | src/Native/UnrealLiveLink.Native/Private/UnrealLiveLink.API.cpp:105-130 | Error with no effect for a null or empty provider name; otherwise Ok and the bridge initialized as Registry.Initialize |
| LiveLinkApi.Shutdown | src/Native/UnrealLiveLink.Native/Private/UnrealLiveLink.API.cpp:132-139 | shuts the bridge down as Registry.Shutdown |
| LiveLinkApi.GetVersion | src/Native/UnrealLiveLink.Native/Private/UnrealLiveLink.API.cpp:141-148 | returns the API version, 1 |
| LiveLinkApi.IsConnected | src/Native/UnrealLiveLink.Native/Private/UnrealLiveLink.API.cpp:150-157 | returns the bridge's status unchanged, which is never NotConnected |
| LiveLinkApi.Interned | src/Native/UnrealLiveLink.Native/Private/UnrealLiveLink.API.cpp:176 | passing a subject name through the cache changes only the cache and keeps the invariant; a null or empty name changes nothing, any other adds exactly its text to the cache's keys |
| LiveLinkApi.RegisterObject | src/Native/UnrealLiveLink.Native/Private/UnrealLiveLink.API.cpp:163-178 | no effect for a null name; otherwise interns the name, then registers it |
| LiveLinkApi.RegisterObjectWithProperties | src/Native/UnrealLiveLink.Native/Private/UnrealLiveLink.API.cpp:180-219 | no effect for a null name, a negative count, or a positive count with null names; otherwise interns the subject name, then the property names in order, then registers first-wins |
| LiveLinkApi.UpdateObject | src/Native/UnrealLiveLink.Native/Private/UnrealLiveLink.API.cpp:221-243 | no effect for a null name or null transform; otherwise interns the name and auto-registers it |
| LiveLinkApi.UpdateObjectWithProperties | src/Native/UnrealLiveLink.Native/Private/UnrealLiveLink.API.cpp:245-281 | rejected with no effect exactly for a null name, a null transform, or a positive count with null values; otherwise only the cache changes and the bridge's check sees exactly the first `count` values |
| LiveLinkApi.RemoveObject | src/Native/UnrealLiveLink.Native/Private/UnrealLiveLink.API.cpp:283-298 | no effect for a null name; otherwise interns the name and removes it from the transform map |
| LiveLinkApi.RegisterDataSubject | src/Native/UnrealLiveLink.Native/Private/UnrealLiveLink.API.cpp:304-343 | same guards as the transform variant; otherwise interns and registers into the data map first-wins |
| LiveLinkApi.UpdateDataSubject | src/Native/UnrealLiveLink.Native/Private/UnrealLiveLink.API.cpp:345-380 | never changes either subject map (the names are ignored, so it cannot register); rejected exactly for a null name, a negative count, or a positive count with null values |
| LiveLinkApi.RemoveDataSubject | src/Native/UnrealLiveLink.Native/Private/UnrealLiveLink.API.cpp:382-398 | no effect for a null name; otherwise interns the name and removes it from the data map |
| MockSpec.Empty | src/Native/Mock/MockLiveLink.cpp:17-21 | the load-time globals are uninitialized and empty, and satisfy the mock's invariant |
| MockSpec.StoredNames | src/Native/Mock/MockLiveLink.cpp:207-213 | a null array or non-positive count stores nothing; otherwise `count` entries, a null one spelled "NULL" |
| MockSpec.Initialize | src/Native/Mock/MockLiveLink.cpp:122-144 | 1 with no effect for a null name or when already initialized; otherwise 0, the provider stored and all three collections cleared |
| MockSpec.Shutdown | src/Native/Mock/MockLiveLink.cpp:146-154 | always back to the empty load-time state |
| MockSpec.IsConnected | src/Native/Mock/MockLiveLink.cpp:161-170 | 0 iff initialized, 2 iff not |
| MockSpec.RegisterObject | src/Native/Mock/MockLiveLink.cpp:176-189 | no effect for a null name or while uninitialized; otherwise only the object set gains the name |
| MockSpec.RegisterObjectWithProperties | src/Native/Mock/MockLiveLink.cpp:191-221 | no effect for a null name, uninitialized, or a negative count; otherwise adds the object and overwrites its stored list |
| MockSpec.UpdateObject | src/Native/Mock/MockLiveLink.cpp:223-241 | no effect for a null name or while uninitialized; otherwise only adds the name to the object set |
| MockSpec.UpdateObjectWithProperties | src/Native/Mock/MockLiveLink.cpp:243-277 | no effect for a null name, uninitialized, a negative count, or a count differing from a stored list; otherwise only adds the name to the object set |
| MockSpec.RemoveObject | src/Native/Mock/MockLiveLink.cpp:279-294 | erases the name from the object set and the list map, keeping every other entry |
| MockSpec.RegisterDataSubject | src/Native/Mock/MockLiveLink.cpp:300-329 | no effect for a null name, uninitialized, or a negative count; otherwise overwrites the data list |
| MockSpec.UpdateDataSubject | src/Native/Mock/MockLiveLink.cpp:331-376 | a registered subject never changes; an unregistered one with names and a positive count is stored with those names; nothing is stored otherwise |
| MockSpec.RemoveDataSubject | src/Native/Mock/MockLiveLink.cpp:378-392 | erases exactly the name from the data map |
| MockSpec.InitializeNotIdempotent | src/Native/Mock/MockLiveLink.cpp:128-131 | after a successful Initialize a second one returns 1 and changes nothing |
| MockSpec.ShutdownIdempotent | src/Native/Mock/MockLiveLink.cpp:146-154 | Shutdown twice equals Shutdown once |
| MockSpec.ReRegistrationReplaces | src/Native/Mock/MockLiveLink.cpp:215-216 | registering a name twice equals registering it once with the second list, for both kinds |
| MockSpec.MismatchRejected | src/Native/Mock/MockLiveLink.cpp:259-267 | after registering a list, an update whose count differs from it changes nothing |
| MockSpec.UpdateDataAutoRegisters | src/Native/Mock/MockLiveLink.cpp:356-364 | an update of an unregistered data subject with names registers it with exactly those `count` names |
| MockSpec.UninitializedIgnoresSubjects | src/Native/Mock/MockLiveLink.cpp:182-185 | before Initialize every subject call changes nothing |
| Mock.CollectPropertyNames | src/Native/Mock/MockLiveLink.cpp:316-322 | the loop builds exactly the stored list of MockSpec.StoredNames |
| Mock.MockLiveLink.constructor | src/Native/Mock/MockLiveLink.cpp:17-21 | the new object holds the empty load-time state |
| Mock.MockLiveLink.Initialize | src/Native/Mock/MockLiveLink.cpp:122-144 | status and new fields as MockSpec.Initialize |
| Mock.MockLiveLink.Shutdown | src/Native/Mock/MockLiveLink.cpp:146-154 | fields as MockSpec.Shutdown, and the invariant holds afterwards from any state |
| Mock.MockLiveLink.GetVersion | src/Native/Mock/MockLiveLink.cpp:156-159 | returns 1 |
| Mock.MockLiveLink.IsConnected | src/Native/Mock/MockLiveLink.cpp:161-170 | returns MockSpec.IsConnected, always 0 or 2 |
| Mock.MockLiveLink.RegisterObject | src/Native/Mock/MockLiveLink.cpp:176-189 | fields as MockSpec.RegisterObject |
| Mock.MockLiveLink.RegisterObjectWithProperties | src/Native/Mock/MockLiveLink.cpp:191-221 | fields as MockSpec.RegisterObjectWithProperties |
| Mock.MockLiveLink.UpdateObject | src/Native/Mock/MockLiveLink.cpp:223-241 | fields as MockSpec.UpdateObject |
| Mock.MockLiveLink.UpdateObjectWithProperties | src/Native/Mock/MockLiveLink.cpp:243-277 | fields as MockSpec.UpdateObjectWithProperties |
| Mock.MockLiveLink.RemoveObject | src/Native/Mock/MockLiveLink.cpp:279-294 | fields as MockSpec.RemoveObject |
| Mock.MockLiveLink.RegisterDataSubject | src/Native/Mock/MockLiveLink.cpp:300-329 | fields as MockSpec.RegisterDataSubject |
| Mock.MockLiveLink.UpdateDataSubject | src/Native/Mock/MockLiveLink.cpp:331-376 | fields as MockSpec.UpdateDataSubject |
| Mock.MockLiveLink.RemoveDataSubject | src/Native/Mock/MockLiveLink.cpp:378-392 | fields as MockSpec.RemoveDataSubject |
| StubSpec.Fresh | src/Native/UnrealLiveLink.Native/Private/UnrealLiveLinkAPI.cpp:21-26 | at load time the flag is clear and every counter is 0 |
| StubSpec.Reached | src/Native/UnrealLiveLink.Native/Private/UnrealLiveLinkAPI.cpp:142-147 | a call past its argument checks ends in the stub body iff initialized, in the warning otherwise |
| StubSpec.LoggedCallsCount | src/Native/UnrealLiveLink.Native/Private/UnrealLiveLinkAPI.cpp:240-252 | of calls 1..n exactly ⌈n/60⌉ log |
| StubSpec.LogsExactlyOnFirstOfSixty | src/Native/UnrealLiveLink.Native/Private/UnrealLiveLinkAPI.cpp:243 | calls 60k+1 log, and a call that logs has a count of the form 60k+1 |
| StubSpec.OneLogPerSixty | src/Native/UnrealLiveLink.Native/Private/UnrealLiveLinkAPI.cpp:299-309 | any 60 consecutive calls hold exactly one logging call |
| StubSpec.Initialize | src/Native/UnrealLiveLink.Native/Private/UnrealLiveLinkAPI.cpp:34-74 | Error with no effect for a null or empty name; otherwise Ok, the flag set and only the Initialize counter advanced, whether or not already initialized |
| StubSpec.RepeatedInitializeSucceeds | src/Native/UnrealLiveLink.Native/Private/UnrealLiveLinkAPI.cpp:60-65 | a second valid Initialize also returns Ok and is counted, and the status is then NotConnected |
| StubSpec.Shutdown | src/Native/UnrealLiveLink.Native/Private/UnrealLiveLinkAPI.cpp:76-95 | always counted, the flag ends clear, nothing else changes |
| StubSpec.IsConnected | src/Native/UnrealLiveLink.Native/Private/UnrealLiveLinkAPI.cpp:106-122 | never Ok: NotInitialized iff uninitialized, NotConnected iff initialized |
| StubSpec.RegisterObject | src/Native/UnrealLiveLink.Native/Private/UnrealLiveLinkAPI.cpp:128-152 | rejected iff the name is null, the stub body iff non-null and initialized |
| StubSpec.RegisterObjectWithProperties | src/Native/UnrealLiveLink.Native/Private/UnrealLiveLinkAPI.cpp:154-218 | rejected iff null name, negative count, or positive count with null names; the stub body iff accepted and initialized |
| StubSpec.RemoveObject | src/Native/UnrealLiveLink.Native/Private/UnrealLiveLinkAPI.cpp:324-348 | rejected iff the name is null, the stub body iff non-null and initialized |
| StubSpec.RegisterDataSubject | src/Native/UnrealLiveLink.Native/Private/UnrealLiveLinkAPI.cpp:354-412 | rejected iff null name, negative count, or positive count with null names; the stub body iff accepted and initialized |
| StubSpec.RemoveDataSubject | src/Native/UnrealLiveLink.Native/Private/UnrealLiveLinkAPI.cpp:472-497 | rejected iff the name is null, the stub body iff non-null and initialized |
| StubSpec.Bump | src/Native/UnrealLiveLink.Native/Private/UnrealLiveLinkAPI.cpp:240-241 | one counted call advances its own counter by one and no other counter or the flag |
| StubSpec.Counted | src/Native/UnrealLiveLink.Native/Private/UnrealLiveLinkAPI.cpp:447-467 | a call past its checks is counted, logs iff its new count is 1 modulo 60, and ends in the stub body iff initialized |
| StubSpec.CountedLines | src/Native/UnrealLiveLink.Native/Private/UnrealLiveLinkAPI.cpp:240-262 | a counted call writes no line off a logging count, one line on it when initialized, and two (Log and Warning) on it when not |
| StubSpec.UpdateObject | src/Native/UnrealLiveLink.Native/Private/UnrealLiveLinkAPI.cpp:220-265 | a null name or transform is rejected before the counter moves; otherwise the call is counted on its own counter |
| StubSpec.UpdateObjectWithProperties | src/Native/UnrealLiveLink.Native/Private/UnrealLiveLinkAPI.cpp:267-322 | also rejects a positive count with null values, but not a negative count; otherwise counted |
| StubSpec.UpdateDataSubject | src/Native/UnrealLiveLink.Native/Private/UnrealLiveLinkAPI.cpp:414-470 | rejects a null name, a positive count with null values and a negative count before counting; the names are never read |
| StubTrace.Step | src/Native/UnrealLiveLink.Native/Private/UnrealLiveLinkAPI.cpp:128-497 | no subject call changes the flag |
| StubTrace.StepCounts | src/Native/UnrealLiveLink.Native/Private/UnrealLiveLinkAPI.cpp:240-262 | one call moves a counter by at most one, only its own update call moves it, it logs for that counter iff it moved onto a count that is 1 modulo 60, and a logging call writes two lines iff the flag is clear |
| StubTrace.ThrottledLoggingCalls | src/Native/UnrealLiveLink.Native/Private/UnrealLiveLinkAPI.cpp:447-457 | over any call sequence, the calls that log for a counter are exactly the logging counts it passes through |
| StubTrace.FreshLoggingCalls | src/Native/UnrealLiveLink.Native/Private/UnrealLiveLinkAPI.cpp:299-309 | from a fresh stub, ⌈n/60⌉ of the n counted calls on a counter log |
| StubTrace.LinesPerLoggingCall | src/Native/UnrealLiveLink.Native/Private/UnrealLiveLinkAPI.cpp:447-468 | while the flag does not move, the lines written for a counter are the logging calls when initialized and twice them when not |
| StubTrace.FreshUninitializedLines | src/Native/UnrealLiveLink.Native/Private/UnrealLiveLinkAPI.cpp:240-262 | a fresh stub receiving only subject calls writes 2·⌈n/60⌉ lines for n counted calls on a counter |
| StubTrace.SubjectCallsKeepFlag | src/Native/UnrealLiveLink.Native/Private/UnrealLiveLinkAPI.cpp:128-497 | a sequence of subject calls leaves the initialized flag as it was |
| Stub.StubLiveLink.constructor | src/Native/UnrealLiveLink.Native/Private/UnrealLiveLinkAPI.cpp:21-26 | the new object holds the load-time state |
| Stub.StubLiveLink.Initialize | src/Native/UnrealLiveLink.Native/Private/UnrealLiveLinkAPI.cpp:34-74 | status and fields as StubSpec.Initialize |
| Stub.StubLiveLink.Shutdown | src/Native/UnrealLiveLink.Native/Private/UnrealLiveLinkAPI.cpp:76-95 | fields as StubSpec.Shutdown |
| Stub.StubLiveLink.GetVersion | src/Native/UnrealLiveLink.Native/Private/UnrealLiveLinkAPI.cpp:97-104 | returns the API version |
| Stub.StubLiveLink.IsConnected | src/Native/UnrealLiveLink.Native/Private/UnrealLiveLinkAPI.cpp:106-122 | returns StubSpec.IsConnected, never Ok |
| Stub.StubLiveLink.RegisterObject | src/Native/UnrealLiveLink.Native/Private/UnrealLiveLinkAPI.cpp:128-152 | changes nothing and ends in the branch of StubSpec.RegisterObject |
| Stub.StubLiveLink.RegisterObjectWithProperties | src/Native/UnrealLiveLink.Native/Private/UnrealLiveLinkAPI.cpp:154-218 | changes nothing and ends in the branch of StubSpec.RegisterObjectWithProperties |
| Stub.StubLiveLink.UpdateObject | src/Native/UnrealLiveLink.Native/Private/UnrealLiveLinkAPI.cpp:220-265 | fields, branch and log decision as StubSpec.UpdateObject |
| Stub.StubLiveLink.UpdateObjectWithProperties | src/Native/UnrealLiveLink.Native/Private/UnrealLiveLinkAPI.cpp:267-322 | fields, branch and log decision as StubSpec.UpdateObjectWithProperties |
| Stub.StubLiveLink.RemoveObject | src/Native/UnrealLiveLink.Native/Private/UnrealLiveLinkAPI.cpp:324-348 | changes nothing and ends in the branch of StubSpec.RemoveObject |
| Stub.StubLiveLink.RegisterDataSubject | src/Native/UnrealLiveLink.Native/Private/UnrealLiveLinkAPI.cpp:354-412 | changes nothing and ends in the branch of StubSpec.RegisterDataSubject |
| Stub.StubLiveLink.UpdateDataSubject | src/Native/UnrealLiveLink.Native/Private/UnrealLiveLinkAPI.cpp:414-470 | fields, branch and log decision as StubSpec.UpdateDataSubject |
| Stub.StubLiveLink.RemoveDataSubject | src/Native/UnrealLiveLink.Native/Private/UnrealLiveLinkAPI.cpp:472-497 | changes nothing and ends in the branch of StubSpec.RemoveDataSubject |

## Left out

- Logging is not modelled. That covers `UE_LOG`, the mock's log file and console output, and the text-formatting helpers. Branches that differ only in their log output are named by the returned `UpdateCheck` or `Disposition`.
- The locks that make each bridge method atomic are left out; every method is one sequential step.
- The LiveLink transport is not modelled. Every push to it in the bridge is still a comment in the code, so the model keeps only the bookkeeping.
- The conversion of a transform to Unreal's `FTransform` is left out. A transform is an opaque record of three arrays of reals.
- Floating point is not modelled. Doubles and floats are reals, so NaN and negative zero are outside the model. In C, `VerifyIdentityTransform` also accepts a -0.0 component.
- Names are not modelled as `FName`, which is case-insensitive and reserves the spelling "None". A name here is an injective function of its string, and the empty string gives the "none" name.
- The name cache's `FString` keys compare case-insensitively in Unreal's `TMap`, so "Forklift" and "forklift" share one cache entry in C; in the model they are two keys.
- Alignment is not modelled: `SizeOf` and `OffsetOf` add field sizes with no padding. That equals the C layout under `#pragma pack(push, 8)` only because every field of the transform is an 8-byte double.
- The process-wide bridge singleton is passed to each export as an explicit object, and the mock's and stub's globals are fields of one object.
- The header comment of the bridge's Initialize says it returns false when already initialized, but the code returns true; the model follows the code.
- LiveLinkApi.UpdateObjectWithProperties requires a non-negative count: the export has no negative-count guard, and what Unreal's array reserve does with a negative size is not part of this model.
- Every member taking a C array requires that a non-null array holds at least `count` entries. A shorter array is undefined behaviour in C, not a handled error.
- StubSpec.Fresh: the call counters are unbounded naturals, so a 32-bit counter wrapping after 2^31 − 1 calls is not modelled.
- `TypesValidation::ValidateTypes` only prints, and is left out. The `static_assert`s of the header and the validation file are stated as the lemmas above.
- UnrealLiveLink.Native.Main.cpp, UnrealLiveLink.Native.cpp, UnrealLiveLink.Native.h and tests/LogTest.cpp hold no registry logic and are not part of this model.
