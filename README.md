# jjbridge-engine-v8: the host-side bookkeeping around the V8 boundary

This project models the part of jjbridge-engine-v8 that sits on the
engine's side of the native boundary. That part is the host-language
bookkeeping that keeps JavaScript values reachable and then lets them go.
It has four pieces:
- The handle caches, which map a native handle number to a host object.
- The reference monitor, which runs a clean-up action for every tracked
  `Reference` the collector reports. Here the collector is an explicit
  schedule of polls.
- `Reference` with its two capabilities: the type getter, which asks the
  engine for a value's current type, and the equality checker, which asks
  the engine whether two handles are equal.
- The runtime and the accessor factory, which turn a type tag into a
  typed wrapper and each accessor into exactly one native call.

On the native side the model covers the result-type classification of
`Environment::getResultType`. It also covers the callback data that
`ExternalData` and `FunctionCallbackData` keep under a handle's key in the
caches: which JNI calls they make, in which order, and where the current
code stops once a Java exception is pending.

The repository holds two generations of the same library, and every
component takes a `Generation` parameter:
- `Current`: the `jjbridge.engine.*` packages and `src/main/cpp`.
- `Legacy`: the `jjbridge.v8.*` and `jjbridge.utils.*` packages and
  `core/src/main/cpp`.

Where the two differ, the contracts state the difference. Examples: the
integer accessors are long-based or int-based; the monitor thread is
made a daemon, or inherits the daemon status of the thread creating it; a callback clear either checks `ExceptionCheck` between
JNI calls or does not.

The engine is a parameter. The class `Boundary.Natives` records every
native call in `calls`. An `Oracle` of pure functions of (history, call)
gives each answer. So each host-side operation's contract says exactly
which native calls it makes and how it uses the answers.

The modules follow the source:
- `HandleCache`: `Cache.java`.
- `Monitor`: `ReferenceMonitor.java` and `NativeReference.java`.
- `References`: `Reference.java` and the capability interfaces.
- `Accessors`: `AccessorsFactory.java`.
- `Runtimes`: `Runtime.java`.
- `V8Bridge`: `V8.java`.
- `Engine`: `V8Engine.java`.
- `Environment`: `Environment.cpp`.
- `Jni`: the cache helpers of `Runtime.h`.
- `CallbackData`: `Handle.h`, `ExternalData.h`, `FunctionCallbackData.h` and the callback parts of `V8-wrapper.cpp`.
- `NativeEquality`: the legacy `equalsValue`.

## Model

| member | source | states |
|---|---|---|
| JavaTypes.Unsigned | src/main/java/jjbridge/engine/v8/runtime/Reference.java:51 | a long read as an unsigned 64-bit word, as `>>>` sees it: below 2^64 and congruent to the long modulo 2^64 |
| JavaTypes.WordHalves | src/main/java/jjbridge/engine/v8/runtime/Reference.java:51 | the 64-bit word of a long, shifted right unsigned by 32, is its high half, and cut to 32 bits it is its low half, so `>>>` and `(int)` act on two's complement |
| JavaTypes.FoldLongIsJavaFold | src/main/java/jjbridge/engine/v8/runtime/Reference.java:51 | folding a long as low half XOR high half gives exactly Java's `(int)(h ^ (h >>> 32))` on the 64-bit word |
| JavaTypes.Times31IsMultiplication | src/main/java/jjbridge/engine/v8/runtime/Reference.java:51 | the shift-and-subtract form used in the hash is Java's wrapping `int` multiplication by 31 |
| JavaTypes.FoldOfSmallLong | src/main/java/jjbridge/engine/v8/runtime/Reference.java:51 | a handle that is a non-negative int folds, under `(int)(h ^ (h >>> 32))`, to itself |
| JavaTypes.FoldCollides | src/main/java/jjbridge/engine/v8/runtime/Reference.java:51 | the fold is not injective: handles -1 and 0 fold to the same int 0 |
| HandleCache.Cache.constructor | src/main/java/jjbridge/engine/utils/Cache.java:14-17 | a new cache holds no entries |
| HandleCache.Cache.Store | src/main/java/jjbridge/engine/utils/Cache.java:25-28 | the entry under the handle becomes the value, null included; every other entry is kept |
| HandleCache.Cache.Get | src/main/java/jjbridge/engine/utils/Cache.java:36-39 | the answer is the stored object, or null when nothing is stored under the handle |
| HandleCache.Cache.Delete | src/main/java/jjbridge/engine/utils/Cache.java:46-49 | exactly the handle's entry is removed |
| HandleCache.Cache.Clear | src/main/java/jjbridge/engine/utils/Cache.java:54-57 | afterwards the cache holds no entries |
| HandleCache.StoreThenLookup | src/main/java/jjbridge/engine/utils/Cache.java:25-39 | a lookup right after a store gives the stored value |
| HandleCache.StoreKeepsOthers | src/main/java/jjbridge/engine/utils/Cache.java:25-39 | a store under one handle leaves the lookup of every other handle unchanged |
| HandleCache.StoreReplaces | src/main/java/jjbridge/engine/utils/Cache.java:25-28 | two stores under one handle leave the same cache as the second store alone |
| HandleCache.DeleteThenLookup | src/main/java/jjbridge/engine/utils/Cache.java:36-49 | after a delete the handle reads as absent, and every other handle reads as before |
| HandleCache.DeleteAbsentIsNoOp | src/main/java/jjbridge/engine/utils/Cache.java:46-49 | deleting a handle with no entry changes nothing |
| HandleCache.StoreNullReadsAsAbsent | src/main/java/jjbridge/engine/utils/Cache.java:25-39 | storing null and deleting cannot be told apart by any lookup |
| HandleCache.ApplySnoc | src/main/java/jjbridge/engine/utils/Cache.java:25-57 | applying a sequence of cache operations and then one more is the same as applying them one after another |
| HandleCache.LookupAfterCalls | src/main/java/jjbridge/engine/utils/Cache.java:25-57 | after any sequence of stores, deletes and clears, a handle's lookup depends only on the last operation that touched it: the value stored, absent after a delete or clear, the original entry if nothing touched it |
| Boundary.Natives.constructor | src/main/java/jjbridge/engine/v8/V8.java:55-148 | a fresh boundary has answered no calls and answers from the given oracle |
| Boundary.Natives.Invoke | src/main/java/jjbridge/engine/v8/V8.java:55-148 | a void native call is recorded once and nothing else happens |
| Boundary.Natives.AskFlag | src/main/java/jjbridge/engine/v8/V8.java:57 | a boolean native call is recorded once; its answer is the oracle's flag for that call after that history |
| Boundary.Natives.AskLong | src/main/java/jjbridge/engine/v8/V8.java:61 | a long-returning native call is recorded once; its answer is the oracle's long for it |
| Boundary.Natives.AskInt | src/main/java/jjbridge/engine/v8/V8.java:135 | an int-returning native call is recorded once; its answer is the oracle's int for it |
| Boundary.Natives.AskDouble | src/main/java/jjbridge/engine/v8/V8.java:93 | a double-returning native call is recorded once; its answer is the oracle's double for it |
| Boundary.Natives.AskText | src/main/java/jjbridge/engine/v8/V8.java:99 | a string-returning native call is recorded once; its answer is the oracle's text for it |
| Boundary.Natives.AskExternal | src/main/java/jjbridge/engine/v8/V8.java:105 | an object-returning native call is recorded once; its answer is the oracle's object for it |
| Boundary.Natives.AskType | src/main/java/jjbridge/engine/v8/V8.java:66 | `getReferenceType` is recorded once; its answer is `getResultType` applied to the traits the engine reports for the value |
| Boundary.Natives.AskHandle | src/main/cpp/V8/Runtime.h:56-68 | a value-returning native call is recorded once; its answer is the handle the engine allocated and the `getResultType` tag of the value |
| Environment.FirstTrue | src/main/cpp/V8/Environment.cpp:90-109 | the index of the first test that holds, or the length when none does: every earlier test fails, and the test at the index holds |
| Environment.FirstTrueFrom | src/main/cpp/V8/Environment.cpp:90-109 | searching from a position before which all tests fail finds the first test that holds at or after that position |
| Environment.GetResultType | src/main/cpp/V8/Environment.cpp:90-109 | a value gets no tag (`nullptr`) exactly when none of the eight top-level `Is…` tests holds; every tag it gives is a supported one, and Array, Date, Function and Object are given only to values that test as objects |
| Environment.GetResultTypeIsFirstMatch | src/main/cpp/V8/Environment.cpp:90-109 | the tag `getResultType` returns is the one of the first `Is…` test in source order that holds, and it returns null exactly when none holds |
| Environment.Int32NumberIsInteger | src/main/cpp/V8/Environment.cpp:95 | an Int32 number that is not undefined, null or boolean is tagged Integer |
| Environment.NonInt32NumberIsFloat | src/main/cpp/V8/Environment.cpp:96 | a number that is not Int32, and not undefined, null or boolean, is tagged Float. Line 96 returns a field named `jsTypeDouble`, but Environment.h:48 declares only `jsTypeFloat`; the model reads line 96 as returning the header's `jsTypeFloat` |
| Environment.ObjectTagsNeedObject | src/main/cpp/V8/Environment.cpp:99-106 | the Array, Date, Function and Object tags are given only to JS objects |
| Environment.FirstTrueIsFirst | src/main/cpp/V8/Environment.cpp:90-109 | if a test holds and all earlier ones fail, the search finds exactly that test |
| Environment.FirstTrueOfNone | src/main/cpp/V8/Environment.cpp:108 | when no test holds, the search runs off the end, and that end is the null result |
| References.TypeGetter.constructor | src/main/java/jjbridge/engine/v8/runtime/AccessorsFactory.java:32-45 | the type getter is bound to one runtime handle and one boundary |
| References.TypeGetter.GetType | src/main/java/jjbridge/engine/v8/runtime/AccessorsFactory.java:32-45 | `getType(handle)` makes exactly one `getReferenceType(runtime, handle)` call; its answer is that call's classification |
| References.EqualityChecker.constructor | src/main/java/jjbridge/engine/v8/runtime/AccessorsFactory.java:47-60 | the equality checker is bound to one runtime handle and one boundary |
| References.EqualityChecker.CheckAreEqual | src/main/java/jjbridge/engine/v8/runtime/AccessorsFactory.java:47-60 | `checkAreEqual(a, b)` makes exactly one `equalsValue(runtime, a, b)` call and returns its answer |
| References.Reference.GetActualType | src/main/java/jjbridge/engine/v8/runtime/Reference.java:31-35 | the actual type is read afresh from the engine through the reference's own type getter, on its own handle |
| References.Reference.Equals | src/main/java/jjbridge/engine/v8/runtime/Reference.java:37-46 | anything that is not a Reference is unequal, with no native call; for a Reference, one call of this reference's checker on the two handles decides |
| References.ReferenceHash | src/main/java/jjbridge/engine/v8/runtime/Reference.java:48-52 | a reference without a nominal tag throws NullPointerException, and only such a reference does; otherwise the hash is Java's `((int)(handle ^ (handle >>> 32)) * 31) ^ tagHash`, taken on the handle's 64-bit word with wrapping int arithmetic |
| References.Reference.HashCode | src/main/java/jjbridge/engine/v8/runtime/Reference.java:48-52 | `hashCode()` throws NullPointerException exactly for a reference without a nominal tag, and is otherwise `((int)(handle ^ (handle >>> 32)) * 31) ^ tagHash` on the handle's 64-bit word |
| References.HashIgnoresCapabilities | src/main/java/jjbridge/engine/v8/runtime/Reference.java:48-52 | references with the same handle and nominal tag hash alike, whatever their capabilities |
| References.SameHandleDifferentTagsHashApart | src/main/java/jjbridge/engine/v8/runtime/Reference.java:48-52 | two references on one handle whose tags hash differently get different hashes, even when `equals` calls them equal |
| Monitor.IdCounter.constructor | src/main/java/jjbridge/engine/utils/ReferenceMonitor.java:33 | the static id counter starts at 0 |
| Monitor.IdCounter.GetAndIncrement | src/main/java/jjbridge/engine/utils/ReferenceMonitor.java:65-68 | each id handed out is the counter's old value, and the counter moves on by one, so no id repeats |
| Monitor.FirstInterrupt | src/main/java/jjbridge/engine/utils/ReferenceMonitor.java:95-109 | the position of the first interrupt request in a schedule, or its length: everything before it is a poll |
| Monitor.FirstInterruptFrom | src/main/java/jjbridge/engine/utils/ReferenceMonitor.java:95-109 | searching from a position before which everything is a poll finds the first interrupt request at or after it |
| Monitor.ReferenceMonitor.constructor | src/main/java/jjbridge/engine/utils/ReferenceMonitor.java:55-63 | a new monitor is not started, not interrupted, tracks nothing and has run no action; its thread is a daemon in the current generation, which sets it, and in the legacy one (src/main/java/jjbridge/utils/ReferenceMonitor.java:18-24 sets none) exactly when the creating thread is, as a new `Thread` inherits it |
| Monitor.ReferenceMonitor.Default | src/main/java/jjbridge/engine/utils/ReferenceMonitor.java:44-47 | the default monitor pauses 50 ms and is otherwise a new monitor |
| Monitor.ReferenceMonitor.Start | src/main/java/jjbridge/engine/utils/ReferenceMonitor.java:55-63 | starting moves a created monitor to running and changes nothing else |
| Monitor.TrackBeside | src/main/java/jjbridge/engine/utils/ReferenceMonitor.java:33 | two monitors sharing the one static counter keep disjoint live ids: tracking on one files the entry under an id the other does not hold |
| Monitor.ReferenceMonitor.Track | src/main/java/jjbridge/engine/utils/ReferenceMonitor.java:79-83 | the referent is filed, with its action, under a fresh id not yet in the live map; every other entry is kept |
| Monitor.ReferenceMonitor.Clean | src/main/java/jjbridge/engine/utils/ReferenceMonitor.java:85-89 | the entry's action is run once and its id is removed from the live map |
| Monitor.ReferenceMonitor.PollStep | src/main/java/jjbridge/engine/utils/ReferenceMonitor.java:95-109 | a poll that dequeues an entry cleans it; a timed-out or interrupted poll changes nothing |
| Monitor.ReferenceMonitor.Interrupt | src/main/java/jjbridge/engine/utils/ReferenceMonitor.java:114-118 | interrupting sets the interrupted flag and nothing else |
| Monitor.ReferenceMonitor.Exit | src/main/java/jjbridge/engine/utils/ReferenceMonitor.java:111 | when the loop ends the live map is emptied, and no further action runs |
| Monitor.ReferenceMonitor.Run | src/main/java/jjbridge/engine/utils/ReferenceMonitor.java:93-112 | the actions run are those of the entries dequeued before the first interrupt request, in order; after an interrupt the monitor is stopped and tracks nothing; without one, exactly the dequeued ids are gone |
| Monitor.CleanedActionsAppend | src/main/java/jjbridge/engine/utils/ReferenceMonitor.java:95-109 | the actions run over two schedules back to back are those of the first followed by those of the second |
| Monitor.RemovedIdsAreDequeued | src/main/java/jjbridge/engine/utils/ReferenceMonitor.java:85-109 | an id leaves the live map if and only if some poll dequeued the entry filed under it |
| Monitor.CleanedActionsAreDequeued | src/main/java/jjbridge/engine/utils/ReferenceMonitor.java:85-109 | every action that runs belongs to an entry some poll dequeued |
| Monitor.ReportedTwiceCleanedTwice | src/main/java/jjbridge/engine/utils/ReferenceMonitor.java:85-89 | nothing guards against a second report: an entry dequeued twice has its action run twice |
| V8Bridge.V8.constructor | src/main/java/jjbridge/engine/v8/V8.java:24-37 | an instance is a handle on the loaded natives |
| V8Bridge.V8Static.constructor | src/main/java/jjbridge/engine/v8/V8.java:24-37 | before the first `getInstance` no instance is cached |
| V8Bridge.V8Static.GetInstance | src/main/java/jjbridge/engine/v8/V8.java:24-37 | a cached instance is returned with no native call; otherwise the current code makes one `initializeV8` call with the located `icudtl.dat` path and throws `RuntimeException("Cannot initialize V8 with " + path)` if it fails; the legacy code (src/main/java/jjbridge/v8/V8.java:14-16) just creates the instance; a new instance is cached |
| V8Bridge.ReleaseCall | src/main/java/jjbridge/engine/v8/V8.java:44-53 | a release action makes one `releaseReference` call on exactly the runtime and handle it captured |
| V8Bridge.ReleaseCalls | src/main/java/jjbridge/engine/v8/V8.java:44-53 | the releases that run are, in order and one for one, the calls of the actions run |
| V8Bridge.Track | src/main/java/jjbridge/engine/v8/V8.java:44-53 | the reference is tracked once, with an action that releases its handle in that runtime and holds only the two longs |
| V8Bridge.NewReference | src/main/cpp/V8/Runtime.h:56-68 | one native call; the new Reference carries the engine's handle, the tag `getResultType` gives the value, and the capabilities passed in; it is tracked exactly once |
| V8Bridge.NewValue | src/main/cpp/V8-wrapper.cpp:116-121 | `newValue` makes one call; the result carries the handle the native call returns, the requested tag as nominal type and the given capabilities, and is tracked exactly once |
| Accessors.Handles | src/main/java/jjbridge/engine/v8/runtime/AccessorsFactory.java:287-295 | the handles of a sequence of references, position by position |
| Accessors.ReferenceToHandle | src/main/java/jjbridge/engine/v8/runtime/AccessorsFactory.java:287-295 | `referenceToHandle` fills a new array of the same length with each argument's handle at the same position |
| Accessors.AccessorsFactory.constructor | src/main/java/jjbridge/engine/v8/runtime/AccessorsFactory.java:26-30 | a factory is bound to one V8, one runtime handle and one date format, and has built no capability yet |
| Accessors.AccessorsFactory.ReferenceTypeGetter | src/main/java/jjbridge/engine/v8/runtime/AccessorsFactory.java:32-45 | the type getter is built once, on first use, then the same object is returned every time; it is bound to this runtime |
| Accessors.AccessorsFactory.EqualityChecker | src/main/java/jjbridge/engine/v8/runtime/AccessorsFactory.java:47-60 | the equality checker is built once, on first use, then the same object is returned every time; it is bound to this runtime |
| Accessors.AccessorsFactory.GetBoolean | src/main/java/jjbridge/engine/v8/runtime/AccessorsFactory.java:62-71 | a boolean get is one `getBooleanValue` call on the handle, and returns its answer |
| Accessors.AccessorsFactory.SetBoolean | src/main/java/jjbridge/engine/v8/runtime/AccessorsFactory.java:73-82 | a boolean set is one `setBooleanValue` call carrying the handle and the value |
| Accessors.AccessorsFactory.GetLong | src/main/java/jjbridge/engine/v8/runtime/AccessorsFactory.java:84-93 | a long get is one `getLongValue` call on the handle, and returns its answer |
| Accessors.AccessorsFactory.SetLong | src/main/java/jjbridge/engine/v8/runtime/AccessorsFactory.java:95-104 | a long set is one `setLongValue` call carrying the handle and the value |
| Accessors.AccessorsFactory.GetInteger | src/main/java/jjbridge/v8/runtime/AccessorsFactory.java:44-50 | the legacy integer get is one `getIntegerValue` call, and returns its int answer |
| Accessors.AccessorsFactory.SetInteger | src/main/java/jjbridge/v8/runtime/AccessorsFactory.java:44-50 | the legacy integer set is one `setIntegerValue` call carrying the handle and the int |
| Accessors.AccessorsFactory.GetDouble | src/main/java/jjbridge/engine/v8/runtime/AccessorsFactory.java:106-115 | a double get is one `getDoubleValue` call on the handle, and returns its answer |
| Accessors.AccessorsFactory.SetDouble | src/main/java/jjbridge/engine/v8/runtime/AccessorsFactory.java:117-126 | a double set is one `setDoubleValue` call carrying the handle and the value |
| Accessors.AccessorsFactory.GetString | src/main/java/jjbridge/engine/v8/runtime/AccessorsFactory.java:128-137 | a string get is one `getStringValue` call on the handle, and returns its answer |
| Accessors.AccessorsFactory.SetString | src/main/java/jjbridge/engine/v8/runtime/AccessorsFactory.java:139-148 | a string set is one `setStringValue` call carrying the handle and the text |
| Accessors.AccessorsFactory.GetExternal | src/main/java/jjbridge/engine/v8/runtime/AccessorsFactory.java:150-160 | an external get is one `getExternalValue` call on the handle, and returns its object |
| Accessors.AccessorsFactory.SetExternal | src/main/java/jjbridge/engine/v8/runtime/AccessorsFactory.java:162-171 | an external set is one `setExternalValue` call carrying the handle and the object |
| Accessors.AccessorsFactory.GetDate | src/main/java/jjbridge/engine/v8/runtime/AccessorsFactory.java:179-201 | a date get is one `getDateTimeString` call; text that parses gives its date, and text that does not throws `IllegalArgumentException("Wrong date-time format.")` |
| Accessors.AccessorsFactory.SetDate | src/main/java/jjbridge/engine/v8/runtime/AccessorsFactory.java:203-218 | a date set is one `setDateTime` call carrying the date formatted with the ISO-8601 pattern |
| Accessors.AccessorsFactory.GetProperty | src/main/java/jjbridge/engine/v8/runtime/AccessorsFactory.java:220-232 | a property get is one `getObjectProperty` call carrying the memoised capabilities; the Reference it yields is tracked once; the monitor keeps its phase, its interrupted flag and its performed actions, and its id counter moves on by exactly one |
| Accessors.AccessorsFactory.SetProperty | src/main/java/jjbridge/engine/v8/runtime/AccessorsFactory.java:234-243 | a property set is one `setObjectProperty` call carrying the name and the value's handle |
| Accessors.AccessorsFactory.GetSize | src/main/java/jjbridge/engine/v8/runtime/AccessorsFactory.java:249-256 | an array's size is one `getArraySize` call, and returns its answer |
| Accessors.AccessorsFactory.GetItemByPosition | src/main/java/jjbridge/engine/v8/runtime/AccessorsFactory.java:258-268 | an element get is one `getElementByPosition` call carrying the memoised capabilities; the Reference it yields is tracked once; the monitor keeps its phase, its interrupted flag and its performed actions, and its id counter moves on by exactly one |
| Accessors.AccessorsFactory.SetItemByPosition | src/main/java/jjbridge/engine/v8/runtime/AccessorsFactory.java:272-281 | an element set is one `setElementByPosition` call carrying the position and the value's handle |
| Accessors.AccessorsFactory.InvokeFunction | src/main/java/jjbridge/engine/v8/runtime/AccessorsFactory.java:297-308 | an invocation is one `invokeFunction` call carrying the receiver's handle and the arguments' handles in order; the result Reference is tracked once; the monitor keeps its phase, its interrupted flag and its performed actions, and its id counter moves on by exactly one |
| Accessors.AccessorsFactory.InvokeConstructor | src/main/java/jjbridge/engine/v8/runtime/AccessorsFactory.java:310-321 | a construction is one `invokeConstructor` call carrying the arguments' handles in order; the result Reference is tracked once; the monitor keeps its phase, its interrupted flag and its performed actions, and its id counter moves on by exactly one |
| Accessors.AccessorsFactory.SetFunction | src/main/java/jjbridge/engine/v8/runtime/AccessorsFactory.java:325-336 | a function set is one `setFunctionHandler` call carrying the callback and the memoised capabilities |
| Runtimes.Resolve | src/main/java/jjbridge/engine/v8/runtime/Runtime.java:59-105 | a missing tag throws NullPointerException; an unsupported tag throws UnsupportedOperationException; a supported tag gives a wrapper of that tag whose accessors all act on the given handle |
| Runtimes.ResolveFitsAccessorKinds | src/main/java/jjbridge/engine/v8/runtime/Runtime.java:59-105 | a supported tag's wrapper reads and writes that tag's own value kind (`Long` in the current generation, `Integer` in the legacy one), reads and writes properties through its property pair, array data through its array pair, and a function's invoker invokes while its function setter writes |
| Runtimes.InitCallFor | src/main/java/jjbridge/engine/v8/runtime/Runtime.java:107-152 | exactly the supported tags have an initialising native call, on the runtime and handle given, and it initialises a value of that tag; Integer uses `initLongValue` in the current code and `initIntegerValue` in the legacy code |
| Runtimes.ResolveAgreesWithCreate | src/main/java/jjbridge/engine/v8/runtime/Runtime.java:59-152 | a tag can be resolved if and only if a value of it can be created |
| Runtimes.PropertiesExactlyForComposites | src/main/java/jjbridge/engine/v8/runtime/Runtime.java:59-105 | the wrappers with property accessors are exactly those of Object, Date, Array and Function |
| Runtimes.IntegerAccessorsByGeneration | src/main/java/jjbridge/engine/v8/runtime/Runtime.java:72-74 | the current Integer wrapper reads and writes through the long accessors, the legacy one (src/main/java/jjbridge/v8/runtime/Runtime.java:46-48) through the int accessors; every other tag resolves the same in both generations |
| Runtimes.Runtime.constructor | src/main/java/jjbridge/engine/v8/runtime/Runtime.java:35-44 | a new runtime has a fresh accessor factory and starts its monitor, which keeps its entries |
| Runtimes.Runtime.GetGlobalObject | src/main/java/jjbridge/engine/v8/runtime/Runtime.java:51-57 | one `globalObjectReference` call with the memoised capabilities; the Reference is tracked once; the monitor keeps its phase, its interrupted flag and its performed actions, and its id counter moves on by exactly one |
| Runtimes.Runtime.CreateNewReference | src/main/java/jjbridge/engine/v8/runtime/Runtime.java:107-152 | one `newValue` call with the requested tag and the memoised capabilities, tracked once, then the tag's one initialising call; a tag without one throws `UnsupportedOperationException("Cannot create reference of type " + name)` after the handle is already allocated and tracked; the monitor keeps its phase, its interrupted flag and its performed actions, and its id counter moves on by exactly one |
| Runtimes.Runtime.RunScript | src/main/java/jjbridge/engine/v8/runtime/Runtime.java:154-159 | one `executeScript` call carrying the name, the source and the memoised capabilities; the result is tracked once; the monitor keeps its phase, its interrupted flag and its performed actions, and its id counter moves on by exactly one |
| Runtimes.Runtime.Close | src/main/java/jjbridge/engine/v8/runtime/Runtime.java:161-183 | a closed runtime is left alone; otherwise the monitor is interrupted, the current code joins it (the poll in flight finishes, the loop exits and the entries left are dropped unrun) unless the join itself is interrupted, the legacy code (src/main/java/jjbridge/v8/runtime/Runtime.java:132-139) does not join; then one `releaseRuntime` call, and the runtime is closed only if it answers true |
| Runtimes.Runtime.Equals | src/main/java/jjbridge/engine/v8/runtime/Runtime.java:185-193 | only a `Runtime` of the same generation can be equal to a runtime, and a runtime equals itself. The two generations are distinct Java classes, so `instanceof` fails across them; the legacy `equals` (src/main/java/jjbridge/v8/runtime/Runtime.java:142-145) is the same test within its package. EqualsIsEquivalence is its partner |
| Runtimes.GenerationsNeverEqual | src/main/java/jjbridge/engine/v8/runtime/Runtime.java:188 | a runtime of one generation is never equal to one of the other, in either direction, whatever the handles |
| Runtimes.Runtime.HashCode | src/main/java/jjbridge/engine/v8/runtime/Runtime.java:195-199 | the current hash is Java's `(int)(runtimeHandle ^ (runtimeHandle >>> 32))` on the handle's 64-bit word; the legacy class has no override, so its hash is the identity hash |
| Runtimes.EqualsIsEquivalence | src/main/java/jjbridge/engine/v8/runtime/Runtime.java:185-193 | runtime equality, by runtime handle, is reflexive, symmetric and transitive, and nothing equals null |
| Runtimes.CurrentEqualsAgreesWithHash | src/main/java/jjbridge/engine/v8/runtime/Runtime.java:195-199 | two current runtimes that are equal have the same hash |
| Runtimes.LegacyEqualsDisagreesWithHash | src/main/java/jjbridge/v8/runtime/Runtime.java:141-145 | two distinct legacy runtimes on one handle are equal, yet some identity hash tells them apart, because the legacy class does not override `hashCode` |
| Engine.JoinFlags | src/main/java/jjbridge/engine/v8/V8Engine.java:28-31 | the builder loop produces the flag line: each flag followed by one space, in order |
| Engine.SetFlags | src/main/java/jjbridge/engine/v8/V8Engine.java:25-33 | one `setFlags` native call with the joined line |
| Engine.FlagLineOfNone | src/main/java/jjbridge/engine/v8/V8Engine.java:25-33 | no flags give the empty line |
| Engine.FlagLineAppend | src/main/java/jjbridge/engine/v8/V8Engine.java:28-31 | the line of two flag lists back to back is the line of the first followed by the line of the second |
| Engine.FlagLineLength | src/main/java/jjbridge/engine/v8/V8Engine.java:28-31 | the line is as long as the flags together plus one space per flag |
| Engine.FlagLineEndsWithSpace | src/main/java/jjbridge/engine/v8/V8Engine.java:28-31 | the line of a non-empty list ends with a space |
| Engine.FlagLineOfOne | src/main/java/jjbridge/engine/v8/V8Engine.java:28-31 | one flag gives that flag and a space |
| Engine.NewRuntime | src/main/java/jjbridge/engine/v8/V8Engine.java:36-43 | a failure to initialise V8 is passed on; otherwise one `createRuntime` call carries a fresh monitor pausing 50 ms and four fresh empty caches, and the new runtime, over the handle it returns, has that monitor running with nothing tracked; the monitor is a daemon in the current generation, and in the legacy one exactly when the calling thread is. It succeeds exactly when an instance already existed, the generation is legacy, or `initializeV8` answered true. The call history grows by the `initializeV8` call, made only on a current-generation first use, and then, on success, by the one `createRuntime` call |
| Jni.JniEnv.constructor | src/main/cpp/V8/Runtime.h:76-134 | a fresh JNI environment has made no calls and has no exception pending |
| Jni.JniEnv.CacheStore | src/main/cpp/V8/Runtime.h:76-79 | one `cacheStore` call; the cache's entry under the key becomes the object, and an exception it raises stays pending |
| Jni.JniEnv.CacheGet | src/main/cpp/V8/Runtime.h:81-84 | one `cacheGet` call answering the cache's entry under the key; an exception it raises stays pending |
| Jni.JniEnv.CacheDelete | src/main/cpp/V8/Runtime.h:86-89 | one `cacheDelete` call removing exactly the key's entry; an exception it raises stays pending |
| Jni.Checked | src/main/cpp/V8/FunctionCallbackData.h:24-66 | the steps a run that checks `ExceptionCheck` after each call makes: a non-empty prefix of the steps, and all of them unless an exception is pending |
| Jni.CheckedStopsOnException | src/main/cpp/V8/FunctionCallbackData.h:24-66 | a checked run makes every step, or stops right after the first step that leaves an exception pending |
| Jni.CheckedWithoutException | src/main/cpp/V8/FunctionCallbackData.h:24-66 | when no exception is pending at the end, the checked run made every step |
| Jni.PendingStays | src/main/cpp/V8/FunctionCallbackData.h:24-66 | once an exception is pending, further calls leave it pending |
| Jni.PendingAfterThree | src/main/cpp/V8/FunctionCallbackData.h:24-66 | after one, two or three calls, an exception is pending exactly if one was before or one of those calls raised it |
| Jni.CheckedThree | src/main/cpp/V8/FunctionCallbackData.h:24-66 | a checked run of three calls stops after the first or the second when that call leaves an exception pending, and otherwise makes all three |
| Jni.PendingAfterAppend | src/main/cpp/V8-wrapper.cpp:480-595 | whether an exception is pending after two runs back to back is decided by the second run, starting from the state the first one left |
| CallbackData.NativeRuntime.constructor | src/main/cpp/V8/Runtime.h:76-134 | the native runtime holds the four caches it was given |
| CallbackData.Handle.constructor | src/main/cpp/V8/Handle.h:63-71 | a new handle has its address as key, holds no value and has no finalizer |
| CallbackData.Handle.Reset | src/main/cpp/V8/Handle.h:29-32 | a reset handle holds nothing and is no longer weak |
| CallbackData.Handle.Set | src/main/cpp/V8/Handle.h:24-27 | the handle holds the new value, strongly |
| CallbackData.Handle.SetFinalizer | src/main/cpp/V8/Handle.h:45-49 | the handle becomes weak with the given parameter, and keeps its value |
| CallbackData.Handle.TakeExternalParameter | src/main/cpp/V8/Handle.h:51-55 | gives the external data the handle was weak with, or null, and the handle is no longer weak |
| CallbackData.Handle.TakeCallbackParameter | src/main/cpp/V8/Handle.h:51-55 | gives the callback data the handle was weak with, or null, and the handle is no longer weak |
| CallbackData.ExternalData.constructor | src/main/cpp/V8/ExternalData.h:17-22 | new external data is bound to its runtime and handle and is not cleared |
| CallbackData.ExternalData.ClearReference | src/main/cpp/V8/ExternalData.h:24-37 | cleared data does nothing; otherwise one delete of the key; the data becomes cleared and the handle is reset unless the current code finds an exception pending, in which case nothing more changes |
| CallbackData.ExternalData.StoreInCache | src/main/cpp/V8/ExternalData.h:39-49 | cleared data stores nothing; otherwise one store of the object under the key |
| CallbackData.ExternalData.ExternalFromCache | src/main/cpp/V8/ExternalData.h:51-58 | cleared data fails with the "already cleared" error and makes no call; otherwise one lookup of the key |
| CallbackData.FunctionCallbackData.constructor | src/main/cpp/V8/FunctionCallbackData.h:17-22 | new callback data is bound to its runtime and handle and is not cleared |
| CallbackData.FunctionCallbackData.ClearReference | src/main/cpp/V8/FunctionCallbackData.h:24-46 | the key is deleted from the function, type-getter and equality-checker caches in that order; the current code stops at the first pending exception and, only if none is pending, resets the handle and becomes cleared; the legacy code (core/src/main/cpp/V8-wrapper.cpp:30-38) makes all three deletes and becomes cleared |
| CallbackData.FunctionCallbackData.StoreInCache | src/main/cpp/V8/FunctionCallbackData.h:48-66 | the three objects are stored under the key in the three caches in order; the current code stops at the first pending exception; cleared data stores nothing |
| CallbackData.FunctionCallbackData.FromCache | src/main/cpp/V8/FunctionCallbackData.h:68-93 | cleared data fails with "FunctionCallbackData already cleared!" and makes no call; otherwise one lookup of the key in the chosen cache |
| CallbackData.FunctionCallbackData.CallbackFromCache | src/main/cpp/V8/FunctionCallbackData.h:68-75 | the function cache's entry under the key, or the "already cleared" error |
| CallbackData.FunctionCallbackData.TypeGetterFromCache | src/main/cpp/V8/FunctionCallbackData.h:77-84 | the type-getter cache's entry under the key, or the "already cleared" error |
| CallbackData.FunctionCallbackData.EqualityCheckerFromCache | src/main/cpp/V8/FunctionCallbackData.h:86-93 | the equality-checker cache's entry under the key, or the "already cleared" error |
| CallbackData.SetExternalValue | src/main/cpp/V8-wrapper.cpp:267-300 | old external data is cleared with one delete of the key; then fresh data stores the value under the key and becomes the handle's weak parameter; the external cache ends up with exactly that key updated |
| CallbackData.GetExternalValue | src/main/cpp/V8-wrapper.cpp:249-265 | an external without data reads as null with no call; cleared data fails; otherwise one lookup of the key, and the current code answers null when an exception is pending afterwards |
| CallbackData.SetThenGetExternal | src/main/cpp/V8-wrapper.cpp:249-300 | reading an external right after setting it gives the value set, unless the current code ends with an exception pending, when it answers null |
| CallbackData.ClearOldCallbackData | src/main/cpp/V8-wrapper.cpp:487-493 | old callback data, if not yet cleared, is cleared by its checked or unchecked run of deletes; each cache either keeps its entries or loses just the handle's key |
| CallbackData.StoreAfterDelete | src/main/cpp/V8-wrapper.cpp:487-496 | deleting a key and then storing under it leaves the same cache as the store alone |
| CallbackData.SetFunctionHandler | src/main/cpp/V8-wrapper.cpp:480-595 | the old data's deletes and the new data's stores are made in that order, checked in the current code; the handle then holds the function with the fresh data as its weak parameter; unless the current code ends with an exception pending, each cache has exactly the handle's key updated. In every case the function cache has the handler stored under the key, and each other cache is unchanged, has lost the key, or has its new object stored there, so no other key changes |
| CallbackData.SetThenGetCallback | src/main/cpp/V8-wrapper.cpp:480-595 | reading the handler and both capabilities back through the new data gives what was set, unless the current code ends with an exception pending |
| NativeEquality.LegacyEqualsValueAsWritten | core/src/main/cpp/V8-wrapper.cpp:205-211 | as written, the legacy `equalsValue` answers true for every pair of handles |
| NativeEquality.LegacyEqualsValue | core/src/main/cpp/V8-wrapper.cpp:205-211 | the intended comparison answers true exactly when the two handles are the same |
| NativeEquality.AsWrittenConfusesDistinctHandles | core/src/main/cpp/V8-wrapper.cpp:210 | handles 1 and 2 are equal under the code as written and unequal under the intended comparison |
| NativeEquality.LegacyEqualsValueIsEquivalence | core/src/main/cpp/V8-wrapper.cpp:205-211 | the intended comparison is reflexive, symmetric and transitive, so `Reference.equals` built on it is an equivalence |

## Left out

- Threads, `synchronized` and `volatile` are not modelled. The monitor thread's loop is a method run over an explicit schedule of polls and interrupt requests. This makes the interleaving with other threads a parameter.
- Garbage collection and the `ReferenceQueue` are not modelled. Which tracked entries the collector reports, and when, is the schedule. The `PhantomReference`s themselves are not modelled.
- The clean-up actions' `releaseReference` calls are not run on the boundary. The monitor records them in `performed`, and `V8Bridge.ReleaseCalls` gives the native calls they stand for.
- Date text conversion is not modelled. `SimpleDateFormat` is an opaque `DateFormat` of a formatter and a partial parser. The Java code has one static formatter with the pattern `DATE_TIME_PATTERN`. The model has `NewRuntime` pass a `DateFormat` to each runtime's factory. Runtimes built with the same argument share it, but nothing forces all runtimes to use one.
- Floating-point values are not modelled. A double is its 64 bits, passed through untouched.
- The V8 API, the isolate and contexts, script compilation and the function-template invocation callback that calls back into Java are not modelled. They are the engine and appear only through the oracle's answers.
- The inspector (`Inspector`, `V8MessageHandler`, `InspectorClient`, `Channel`, `BlockingQueue`) is left out because it is outside the reference bookkeeping.
- Native library loading is replaced by a `locate` parameter that maps `icudtl.dat` to a path. `NativeLibraryLoader` is not part of this model.
- The `JSBaseRuntime` superclass that wraps `resolveReference` is not part of this model. `GetGlobalObject` and `RunScript` return the `Reference`.
- The legacy code keeps a `JNIEnv*` in a field. The model passes the environment to each call, which gives the same calls.
- A JNI call that raises an exception is modelled as still applying its effect on the cache. Whether the Java method threw before or after changing the map is not known to the native side.
- CallbackData.Handle.TakeExternalParameter and CallbackData.Handle.TakeCallbackParameter: `GetFinalizerParameter` (src/main/cpp/V8/Handle.h:51-55) reinterprets the parameter as the requested type. The model returns null when the parameter is of the other kind.
- CallbackData.ExternalData.ClearReference: requires a non-null handle. Only data made by `initExternalValue` has a null handle, and that data is only ever stored, never cleared, in the cited code.
- CallbackData.ExternalData.Key: the key of a null handle is 0. This stands for `reinterpret_cast` of a null pointer.
- References.Reference.HashCode: the legacy `Reference` has no `hashCode` override, so its hash is the identity hash. Only `Runtime` takes the identity hash as a parameter. The legacy reference hash is not modelled.
- Runtimes.Runtime.Close: closing a runtime whose monitor was never started is not modelled, because the constructor always starts it.
- The current `equalsValue` compares with V8's `StrictEquals`. The model leaves this to the oracle's flag for the call, because it is engine semantics.
- V8Bridge.NewReference: every yielding native call is modelled as succeeding, and so is `trackReference` after it. The current `Runtime::NewReference` returns `nullptr` when `trackReference` leaves an exception pending (src/main/cpp/V8/Runtime.h:68-72); the model always returns the tracked `Reference`. The same holds for `V8Bridge.NewValue` and `Runtime.CreateNewReference`, whose `newValue` (src/main/cpp/V8-wrapper.cpp:116-121) goes through the same `Runtime::NewReference`, and for the native calls behind `Runtime.RunScript`, `Runtime.GetGlobalObject`, `AccessorsFactory.GetProperty`, `GetItemByPosition`, `InvokeFunction` and `InvokeConstructor`. None of them models a script or call that throws (`throwExecutionException`, src/main/cpp/V8-wrapper.cpp:429-436 and 467-474) or an empty result. Those outcomes are engine behaviour, which the oracle does not cover.
- Monitor.IdCounter.GetAndIncrement: the id is an unbounded natural. Java's `AtomicLong` wraps to `Long.MIN_VALUE` after 2^63 - 1 ids, after which an id could repeat. Only then could tracked entries collide in the monitor's map. The model leaves this out, so its proof that a new id is never already tracked assumes no wrap-around.
- Accessors.AccessorsFactory.SetProperty, SetItemByPosition, InvokeFunction, InvokeConstructor and Accessors.ReferenceToHandle: a `Reference` argument is never null in the model, and neither is the argument array or any of its elements. Java throws NullPointerException on `value.handle`, on `receiver.handle`, and on a null `args` array or element. Those error paths are not modelled.
- Monitor.IdCounter: the Java counter is one `static AtomicLong` shared by every monitor (src/main/java/jjbridge/engine/utils/ReferenceMonitor.java:33). The model passes the counter to each monitor as an `IdCounter` object. Ids are unique across monitors only when every caller passes the same object, which nothing enforces. `Monitor.TrackBeside` proves that monitors sharing one counter keep disjoint ids.
- `getNativeHandle` returns the runtime's constant handle field, and the model exposes that field directly.

## Findings

| source | as written | input that shows it | evidently intended | confidence | as-written member | corrected member |
|---|---|---|---|---|---|---|
| core/src/main/cpp/V8-wrapper.cpp:205-211 | `equalsValue` compares `Handle::FromLong(aReferenceHandle)` with itself, so every pair of handles is equal | handles 1 and 2 (`AsWrittenConfusesDistinctHandles`) | compare the first handle's pointer with the second's, i.e. handle identity | not executed | NativeEquality.LegacyEqualsValueAsWritten | NativeEquality.LegacyEqualsValue |
