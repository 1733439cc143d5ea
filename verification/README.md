# Settlement and ownership in the dynwinrt Node binding

This project models the parts of the native Node binding that keep track of things that
may happen only once, and proves that they do. Six subjects, each in its own group of
modules:

- **Promise settlement** (`AsyncPromise`, `AsyncDispatcher`, `AsyncInvariant`, `AsyncFrame`,
  `AsyncSteps`, `AsyncPreserves`, `AsyncRegistry`, `AsyncReachable`, `AsyncProgress`,
  `AsyncTheorems`, `AsyncBookkeeping`, `AsyncOrderly`, `AsyncEffects`, `AsyncAbandon`,
  `AsyncOutcomes`, `AsyncCompletions`, `AsyncLifecycle`, `AsyncRuns`, `AsyncLosses`,
  `AsyncDropRun`, `AsyncUnrefRun`). A transition system with a program
  counter for every call in progress. A step is one mutex critical section, one atomic
  operation or one native call. Worker threads interleave freely; calls of the JS thread
  interleave where a settlement can run JavaScript, which is while its callback scope is
  open and when it closes. `AsyncInvariant.Inv` is kept by every step, and the theorems
  are about every run from the initial state. `AsyncDispatcher.EnvAsyncDispatcher` is the
  object behind it; each of its methods is one critical section, proved equal to the
  function the transition system uses.
- **Carrying values between apartments** (`LittleEndian`, `ByteRange`, `ComObjects`,
  `StoredStruct`, `StoredValue`, `StructPointers`). COM slots of a struct buffer are nulled in place and
  written back later. References are counted for one arbitrary object at a time, so what
  is proved holds for every object.
- **Raw COM references, raw memory and native outputs** (`Tally`, `RawCom`,
  `RawComTheorems`, `RawComExact`, `RawComReference`, `RawMemory`, `RawMemoryExact`,
  `NativeOutputs`, `NativeOutputRuns`,
  `ComInput`, `ComInputOperations`). Every reference, block and handle is counted over
  arbitrary runs of operations, failing ones included.
- **Aggregate descriptors** (`RawSweep`, `RawDescriptor`, `RawValidator`, `RawLimits`,
  `RawTies`, `NativeParser`). The recursive limits check with checked machine arithmetic and its sort
  and sweep, the same limits stated in unbounded integers, and the later recursive parser.
- **Thread-safe functions and one-shot completions** (`ManagedTsfn`, `TsfnInvariant`,
  `TsfnSteps`, `TsfnTheorems`, `TsfnPayloads`, `TsfnCreation`, `TsfnClosing`, `TsfnDropping`,
  `TsfnLateCalls`, `TsfnLifecycle`,
  `ComCompletion`, `ComOutcomes`). Again
  transition systems with an invariant, plus the objects whose methods are their critical
  sections.
- **Framing** (`Fingerprint`, `DocumentationDiff`). The byte stream fed to the digest of
  the build fingerprint, and the classifier of git name-status records.

`Wrappers` holds `Option` and `Result`. `dafny verify dfyconfig.toml` checks everything.

## What turned out not to hold

The code was kept as it is; each of these has a concrete run or input and an exact condition.

1. *A completion can be lost in two ways.* `queue_fallback` gives up when the call into the
   thread-safe function returns anything but ok or closing (`AsyncLosses.SomeRunLoses`).
   And `unregister_queue` takes whatever queue is registered when its loop ends: a
   settlement it performs itself runs JavaScript when the callback scope closes, and that
   JavaScript may unregister the queue and register another; completions routed to the new
   queue meanwhile are dropped with it, and depend on callbacks the queue may discard
   (`AsyncDropRun.SomeRunDrops`). `AsyncLosses.LosesExactly` shows that these two steps,
   with nobody else holding the completion, are the only ones that lose any. What a caller
   can observe is `AsyncOrderly.OrderlyRunsLoseNothing`: nothing is lost if no queue is
   registered while an unregister is in progress and every such call is answered.
2. *The layout check depends on the order of ties.* An empty field that starts where a
   non-empty one does is accepted before it and refused after it, and the sort by offset is
   unstable. A one-byte struct with an empty struct and a byte at offset 0 is such a
   descriptor (`RawTies.TieDescriptor`, `RawTies.TieUndecided`). Some sort accepts a
   descriptor exactly when it is within the limits, and every sort does exactly when,
   besides, no struct in it has such a tie (`RawTies.SomeSortAccepts`,
   `RawTies.EverySortAccepts`).
3. *A native call can follow a `closing` answer.* It does exactly when a caller loaded the
   pointer before another, which had been answered `closing` and so given the function up,
   cleared it (`TsfnLateCalls.LateExactly`, over every run). So it never happens if calls
   on one function do not overlap (`TsfnLateCalls.SerialNeverLate`), and wherever two calls
   on a live function do overlap the run can go on to it (`TsfnLateCalls.OverlapCanBeLate`).
   No call ever follows a release or an abort (`TsfnTheorems.NoCallAfterRelease`).
4. *The native function can stay referenced with nothing registered.* `finish_promise` only
   logs an unref that fails; the dispatcher has already cleared its flag
   (`AsyncUnrefRun.SomeUnrefFails`). Flag and native function agree exactly when the last
   unref did not fail (`AsyncTheorems.ReferencedWhileRegistered`).

## What is assumed of the outside

Answers of native calls are parameters of the step that makes the call, and may be any:
whether a callback was accepted, which status the thread-safe function returned, whether a
scope opened, whether a value could be converted or an error object created, whether a
marshalling call was granted, which address the allocator gave,
whether a handle could be closed. Beyond that: the native side hands a queued box or
callback over at most once; it answers `closing` only while the calling thread is still
counted, and finalizes a function only after it was given up; the allocator returns blocks
outside live ones; fields of a struct type do not overlap; an agile reference resolves to
the object it was made from; and `assumeTransferred` is told the truth about the slot.

## Model

| member | source | states |
|---|---|---|
| AsyncCompletions.EveryCompletionDelivered | bindings/js/src/async_promise.rs:361-505 | End to end: when everything has come to rest in an open environment without the two harmful steps and without a refused call for the promise, a promise whose `complete` was called is settled, its deferred was used exactly once, and with a completion offered for it in that run |
| AsyncTheorems.NoCompletionLost | bindings/js/src/async_promise.rs:361-381 | In every interleaving a stored completion of an open promise is shadowed by an accepting queue, in the thread-safe function's queue, or held by a call that will hand it on, unless one of the two harmful steps happened |
| AsyncLosses.LosesExactly | bindings/js/src/async_promise.rs:803-836 | A step loses a completion if and only if it is a thread-safe-function call failing with a status other than closing, or the taking of an accepting queue, and nobody else holds that completion |
| AsyncLosses.FailedCallLoses | bindings/js/src/async_promise.rs:812-829 | After a failed call the completion is unlocated exactly when the failing caller was its only holder |
| AsyncLosses.DroppedQueueLoses | bindings/js/src/async_promise.rs:919-931 | After the queue is taken a shadowed completion is unlocated exactly when nothing but the shadow map knew about it |
| AsyncLosses.SomeRunLoses | bindings/js/src/async_promise.rs:803-836 | A run from the initial state, with the environment open and all calls returned, that loses a completion by a failed call |
| AsyncDropRun.SomeRunDrops | bindings/js/src/async_promise.rs:900-931 | A run in which no native call fails and a re-entered unregister drops a completion for good |
| AsyncOrderly.OrderlyRunsLoseNothing | bindings/js/src/async_promise.rs:838-931 | If no queue is registered while an unregister is in progress and every call into the thread-safe function is answered ok or closing, no completion is lost in any run |
| AsyncAbandon.AbandonedOnlyAfter | bindings/js/src/async_promise.rs:383-396 | In every run a promise is abandoned only after cleanup began, or after its own handle scope could not be opened or its own fallback was answered closing; so never in an environment that is not cleaned up and whose calls are answered |
| AsyncOutcomes.CallbackSettles | bindings/js/src/async_promise.rs:768-790 | A queue or thread-safe-function callback of an open promise that has run to its return in an open environment, with no call of the promise refused, has won the swap and used deferred, context and reference once each |
| AsyncOutcomes.DrainSettles | bindings/js/src/async_promise.rs:900-917 | A drain on the JS thread that has returned in an open environment has left every completion it took from the shadow map settled |
| AsyncCompletions.StoredWasOffered | bindings/js/src/async_promise.rs:361-381 | The completion stored for a promise is one that a `complete` call of the run offered for that promise |
| AsyncCompletions.CompletedIsStored | bindings/js/src/async_promise.rs:361-381 | Once a `complete` call has returned in an open environment the promise has a stored completion |
| AsyncCompletions.SettledWithStored | bindings/js/src/async_promise.rs:415-505 | If the callback scope opens and the value converts, a settled promise has used its deferred once, with the completion stored first |
| AsyncTheorems.QueuesStayClean | bindings/js/src/async_promise.rs:885-898 | A queue that no longer accepts is empty, and each promise enters the thread-safe function at most once, with its result stored |
| AsyncTheorems.SettledOnce | bindings/js/src/async_promise.rs:383-462 | Settled or abandoned, never both, never twice; an abandoned promise never touches deferred, async context or reference, a settled one uses up each of them exactly once; the deferred gets the completion stored first or an error, and what it got never changes |
| AsyncTheorems.HistoryStays | bindings/js/src/async_promise.rs:371-380 | The first stored completion is never overwritten, and neither the fate of a decided promise nor the call that won its race changes, over every continuation |
| AsyncTheorems.ResultAvailable | bindings/js/src/async_promise.rs:415-424 | Whoever wins the swap finds the completion that was stored first: the "unavailable" branch is unreachable |
| AsyncTheorems.SettlesOnJsThread | bindings/js/src/async_promise.rs:900-917 | Settling and finishing happen on the JS thread only, also when another thread drains the queue |
| AsyncTheorems.AfterCleanup | bindings/js/src/async_promise.rs:933-979 | After cleanup, whatever raced with it, no registry entry and no queue is left, every registered promise is settled or abandoned and keeps neither operation nor result |
| AsyncLifecycle.CleanupEnds | bindings/js/src/async_promise.rs:933-979 | Once cleanup was called and no call of it is at work, the function is released, the registry is empty, no queue is left and every registered promise is decided |
| AsyncLifecycle.CreationEnds | bindings/js/src/async_promise.rs:626-664 | When the creating call has returned the promise is registered or refused; refused only while closing or because of a failed ref, with context and reference given back once and the deferred unused |
| AsyncTheorems.RegistryStaysEmpty | bindings/js/src/async_promise.rs:626-664 | Once cleanup has taken the registry it stays empty in every continuation, late registrations included |
| AsyncTheorems.ReferencedWhileRegistered | bindings/js/src/async_promise.rs:626-681 | Successful refs and unref calls strictly alternate, failed refs included in the runs; while open and between calls the flag is set exactly when the registry is non-empty, and the native function agrees with the flag if and only if the last unref did not fail |
| AsyncTheorems.FailedUnrefStays | bindings/js/src/async_promise.rs:675-680 | From every reachable state, an unref that fails leaves the native function referenced with an empty registry and a cleared flag |
| AsyncUnrefRun.SomeUnrefFails | bindings/js/src/async_promise.rs:675-680 | A run from the initial state that ends so, with the environment open and no call in progress |
| AsyncBookkeeping.RegistryExact | bindings/js/src/async_promise.rs:666-681 | Until cleanup, a registered promise nobody works on has an entry exactly when it is not settled: finished promises never keep the event loop alive |
| AsyncBookkeeping.NoStaleShadow | bindings/js/src/async_promise.rs:720-801 | Unless a queue discards callbacks, a shadowed promise has its callback waiting, starting, or still being routed: the shadow map keeps no stale entry |
| AsyncReachable.LabelPreserves | bindings/js/src/async_promise.rs:360-1009 | Every step of every call keeps the invariant that the theorems rest on |
| AsyncReachable.RunPreserves | bindings/js/src/async_promise.rs:360-1009 | So does every run |
| AsyncProgress.LabelAdvances | bindings/js/src/async_promise.rs:361-406 | Single steps never change a first completion, a fate or a winner, and flag exactly the harmful ones |
| AsyncPreserves.CompletePreserves | bindings/js/src/async_promise.rs:361-381 | The store of a completion under its lock keeps the invariant against all concurrent calls |
| AsyncPreserves.RoutePreserves | bindings/js/src/async_promise.rs:720-766 | Routing hands the completion from the caller to the shadow map, or back to it when the queue refuses, without a moment in which nobody has it |
| AsyncPreserves.FallbackPreserves | bindings/js/src/async_promise.rs:803-836 | Of all callers that fall back, one enters the promise into the thread-safe function |
| AsyncPreserves.AbandonPreserves | bindings/js/src/async_promise.rs:383-396 | Abandoning wins the same race as settling and clears operation and result |
| AsyncPreserves.SettlePreserves | bindings/js/src/async_promise.rs:419-505 | Settlement uses up deferred, context and reference in order, once each |
| AsyncPreserves.DrainPreserves | bindings/js/src/async_promise.rs:885-898 | Draining moves the whole shadow map into the drainer's list in one section |
| AsyncRegistry.RegisterPreserves | bindings/js/src/async_promise.rs:626-664 | Registration, with a ref that may fail and be undone, keeps registry and reference in step |
| AsyncRegistry.FinishPreserves | bindings/js/src/async_promise.rs:666-674 | Removing the last promise clears the flag with it and leaves the unref as the only call outstanding |
| AsyncRegistry.UnreferencePreserves | bindings/js/src/async_promise.rs:675-680 | The unref that follows, successful or not, keeps the invariant |
| AsyncRegistry.CleanupPreserves | bindings/js/src/async_promise.rs:933-979 | The five stages of cleanup hand over every pending and registered promise to be abandoned |
| AsyncDispatcher.EnvAsyncDispatcher.RoutePending | bindings/js/src/async_promise.rs:726-740 | A completion is shadowed exactly when the queue accepts, no other shadow changes, and a non-accepting queue stays empty |
| AsyncDispatcher.EnvAsyncDispatcher.RemoveQueuePending | bindings/js/src/async_promise.rs:792-801 | The promise is no longer shadowed, every other one is as before, and a drained queue stays drained |
| AsyncDispatcher.EnvAsyncDispatcher.DrainQueuePending | bindings/js/src/async_promise.rs:885-898 | Returns exactly the shadowed promises and leaves a queue that neither accepts nor holds anything |
| AsyncDispatcher.EnvAsyncDispatcher.Register | bindings/js/src/async_promise.rs:637-646 | Asks for a ref exactly for the first entry |
| AsyncDispatcher.EnvAsyncDispatcher.FinishPromise | bindings/js/src/async_promise.rs:666-681 | Asks for an unref only when it emptied a registry that was referenced, and clears the flag with it |
| AsyncDispatcher.EnvAsyncDispatcher.BeginCleanup | bindings/js/src/async_promise.rs:933-936 | Only the first cleanup goes on |
| AsyncDispatcher.EnvAsyncDispatcher.DrainPromises | bindings/js/src/async_promise.rs:946-955 | Returns the whole registry and leaves it empty |
| StoredValue.RoundTrip | bindings/js/src/async_promise.rs:258-339 | Capture followed, at any later time, by resolve is the identity on every value tree; resolve succeeds exactly when as many calls are granted as capture made |
| StoredValue.CaptureConserves | bindings/js/src/async_promise.rs:259-300 | Each reference of the value is consumed exactly once and then carried by exactly one agile reference; none is left when capture fails, wherever it fails |
| StoredValue.ResolveConserves | bindings/js/src/async_promise.rs:302-339 | Each agile reference is consumed exactly once and gives back one COM reference, or none at all when resolving fails partway |
| StoredValue.CaptureSucceedsExactly | bindings/js/src/async_promise.rs:259-300 | Capture succeeds if and only if the value holds no raw or out pointer and all its marshalling calls are granted |
| StoredValue.ResolveSucceedsExactly | bindings/js/src/async_promise.rs:302-339 | Resolving a stored value makes the same number of calls and fails only when one is refused |
| StoredValue.CaptureStores | bindings/js/src/async_promise.rs:259-300 | The stored form keeps every other byte, and each object with the slot it came from |
| StoredValue.CaptureItemLoop | bindings/js/src/async_promise.rs:274-280 | The loop over a nullable object array refines its specification |
| StoredValue.ResolveItemLoop | bindings/js/src/async_promise.rs:316-324 | The loop that restores such an array refines its specification, with what is left over when it stops |
| StoredValue.CaptureElementLoop | bindings/js/src/async_promise.rs:284-294 | The loop over array elements refines its specification, error included |
| StoredValue.CaptureValue | bindings/js/src/async_promise.rs:259-300 | The imperative capture, on a copy of the struct buffer, refines the specification used in all results above |
| StructPointers.SlotsArePointers | bindings/js/src/async_promise.rs:203-227 | The slots the capture visits are exactly the offsets to which a path of fields through nested structs leads to a COM pointer |
| StructPointers.CapturedExactly | bindings/js/src/async_promise.rs:193-227 | A captured struct reads null at every COM pointer of its layout, at any depth; no other byte changed; and it carries exactly the non-null pointers, each once under its offset |
| StructPointers.StructRefs | bindings/js/src/async_promise.rs:203-227 | The references a struct value counts for are the pointers to that object in its layout, one each |
| StoredStruct.FieldSlotsSeparate | bindings/js/src/async_promise.rs:203-227 | COM slots of nested structs never overlap, at any depth |
| StoredStruct.CaptureNulls | bindings/js/src/async_promise.rs:194-227 | After a successful capture the buffer is the original with its slots nulled |
| StoredStruct.NullSlotsExact | bindings/js/src/async_promise.rs:203-227 | Then every listed slot reads null and every byte outside the listed slots is unchanged |
| StoredStruct.CaptureCarries | bindings/js/src/async_promise.rs:203-227 | Each non-null listed slot is carried once, in order, with its offset |
| StoredStruct.CaptureBalanced | bindings/js/src/async_promise.rs:203-227 | At every point where capture can stop, each reference is in the buffer, carried, or given up, exactly once |
| StoredStruct.ResolveBalanced | bindings/js/src/async_promise.rs:229-237 | The same for writing the references back |
| StoredStruct.RestoreNull | bindings/js/src/async_promise.rs:229-237 | Writing the carried references into the nulled buffer gives back the original bytes |
| StoredStruct.StoredAwaited | bindings/js/src/async_promise.rs:193-237 | What capture stores is what resolve expects: distinct slots that are null |
| StoredStruct.CaptureSlot | bindings/js/src/async_promise.rs:208-221 | Taking and nulling one slot in place is the specified step |
| StoredStruct.CaptureField | bindings/js/src/async_promise.rs:203-227 | One field of a struct, in place: its slots, which SlotsArePointers identifies for nested structs, are taken as specified |
| StoredStruct.CaptureFields | bindings/js/src/async_promise.rs:203-227 | The recursive in-place walk over fields equals the walk over the flat list of slots, which SlotsArePointers ties to the layout tree |
| StoredStruct.ResolveFields | bindings/js/src/async_promise.rs:229-237 | The in-place loop equals the specified restoration and leaves the rest when it stops |
| ByteRange.Overwrite | bindings/js/src/com_raw.rs:419-434 | A copy into a buffer changes exactly its range |
| RawSweep.SweepExact | bindings/js/src/com_raw.rs:2095-2126 | On sorted fields, with checked arithmetic of any width from 32 bits, acceptance is disjointness, containment and the element limit in unbounded integers, and the count returned is size minus field bytes plus field elements |
| RawSweep.SweepDecides | bindings/js/src/com_raw.rs:2027-2133 | For fields that need no tie to be broken, listed in any order: accepted exactly when pairwise disjoint, inside the struct and within the limit |
| RawSweep.OrderIrrelevantExactly | bindings/js/src/com_raw.rs:2096-2114 | All sorted arrangements of accepted fields are accepted if and only if no empty field starts where a non-empty one does |
| RawSweep.TieMatters | bindings/js/src/com_raw.rs:2096-2114 | For every such pair within the limits one arrangement is accepted and the other refused |
| RawSweep.TotalsPermute | bindings/js/src/com_raw.rs:2096-2126 | The totals behind the element count do not depend on the order |
| RawSweep.SweepFields | bindings/js/src/com_raw.rs:2097-2126 | The cursor loop with its checked additions refines the sweep |
| RawValidator.CheckLayout | bindings/js/src/com_raw.rs:2004-2025 | The stack of names is restored on every exit, and the verdict is that of the recursive specification |
| RawValidator.CheckBody | bindings/js/src/com_raw.rs:2027-2133 | The field loop with its expansion counter, on the shared stack, refines the specification |
| RawValidator.CheckField | bindings/js/src/com_raw.rs:2057-2093 | One field: metrics, offset, count and the running expansion limit |
| RawValidator.CheckType | bindings/js/src/com_raw.rs:2135-2197 | Scalar and nested metrics; nested layouts go through the same stack |
| RawLimits.ValidateExact | bindings/js/src/com_raw.rs:2004-2197 | However its sort breaks ties, the check accepts a descriptor if and only if it is within all limits, stated in unbounded integers, and the sort leaves every struct in it clear; it returns the metrics the descriptor describes |
| RawLimits.WidthIrrelevant | bindings/js/src/com_raw.rs:2027-2133 | Verdict and metrics are the same for `usize` of 32 or 64 bits, empty fields included |
| RawLimits.AcceptedBounded | bindings/js/src/com_raw.rs:2004-2025 | An accepted descriptor nests at most 32 deep, repeats no name on a root path and expands to at most 65536 fields |
| RawLimits.LimitsBoundDepth | bindings/js/src/com_raw.rs:2010-2024 | The bound on the stack is a bound on the depth of the tree |
| RawLimits.AcceptedPlaced | bindings/js/src/com_raw.rs:2095-2126 | Whatever the arrangement, the sweep accepts exactly the well-placed fields that it leaves clear |
| RawLimits.ScalarsMeasured | bindings/js/src/com_raw.rs:2135-2161 | A scalar field counts as one and measures the bits of the numbers libffi passes it as, one element each; a GUID is a 32-bit, two 16-bit and eight 8-bit numbers |
| RawDescriptor.QualifiedExactly | bindings/js/src/com_raw.rs:1658-1670 | A qualified name has a dot, and characters that are neither dots nor white space at both ends and on both sides of every dot |
| RawTies.SomeSortAccepts | bindings/js/src/com_raw.rs:2095-2126 | Some sort by offset accepts a descriptor if and only if it is within the limits; the one that puts empty fields first then does |
| RawTies.EverySortAccepts | bindings/js/src/com_raw.rs:2095-2126 | Every sort by offset accepts it if and only if, besides, no struct at any depth has an empty field starting where a non-empty one does |
| RawTies.TieDescriptor | bindings/js/src/com_raw.rs:2027-2133 | A one-byte struct with an empty struct and a byte at offset 0: accepted with the empty field listed first and refused with the byte first, when ties stay as listed |
| RawTies.TieUndecided | bindings/js/src/com_raw.rs:2027-2133 | Either order of it is accepted by some sort and refused by another |
| NativeParser.ParserTrustsValidator | bindings/js/src/com.rs:1150-1420 | On an accepted descriptor the parser never fails on nesting, cycle, count, kind or a missing part; with constructors that agree it fails exactly on an unnamed field or a bad alignment |
| NativeParser.ParsedLayout | bindings/js/src/com.rs:1283-1404 | What the parser builds has the size and the expanded field count the validator computed |
| NativeParser.ParsedMirrors | bindings/js/src/com.rs:1157-1404 | What the parser builds has, at every depth, the names, sizes, alignments, offsets, counts and kinds of its descriptor |
| NativeParser.ParseVariantWithin | bindings/js/src/com.rs:1157-1281 | The same as ParserTrustsValidator at any position in a tree that is within the limits |
| NativeParser.EnterAggregate | bindings/js/src/com.rs:1406-1420 | Depth 64 and cycle are refused, and only then; the name is pushed otherwise |
| NativeParser.Parse | bindings/js/src/com.rs:1290-1299 | The name stack is restored on every exit of the recursive parser |
| NativeParser.ParseAggregate | bindings/js/src/com.rs:1301-1404 | The map and collect over fields stops at the first error and refines the specification |
| NativeParser.ParseOne | bindings/js/src/com.rs:1313-1399 | One field of a struct or union, on the shared stack |
| NativeParser.ParseKind | bindings/js/src/com.rs:1328-1396 | Each kind, nested ones through the same stack |
| RawComTheorems.Conserved | bindings/js/src/com_raw.rs:69-193 | Over every run, AddRefs minus Releases equals what live owners, leases, managed values, transferred slots and deliberate leaks hold, and no live reference is unreachable |
| RawComTheorems.AllReturned | bindings/js/src/com_raw.rs:164-193 | When every handle, lease and managed value is gone, only transferred slots and leaks are unreleased |
| RawComTheorems.TransferExact | bindings/js/src/com_raw.rs:149-162 | A transfer succeeds exactly on the owner thread with a live reference and an accepted write; a refused one changes nothing at all |
| RawComTheorems.FailedQueryConsumesOnce | bindings/js/src/com_raw.rs:523-542 | A failed query releases its input exactly once, and whatever the query itself acquired |
| RawComTheorems.FailedAdoptionConsumesOnce | bindings/js/src/com_raw.rs:796-809 | An adoption whose query fails empties the pointer, makes no owner, and cannot be repeated |
| RawComTheorems.DetachAdoptMoves | bindings/js/src/com_raw.rs:875-881 | Detach then adopt moves the reference to a new owner without an AddRef or Release |
| RawComTheorems.TransferAssumeMoves | bindings/js/src/com_raw.rs:811-831 | A transferred reference taken back by its address is the same reference, without counting |
| RawComTheorems.OffThreadNeverReleases | bindings/js/src/com_raw.rs:77-85 | Off the owner thread every operation fails without effect, and finalizing the last handle adds exactly its reference to the leaks and releases nothing |
| RawComTheorems.OthersOnlyLeak | bindings/js/src/com_raw.rs:77-193 | Over every run of other threads a reference stays where it is or is leaked: only its owner thread can give it up |
| RawCom.StepBalanced | bindings/js/src/com_raw.rs:781-901 | No operation, failing or not, leaves a reference in nobody's hands; which object ends up where is said by the RawComExact rows |
| RawComExact.ManagedQueryExact | bindings/js/src/com_raw.rs:787-793 | Succeeds exactly for a live value admitted here whose query is answered; the new owner holds the interface answered with, acquired once, and the clone made for the call was released once |
| RawComExact.OwnerQueryExact | bindings/js/src/com_raw.rs:853-858 | The same for a query on an owner, which keeps its reference |
| RawComExact.AdoptExact | bindings/js/src/com_raw.rs:795-809 | When adoption succeeds, and that the pointer's reference is gone and the new owner holds the same object, or the one the query answered with in exchange |
| RawComExact.AssumeExact | bindings/js/src/com_raw.rs:811-831 | The pointer is spent whatever happens; when assuming succeeds, and that the slot's reference, or the one it was exchanged for by the query, is the new owner's |
| RawComExact.IntoManagedExact | bindings/js/src/com_raw.rs:892-900 | When it succeeds, and that the owner is empty and the managed value holds its object, or the interface asked for in exchange |
| RawComExact.AddRefExact | bindings/js/src/com_raw.rs:780-785 | One AddRef and one new owner of the same object, for a managed value and for an owner |
| RawComExact.PointerExact | bindings/js/src/com_raw.rs:1584-1589 | A pointer made from a managed value has a reference of its own; one made from an owner shares the owner's |
| RawComExact.ReleaseExact | bindings/js/src/com_raw.rs:137-142 | Releases natively once and empties the owner; a second release changes nothing and is no error |
| RawComExact.LeaseExact | bindings/js/src/com_raw.rs:123-127 | A lease acquires once and its end releases once |
| RawComExact.DropManagedExact | bindings/js/src/com_value.rs:857-901 | A dropped managed value releases its reference once or leaks it, and then holds nothing |
| RawComExact.DropHandleExact | bindings/js/src/com_raw.rs:164-193 | An owned or last handle that is dropped gives its reference up by one release on the owner thread before exit, by one leak otherwise; any other handle gives up nothing |
| RawComReference.RawComReference.CloneValue | bindings/js/src/com_raw.rs:114-121 | One AddRef exactly when it succeeds |
| RawComReference.RawComReference.TakeValue | bindings/js/src/com_raw.rs:129-135 | The caller becomes the holder; a second taker finds nothing |
| RawComReference.RawComReference.Release | bindings/js/src/com_raw.rs:137-142 | Releases once, on the owner thread only |
| RawComReference.RawComReference.TransferToMemory | bindings/js/src/com_raw.rs:149-162 | Writes the address and forgets the reference, or does neither |
| RawComReference.RawComReference.FinalizeOwner | bindings/js/src/com_raw.rs:164-193 | Releases on the owner thread before the loop exits, leaks otherwise, never twice |
| RawComReference.SlotHoldsAddress | bindings/js/src/com_raw.rs:149-162 | The slot reads back as the address transferred into it |
| RawMemory.FreedExactlyOnce | bindings/js/src/com_raw.rs:488-502 | In every run an owned storage is deallocated exactly once, and exactly when neither an allocation nor a lease holds it; an external one never |
| RawMemory.FreedForever | bindings/js/src/com_raw.rs:488-502 | After that it is never held, leased or deallocated again |
| RawMemory.ReleasedRefuses | bindings/js/src/com_raw.rs:321-328 | After a logical release every access and lease fails and changes nothing, in every continuation |
| RawMemory.WriteExact | bindings/js/src/com_raw.rs:353-448 | A write is accepted exactly for the owner thread inside a live allocation, changes exactly its range and reads back equal |
| RawMemory.LeaseProtects | bindings/js/src/com_raw.rs:334-338 | While a lease lives, its storage is not freed and its bytes change by writes only |
| RawMemory.IntReadsBack | bindings/js/src/com_raw.rs:1238-1384 | An integer that fits its width and sign is read back as it was written |
| RawMemory.IntRoundTrip | bindings/js/src/com_raw.rs:436-447 | Two's complement at every width loses nothing |
| RawMemory.RunSound | bindings/js/src/com_raw.rs:196-502 | Counts of holders are exact and live owned blocks stay apart, over every run |
| RawMemoryExact.AllocateExact | bindings/js/src/com_raw.rs:196-260 | Succeeds exactly for a positive size and a power-of-two alignment the platform can lay out, in a block that ends within the address space; reads as zeros and changes no byte elsewhere |
| RawMemoryExact.ViewExact | bindings/js/src/com_raw.rs:262-312 | Succeeds exactly for an aligned range within the address space, null only when empty, and changes no byte |
| RawMemoryExact.LayoutOkExact | bindings/js/src/com_raw.rs:207-213 | The layout test holds exactly when some multiple of the alignment holds the size within half the address space |
| RawMemoryExact.ReadExact | bindings/js/src/com_raw.rs:396-417 | Accepted exactly for the owner thread inside a live allocation, and gives the bytes of that range |
| RawMemoryExact.ReleaseExact | bindings/js/src/com_raw.rs:470-475 | Gives the hold up exactly on the owner thread, deallocating when it was the last; a second release changes nothing and is no error |
| RawMemoryExact.LeaseExact | bindings/js/src/com_raw.rs:334-338 | Adds a holder to the storage of a live allocation, which ending the lease takes away again |
| RawMemory.RawAllocationStorage.DropOne | bindings/js/src/com_raw.rs:488-502 | The last holder deallocates an owned storage |
| RawMemory.RawInvocationLease.End | bindings/js/src/com_raw.rs:56-59 | Ending a lease lets go of the storage once |
| RawMemory.RawAllocation.WriteBytes | bindings/js/src/com_raw.rs:419-434 | The in-place write: exact acceptance condition, exact range |
| RawMemory.RawAllocation.ReadBytes | bindings/js/src/com_raw.rs:396-417 | The in-place read, under the same condition |
| RawMemory.RawAllocation.AcquireLease | bindings/js/src/com_raw.rs:334-338 | A lease holds the storage of a live allocation |
| RawMemory.RawAllocation.Release | bindings/js/src/com_raw.rs:470-475 | Gives up the hold once; the storage lives on while leased |
| NativeOutputRuns.Linear | bindings/js/src/com_value.rs:711-744 | Over every run each right the native side issued, which the output kind alone determines, is exercised by that deallocator, leaked, or held in one place |
| NativeOutputRuns.ClassifiedAsIssued | bindings/js/src/com_value.rs:711-744 | The classification of an output gives its value exactly the right issued with it |
| NativeOutputRuns.OutputFreedAsIssued | bindings/js/src/com_value.rs:818-855 | Releasing or dropping an output of any kind with working cleanup frees the right issued with it and nothing else |
| NativeOutputRuns.TakenByKind | bindings/js/src/com.rs:1002-1034 | A non-null output can be adopted or taken as its own kind and is refused unchanged by every other operation |
| NativeOutputRuns.TakenMovesIssued | bindings/js/src/com.rs:710-901 | Where the right goes: into a managed object, an owner of the block, a handle, or it is exercised at once by the matching deallocator |
| NativeOutputRuns.FreedExactlyOnce | bindings/js/src/com_value.rs:857-901 | When all cleanups succeed on the owning apartment and nothing is held any more, each right was exercised exactly as often as it was issued |
| NativeOutputRuns.CleanRunLeaksNothing | bindings/js/src/com_value.rs:857-901 | Such runs leak nothing |
| NativeOutputRuns.FailedReleaseChangesNothing | bindings/js/src/com_value.rs:818-855 | A failed explicit release leaves the owner as it was, to be retried |
| NativeOutputRuns.AdoptedBlockFreedOnce | bindings/js/src/com.rs:820-833 | A CoTaskMem block held as pointer and as owner is freed once by release or drop |
| NativeOutputRuns.StepBalanced | bindings/js/src/com.rs:710-901 | Take, adopt, string and handle operations never duplicate or drop a right |
| NativeOutputs.NativeValue.TakeNativeOutputPointer | bindings/js/src/com.rs:1002-1034 | The right to the pointer passes to the caller and the value keeps none; a refusal changes nothing |
| NativeOutputs.NativeValue.ReleaseNativePointerOutput | bindings/js/src/com_value.rs:818-855 | Frees the pointer output, or leaves it for another attempt |
| NativeOutputs.NativeValue.Release | bindings/js/src/com_value.rs:511-529 | Explicit release frees the one right of the value or changes nothing |
| NativeOutputs.DynComOwnedHandle.Release | bindings/js/src/com.rs:3021-3033 | The handle is closed once; a failure puts it back |
| NativeOutputs.TakeMovesRight | bindings/js/src/com.rs:1002-1034 | Taking moves exactly the right of the expected provenance |
| NativeOutputs.ReleaseExact | bindings/js/src/com_value.rs:511-529 | When release succeeds, and that it then frees the right the value had |
| NativeOutputs.DropExact | bindings/js/src/com_value.rs:857-901 | Drop frees or leaks the right; owned blocks are always freed |
| ComInput.SectionOk | bindings/js/src/com_input.rs:73-276 | Every locked section keeps the invariant: tokens cover those of the children, claims agree, bindings belong to the claim |
| ComInput.RunOk | bindings/js/src/com_input.rs:73-355 | So does every interleaving of sections, and tokens never change |
| ComInput.OwnerOfSubtree | bindings/js/src/com_input.rs:107-113 | A thread that passes the owner check of a node owns every claimed token below it, replaced children included |
| ComInput.BindingsReadByOwner | bindings/js/src/com_input.rs:135-151 | Bindings read after the check were all made by that thread |
| ComInput.BindingsFreedByOwner | bindings/js/src/com_input.rs:50-58 | Destroying a state frees bindings only on the thread that made them |
| ComInput.EnsureIdleExact | bindings/js/src/com_input.rs:367-389 | Succeeds exactly for the owner of a subtree without errors and with every binding idle |
| ComInputOperations.Bookkeeping.BindCurrentApartment | bindings/js/src/com_input.rs:153-173 | Succeeds exactly for the owner of a subtree without errors, and then the whole subtree is claimed by the thread; failure leaves claims of that thread only |
| ComInputOperations.Bookkeeping.BindChildren | bindings/js/src/com_input.rs:163-172 | The loop over the pinned children stops at the first that cannot be bound, and claims all their subtrees otherwise |
| ComInputOperations.Bookkeeping.BindNode | bindings/js/src/com_input.rs:153-163 | Succeeds exactly for the owner of a node without an error, and changes nothing but its claim |
| ComInputOperations.Bookkeeping.DeferChild | bindings/js/src/com_input.rs:78-97 | A new, unclaimed child that is not linked yet |
| ComInputOperations.Bookkeeping.InitializeItem | bindings/js/src/com_input.rs:290-302 | The child at an index, old if there was one and new otherwise, is initialized and may be linked under its parent; a readable item fails only for an old child that cannot be bound |
| ComInputOperations.Bookkeeping.InitializeItems | bindings/js/src/com_input.rs:303-329 | Collects the initialized children in order, old ones first, until the first item that fails, and all may be linked together |
| ComInputOperations.Bookkeeping.ReplaceContents | bindings/js/src/com_input.rs:339-351 | The last section sets the children, adds the bindings and records the error, on one node |
| ComInputOperations.Bookkeeping.InitializeWinrt | bindings/js/src/com_input.rs:278-355 | Succeeds exactly when the subtree can be bound; then adds the bindings found and sets the children collected, and records an error exactly when the reading stopped early; claims for this thread only, and touches nothing outside the subtree |
| TsfnTheorems.NoCallAfterRelease | bindings/js/src/managed_tsfn.rs:358-394 | A native call happens only while open and before release and abort of that function |
| TsfnLateCalls.LateExactly | bindings/js/src/managed_tsfn.rs:371-391 | In every run a function is called after it was given up if and only if some caller loaded the pointer before another, answered closing, cleared it, and then called |
| TsfnLateCalls.LateStepExactly | bindings/js/src/managed_tsfn.rs:371-391 | A step makes the first late call if and only if it is a native call after a closing answer |
| TsfnLateCalls.SerialNeverLate | bindings/js/src/managed_tsfn.rs:358-394 | If calls on one function never overlap, none follows any way of giving it up |
| TsfnLateCalls.OverlapCanBeLate | bindings/js/src/managed_tsfn.rs:358-394 | Wherever two calls overlap on a live function before their native calls, whatever happened so far, the run can go on to a late call |
| TsfnLateCalls.OverlappingCallsCanBeLate | bindings/js/src/managed_tsfn.rs:358-394 | Some run does: an instance of OverlapCanBeLate |
| TsfnTheorems.GivenUpAtMostOnce | bindings/js/src/managed_tsfn.rs:162-196 | Released, aborted or consumed by a closing answer: at most one of them, once |
| TsfnTheorems.ClosedExactlyOnce | bindings/js/src/managed_tsfn.rs:99-122 | After close the list is empty and every function ever registered was given up exactly once |
| TsfnClosing.CloseEnds | bindings/js/src/managed_tsfn.rs:99-122 | Once close was called and no call of it is at work any more, the list is empty and every function ever registered was given up exactly once |
| TsfnCreation.CreationFate | bindings/js/src/managed_tsfn.rs:250-349 | When the creating call has returned, its answers tell what is left: refused while closing or failed natively, no function; weak and not unreferenced, one that was aborted unregistered; otherwise one that was registered |
| TsfnDropping.DroppedIsReleased | bindings/js/src/managed_tsfn.rs:187-196 | While open, a function whose last owner was dropped is off the list and given up as soon as the drop returns |
| TsfnTheorems.ListStaysEmpty | bindings/js/src/managed_tsfn.rs:80-86 | The list stays empty in every continuation |
| TsfnTheorems.PayloadDroppedOnce | bindings/js/src/managed_tsfn.rs:358-394 | Each boxed payload is dropped at most once, and is gone exactly when it was |
| TsfnPayloads.PayloadFate | bindings/js/src/managed_tsfn.rs:358-469 | Over every run, from its labels: an accepted payload stays queued, undropped and ready to be delivered until it is delivered, which drops it; a refused one was dropped by its caller; one that is neither has its caller at work |
| TsfnTheorems.FinalizerRunsOnce | bindings/js/src/managed_tsfn.rs:139-153 | A given finalizer has run exactly once if and only if its context was made and since finalized or dropped, and not at all if and only if creation has not made the context yet, was refused while closing, or the context is alive |
| TsfnTheorems.RefusedNeverFinalizes | bindings/js/src/managed_tsfn.rs:259-268 | Creation refused while closing drops the finalizer uncalled: it runs in no continuation |
| TsfnTheorems.LabelPreserves | bindings/js/src/managed_tsfn.rs:71-469 | Every step of create, clone, call, drop, close, delivery and finalization keeps the invariant |
| TsfnTheorems.RunPreserves | bindings/js/src/managed_tsfn.rs:71-469 | So does every run |
| TsfnLifecycle.NativeTsfn.Release | bindings/js/src/managed_tsfn.rs:162-176 | The pointer swap lets only the first caller release or abort |
| TsfnLifecycle.TsfnLifecycle.Register | bindings/js/src/managed_tsfn.rs:80-86 | The handle is added to the list |
| TsfnLifecycle.TsfnLifecycle.Unregister | bindings/js/src/managed_tsfn.rs:88-97 | Removes that handle and no other, and finds it exactly when it is listed |
| TsfnLifecycle.TsfnLifecycle.CloseAndAbort | bindings/js/src/managed_tsfn.rs:99-122 | The first close empties the list and aborts every live function once; later ones change nothing |
| TsfnLifecycle.SwapRemoveExact | bindings/js/src/managed_tsfn.rs:88-97 | Swap-removal loses no other handle |
| ComCompletion.Bounded | bindings/js/src/com_completion.rs:166-186 | No environment ever holds more than 256 records |
| ComCompletion.SettledAtMostOnce | bindings/js/src/com_completion.rs:301-402 | A deferred settles at most once, and a published one is pending, being dispatched, settled, or abandoned by a close, and nothing else |
| ComOutcomes.OperationFate | bindings/js/src/com_completion.rs:349-402 | From the labels after its beginning: an operation whose start failed has rejected its promise exactly once; one given up never settles it; one started undisturbed was published, so it waits, has settled once, or was abandoned by a close of its environment |
| ComOutcomes.BeginExact | bindings/js/src/com_completion.rs:349-360 | Reserves a record for a fresh token, unless the environment has 256 records already |
| ComCompletion.ArmedDropHarmless | bindings/js/src/com_completion.rs:212-222 | Dropping an armed reservation loses no published record |
| ComCompletion.StaleTokenHarmless | bindings/js/src/com_completion.rs:256-267 | A stale token touches no other operation, also when the environment key is reused |
| ComCompletion.TokensStayFresh | bindings/js/src/com_completion.rs:349-402 | A token is never handed out twice and keeps its environment |
| ComCompletion.RunPreserves | bindings/js/src/com_completion.rs:160-402 | Every run keeps the invariant |
| ComCompletion.OwnerTable.EnsureOwnerEnvironment | bindings/js/src/com_completion.rs:230-240 | Adds an environment and changes no other |
| ComCompletion.OwnerTable.TakePendingRecord | bindings/js/src/com_completion.rs:256-267 | Takes the record of a token out of the table, whatever it is |
| ComCompletion.OwnerTable.CloseOwnerEnvironment | bindings/js/src/com_completion.rs:242-254 | Removes the environment and closes the signals of exactly its pending completions |
| ComCompletion.StartReservation.ReserveStart | bindings/js/src/com_completion.rs:166-186 | An armed reservation with its record, or an error and no change |
| ComCompletion.StartReservation.PublishRecord | bindings/js/src/com_completion.rs:188-210 | Disarmed exactly when the record was published |
| ComCompletion.StartReservation.Drop | bindings/js/src/com_completion.rs:212-222 | Removes a record only while armed |
| Fingerprint.StreamInjective | bindings/js/build_support/native_branding.rs:51-78 | Equal streams exactly for equal pairs of maps, whatever the insertion order |
| Fingerprint.StreamReadsBack | bindings/js/build_support/native_branding.rs:51-78 | The stream is uniquely decodable, kind by kind and entry by entry |
| Fingerprint.Canonical | bindings/js/build_support/native_branding.rs:51-67 | Sorted maps with the same contents list the same entries |
| Fingerprint.InsertMaps | bindings/js/build_support/native_branding.rs:51-67 | Insertion into the sorted list is the update of the map |
| Fingerprint.InsertExact | bindings/js/build_support/native_branding.rs:51-67 | Insertion keeps the list sorted and adds no other entry |
| Fingerprint.FeedEntry | bindings/js/build_support/native_branding.rs:68-76 | Five updates of the digest append one frame |
| Fingerprint.FeedEntries | bindings/js/build_support/native_branding.rs:68-76 | The inner loop appends the frames of a map in order |
| Fingerprint.Feed | bindings/js/build_support/native_branding.rs:51-78 | The nested loops feed the specified stream |
| DocumentationDiff.DocumentationDiff | eng/ci/classify_changes.py:13-32 | The while loop with its early returns and errors refines the recursive reading of records |
| DocumentationDiff.PrintedVerdict | eng/ci/classify_changes.py:13-32 | On the printed form of any records: never an error, and true exactly for a non-empty list of documentation changes |
| DocumentationDiff.TrueExactly | eng/ci/classify_changes.py:13-32 | On any text: true exactly for the printed form of such a list |
| DocumentationDiff.SplitTerminated | eng/ci/classify_changes.py:16-18 | Splitting terminated fields gives the fields and one empty last piece |
| DocumentationDiff.TerminateSplit | eng/ci/classify_changes.py:16-18 | Terminating what was split gives the text back |

## Left out

- AsyncTheorems.NoCompletionLost: needs more than an ok or closing answer of every call; taking an accepting queue must be excluded too, because of the run in SomeRunDrops.
- AsyncTheorems.SettledOnce: the deferred may be used up without a settlement when the error object for a rejection cannot be created (counted as missed), and a resolve or reject call that fails natively counts as a settlement. Which of the errors a rejection carries is modelled; the status codes in its text are not.
- AsyncOutcomes.DrainSettles: JavaScript that runs inside one settlement may settle a later item of the list first, so the winner need not be the drain.
- RawLimits.WidthIrrelevant: fixes the pointer size, which the descriptor's pointers take from the host.
- StoredValue.RoundTrip: an object and its proxy in another apartment are the same object; identity of the resolved pointer is not modelled.
- StoredValue.ResolveSucceedsExactly: counts marshalling calls only; an allocation failure while resolving is not modelled.
- RawComTheorems.Conserved: `assumeTransferred` must be told of a slot that really holds a transferred reference, which the code cannot check.
- TsfnTheorems.NoCallAfterRelease: leaves out functions given up by a closing answer to another caller, because that is false; LateExactly says when it does happen.
- Fingerprint.StreamInjective: names and values are shorter than 2^64 bytes, the width of the length field.
- ComInputOperations.Bookkeeping.InitializeItem: what the child itself holds is stated by the call of InitializeWinrt on it, and not repeated for the whole subtree.
- `attach` in `com_input.rs` keeps one of two bindings that share an identity slot; identities are not part of the model, and every binding attached is kept.
- ComCompletion.TokensStayFresh: the counter does not wrap around at 2^64.
- DocumentationDiff.DocumentationDiff: starts from decoded text; a UTF-8 error is not modelled. Lower-casing matters for the two letters of the suffix only.
- Failed creation of a thread-safe function drops its unregistered handle, which takes the read lock a second time on the same thread; it finds nothing to do, and whether it has to wait is not modelled.
- N-API, COM, WinRT, libffi and GDI calls themselves: their answers are parameters.
- The `dynwinrt` crate (`CompletionSignal`, native layout constructors, type handles, borrowed identities) is not part of this model beyond the answers the binding uses.
- The worker pool that collects results, the per-environment dispatcher table and the creation of async contexts and references.
- Liveness: nothing is said about when the JS thread runs, queues deliver, or writers get the lock; lock poisoning and weak memory orderings are not modelled either.
- The schema validators for by-value descriptors, JSON text, and the digest function (section 6.2 of FIPS 180-4).
- Payload kinds of values other than pointers, owned blocks, strings, handles and COM objects: automation values, buffers, storage media.
- The element-kind flag `contains_interfaces` and the copies of bookkeeping in `com_input.rs`, which only reuse the operations modelled here.
- Floating-point access to raw memory, and the conversion of JavaScript numbers to offsets and integers.
- `com_borrowed.rs`, `property_value.rs`, `direct_callback.rs`, `win32_boundary.rs`, `system.rs`, `initialization.rs`, `js_numbers.rs`, `js_storage.rs`: adapters whose properties would only restate their bodies.
