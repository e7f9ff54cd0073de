# Verified models of controller-idioms

controller-idioms is a library of building blocks for Kubernetes controllers: reconcilers that read a
possibly stale cache and issue API calls, a work queue and a manager that drive them, and combinators that
compose them. This project models the parts whose correctness is a matter of whole runs, and proves what
they guarantee against a shared cluster, a shared queue and concurrent callers.

| area | files |
|---|---|
| Server-side apply with field managers | `ServerSideApply.dfy` |
| Adoption of shared objects by many owners | `Adoption.dfy`, `AdoptionEvents.dfy`, `AdoptionRuns.dfy`, `AdoptionRecovery.dfy`, `AdoptionTheorems.dfy`, `AdoptionLimits.dfy`, `AdoptionSchedules.dfy`, `AdoptionClashes.dfy` |
| Finalizers by get-modify-write | `Finalizers.dfy` |
| Components ensured by hash | `Components.dfy` |
| Fake client with two object trackers | `FakeClient.dfy` |
| Work queue, queue operations, worker step | `CacheKeys.dfy`, `WorkQueue.dfy`, `Controller.dfy` |
| Manager lifecycle | `Lifecycle.dfy`, `Manager.dfy` |
| Handlers: chain, middleware, parallel, boxed contexts | `Handlers.dfy`, `TypedContext.dfy`, `Parallel.dfy` |
| Discovery polling, hash-keyed set | `Discovery.dfy`, `HashSet.dfy` |

`dafny verify dfyconfig.toml` checks the whole project.

## How it is modelled

- **Imperative code is imperative.** `Handle`, `GetAddFunc`/`GetRemoveFunc`, `List`, the fake client's `Apply`,
  `processNext`, the queue operations, `Go`, `Cancel`, the drain and the polling loop are methods with loops
  over classes that hold the state. Each is proved equal to a specification function of the state before;
  the theorems are about those functions.
- **Concurrency is interleaving.** A protocol is a state machine whose steps are single API calls, single
  critical sections or single queue calls. Where a method stands for one participant, the others act between
  any two of its steps, as an arbitrary schedule says.
- **Faults are data.** An API call may be applied, be rejected, or be applied and still report a failure; a
  script says which, and theorems hold for every script.
- **Reads are parameters.** A cache or index read is a value. Where a theorem needs it to be fresh, that is
  a hypothesis, and theorems that do not need it do not have it.

Assumptions of the adoption model, all taken from the way the handler is configured: an owner's annotation
key is the common prefix followed by the owner's name; owner field managers differ from the controller's and,
within one namespace, from each other; the controller's manager owns nothing but the controller's labels, and
an owner's manager nothing but that owner's annotation; adopted objects are in their owner's namespace;
owner-prefixed annotations are written only by this handler; others do not take a controller label from an object
that has an owner; the cache and the index hold exactly the objects that carry all the controller's labels.

## Where a property fails, and exactly when

- A label can be stranded: if un-annotating succeeds and un-labelling fails, the label is never retried
  (`FaultStrandsLabel`, `StrandedForever`). A label without owner also stays when the index cannot be read after
  the labelling (`UnreadIndexLeavesLabel`). A cluster without such leftovers stays without them all along a run
  exactly when no Handle of the run stops at one of these two places (`TidyUnlessTorn`, `RunStaysTidy`).
- A Handle without a failing call may leave the owner unsettled: when the referenced object does not exist it
  returns before any clean-up (`MissingAdopteeStopsHandle`, `MissingAdopteeKeepsOld`). It settles the owner exactly
  when its reads succeed or the owner was settled before (`Recovery`).
- "Annotated implies labelled" holds for sequences of Handles, not for all interleavings of their calls
  (`InterleavingHidesOwned`). `InterleavingKeepsVisibility` says exactly which schedules keep it;
  `VisibleUnlessClash` says for which Handles with the same fresh reads all schedules do; and
  `ApartHandlesStayVisible` that Handles which start, read and call at any time do, if none wants an object that
  another one under way releases.
- With two or more matches EnsureComponentByHash does nothing, for good (`DuplicatesAreKept`). It never makes a
  second match itself unless its index lookup fails, and then exactly when the only match has another name and
  the apply goes through (`AtMostOneMatchKept`, `BlindApplyDuplicates`).
- The fake client is one store exactly as long as every operation is an apply, concerns an object that was never
  applied, creates what exists, or writes back the fields a read returns (`RunRefines`, `UpdateAfterApply`);
  `LostUpdate` is a run where it is not.
- `RequeueAPIErr` is documented to wait as the server suggests and to requeue at once otherwise
  (queue/controls.go:122-123). The code drops keys whose error is not retryable (`NoLostRequeue`), and keeps a
  suggested delay only if the rate limiter's own backoff ends no earlier (`SuggestedDelayKept`, `SuggestedDelayLost`).
- A worker that quits releases the key `""` it never took; that duplicates a queue entry exactly when `""` is in
  use (`QuitDuplicatesEmptyKey`, `ReleaseKeeps`).
- A Cancel that overlaps its controller's registration leaves a run that only the root context can stop
  (`OverlapLoses`, `LostForever`); `StepKeepsTracked` says exactly which steps lose a run.
- Everything after a nested Chain is dropped, but is still built (`ChainLaw`).
- Children of Parallel that fill the same box race (`SharedBoxRaces`); any number may read a box that none of them
  fills (`ReadersAreApart`).
- A key whose object part starts with a slash is parsed and cannot be printed back (`PrintParse`).
- `Set.Union` is documented as "common to both sets" (hash/set.go:71); the code builds the union
  (`HashSet.Set.Union`).

## Model

| member | source | states |
|---|---|---|
| ServerSideApply.ApplyCommutes | adopt/adopt.go:237-246 | Forced applies by different managers with disjoint footprints commute, including ownership records and creation of missing objects; "each owner can sync annotations independently" |
| ServerSideApply.ForceApplyExactly | adopt/adopt.go:204-206 | Field management of a forced apply: which fields are live and who owns them afterwards |
| Adoption.OwnerKeysFromMeta | adopt/owners.go:14-33 | Whatever the iteration order, the index keys are exactly the namespaced names of all owner-prefixed annotations, one per annotation |
| Adoption.TextInjective | adopt/adopt.go:217 | The text form of namespaced names is injective for slash-free namespaces |
| Adoption.IndexKeyExact | adopt/owners.go:23-29 | An object is indexed under an owner's key if and only if it is in the owner's namespace and carries that owner's annotation |
| Adoption.ApiServer.Apply | adopt/adopt.go:204-206 | One apply against the cluster with its scripted outcome (applied, rejected, or applied though it reports failure), recorded with what it reported |
| Adoption.Partition | adopt/adopt.go:223-233 | The loop splits the index result into "adoptee found" and the objects no longer referenced, in order |
| Adoption.ClaimsExactly | adopt/adopt.go:204-246 | Target, field manager and fields of the labelling and annotating requests, and the text an owner is looked up by |
| Adoption.ReleaseExactly | adopt/adopt.go:262-302 | Which requests release an object, from its annotations: its own annotation with another value than "owned" is left alone and counts as another owner |
| Adoption.Release | adopt/adopt.go:262-302 | Visiting the annotations in any order makes the same calls: un-annotate if this owner's annotation is there, un-label if no other owner's is, stop at the first failure |
| Adoption.Cleanup | adopt/adopt.go:261-303 | Releases every extra object in turn until a call fails |
| Adoption.PlanPhases | adopt/adopt.go:193-303 | A Handle is labelling, annotating and cleaning up in this order, each starting from what the one before left, cut off at the first failing call |
| Adoption.Handle | adopt/adopt.go:168-306 | The cluster after Handle, the calls it made with what they reported, and the sequence of callbacks, for all reads and all fault scripts |
| Adoption.AttemptReports | adopt/adopt.go:207-210 | A Handle gets through its calls if and only if every call it made reported success |
| Adoption.ReportsArePlan | adopt/adopt.go:207-210 | The calls made are the first of the plan, and only the last one made can have reported a failure |
| AdoptionEvents.HandleTells | adopt/adopt.go:184-306 | The callbacks of a Handle from the calls it made: the adoption is announced if the annotating call reported success, then comes exactly one ending |
| AdoptionEvents.EventsExactly | adopt/adopt.go:184-306 | Next is called, once and last, if and only if all reads succeed and no call reports failure; RequeueAPIErr if and only if a call does; RequeueErr if and only if the cache read, or after good calls the index read, fails; the missing callback if and only if the adoptee is not there; the adopted callback if and only if the annotating call reported success |
| AdoptionRuns.CallKeepsOk | adopt/adopt.go:204-297 | None of the handler's requests gives a manager fields it must not own |
| AdoptionRuns.CallEffect | adopt/adopt.go:244-272 | An owner's annotation changes only by that owner's own annotate and un-annotate calls on that object |
| AdoptionRuns.HandleIsValidProgram | adopt/adopt.go:184-303 | However stale its reads, a Handle sends only its four kinds of request, in its own namespace |
| AdoptionRuns.NonInterference | adopt/adopt.go:237-246 | For every interleaving of the calls of any number of Handles with arbitrarily stale reads, dropping all other owners' calls leaves an owner's annotations the same on every object |
| AdoptionRuns.InterleavingFrame | adopt/adopt.go:204-297 | No interleaving alters any field but the controller's labels and the owner annotations of the owners taking part, nor the ownership rules |
| AdoptionRuns.StepFrame | adopt/adopt.go:204-297 | One call alters nothing outside the controller's labels and its own annotation key |
| AdoptionRecovery.AttemptIsPrefix | adopt/adopt.go:207-210 | A Handle with failing calls leaves what some prefix of its calls leaves; all of them if none failed |
| AdoptionRecovery.IndexIsScan | adopt/adopt.go:217-221 | Under the run invariant the index lookup equals a scan of all annotations in the owner's namespace |
| AdoptionRecovery.ExtrasExact | adopt/adopt.go:225-233 | The extras are exactly the indexed objects other than the adoptee, each once |
| AdoptionRecovery.CleanupStates | adopt/adopt.go:261-303 | Every intermediate state of the clean-up keeps the invariant, and is tidy if and only if it is not between the two calls of one release |
| AdoptionRecovery.CleanupUnannotates | adopt/adopt.go:261-278 | After the clean-up this owner's annotation is gone from exactly the released objects |
| AdoptionTheorems.HandleKeepsInvariant | adopt/adopt.go:193-303 | With any pattern of failures, a Handle on a fresh cache keeps "every object with an owner annotation has all the controller's labels" |
| AdoptionTheorems.RunInvariant | adopt/adopt.go:168-306 | The same over every run of Handles by any owners with any failures, and of changes, creations and deletions by others |
| AdoptionTheorems.TidyUnlessTorn | adopt/adopt.go:193-303 | From a cluster in which the controller holds labels only on owned objects, a Handle with any fresh reads that stops anywhere leaves such a cluster if and only if it does not stop inside a label/annotate or un-annotate/un-label pair, nor after labelling because the index could not be read |
| AdoptionTheorems.RunStaysTidy | adopt/adopt.go:168-306 | Over every run with faults and changes by others, the cluster is tidy after each step if and only if no Handle of the run stops that way |
| AdoptionTheorems.HandleSettles | adopt/adopt.go:217-303 | A Handle that gets through leaves the owner's annotation on exactly the adoptee, or on nothing if there is none |
| AdoptionTheorems.Recovery | adopt/adopt.go:184-303 | After any run with any failures, one Handle without failing calls leaves exactly the adoptee (or nothing) annotated for its owner if and only if its reads succeed or that was so before; the invariant holds in any case |
| AdoptionTheorems.UnreadChangesNothing | adopt/adopt.go:184-221 | A Handle that a read stopped changes no annotation |
| AdoptionTheorems.MissingAdopteeStopsHandle | adopt/adopt.go:193-199 | A Handle whose adoptee does not exist makes no call, reports only that, and leaves the cluster as it is |
| AdoptionLimits.Quiescence | adopt/adopt.go:184-306 | A fresh Handle after a successful one for the same owner and adoptee makes no call, announces nothing and calls Next once, whatever other owners and faults came between |
| AdoptionLimits.StrandedForever | adopt/adopt.go:217-303 | An object without owners keeps whatever labels it has through every later run in which no owner asks for it |
| AdoptionLimits.FaultStrandsLabel | adopt/adopt.go:270-301 | A concrete Handle whose second call fails leaves a label on an object without owner |
| AdoptionLimits.UnreadIndexLeavesLabel | adopt/adopt.go:204-221 | A Handle whose calls all succeed leaves a label on an object without owner when the index read after it fails |
| AdoptionLimits.MissingAdopteeKeepsOld | adopt/adopt.go:196-199 | A concrete Handle without failing call that leaves the owner's annotation on an object it no longer references |
| AdoptionLimits.InterleavingHidesOwned | adopt/adopt.go:240-301 | A concrete interleaving of two Handles with fresh reads leaves an owned object without label |
| AdoptionLimits.CallKeepsVisibility | adopt/adopt.go:240-301 | One call keeps owned objects labelled if and only if it does not annotate an unlabelled object and does not take a label from an owned one |
| AdoptionSchedules.InterleavingKeepsVisibility | adopt/adopt.go:204-297 | An interleaving of any programs keeps owned objects labelled at every moment if and only if each call meets a state in which it is harmless in that sense |
| AdoptionSchedules.OrderlyStaysVisible | adopt/adopt.go:204-297 | Every schedule is such for programs that annotate only labelled objects, unlabel only objects whose single owner they remove just before, and do not unlabel what another annotates, except objects whose labels others own too |
| AdoptionSchedules.FreshIsReady | adopt/adopt.go:184-303 | A Handle that read fresh caches is such a program |
| AdoptionSchedules.ReadIsReady | adopt/adopt.go:217-303 | A Handle that has just read the index is such a program from there on |
| AdoptionSchedules.ApartHandlesStayVisible | adopt/adopt.go:168-306 | Any number of Handles that start at any time, read the cache when they start and the index when they get there, interleave their calls in any way and end anywhere keep owned objects labelled at every moment, if no Handle wants to adopt an object that another one under way releases |
| AdoptionClashes.ControllerCalls | adopt/adopt.go:204-297 | A Handle calls as the controller only to label its adoptee or to take labels away |
| AdoptionClashes.VisibleUnlessClash | adopt/adopt.go:168-306 | For Handles that have read the same fresh caches, every interleaving keeps owned objects labelled if and only if no object that one annotates and another unlabels has a label the controller alone owns |
| AdoptionClashes.ClashHides | adopt/adopt.go:240-301 | In the other case the releaser up to its un-label, the annotator, and the un-label is a schedule that hides an owned object |
| Finalizers.RunKeepsInv | finalizer/finalizer.go:36-110 | In every interleaving of gets and updates of adders and removers with user edits, deletes and creates: no finalizer occurs twice, and a pending write at the live version is exactly the intended change of the live object |
| Finalizers.ModifyExactly | finalizer/finalizer.go:50-94 | An adder writes if and only if the object is not being deleted and lacks the finalizer, which it appends; a remover if and only if the object is being deleted and has it, of which it takes out the first |
| Finalizers.ModifyIsLocal | finalizer/finalizer.go:50-54 | Neither change touches another finalizer, their order, or anything else of the object |
| Finalizers.ClientStepIsLocal | finalizer/finalizer.go:50-102 | A client's step writes only if its read is current; then it adds its own finalizer to an object not being deleted or removes it from one being deleted, and nothing else; an object disappears only with its last finalizer |
| Finalizers.NeverRecreated | finalizer/finalizer.go:34-35 | No client step brings a removed object back |
| Finalizers.GoneForGood | finalizer/finalizer.go:34-35 | An incarnation that is gone stays gone even if users re-create the name while old writes are pending |
| Finalizers.SurvivesUntilRemoved | finalizer/finalizer.go:72-110 | In every run an object holding a finalizer still holds it at the end if and only if no remover of that finalizer has succeeded; refused and pointless updates of removers make no difference |
| Finalizers.OnlyThinsWhileDeleting | finalizer/finalizer.go:50-52 | Once deletion has begun it stays so and the finalizers are only ever thinned out, in order |
| Finalizers.OrderKept | finalizer/finalizer.go:50-94 | Over every run finalizers are only appended until deletion begins, and what is left at any time is in the old order |
| Finalizers.UndisturbedRemover | finalizer/finalizer.go:75-110 | A remover not disturbed between its read and its write leaves the object without its finalizer |
| Finalizers.DeletionFinishes | finalizer/finalizer.go:75-110 | An object being deleted is gone once a remover of each of its finalizers has got through undisturbed, in any order and whatever happens in between |
| Finalizers.ApiServer.GetModifyWrite | finalizer/finalizer.go:36-110 | Outcome of one get-modify-write with any interference between read and write: not found, nothing to do, refused if and only if the version read is no longer live (then nothing changes), or written; without interference an adder of a missing finalizer and a remover of a present one always write, and the stored object is spelled out |
| Components.List | component/component.go:56-73 | The objects of the index that have labels and match the selector, in order; nothing if the index fails |
| Components.ListingExactly | component/component.go:63-72 | Listed are exactly the indexed objects that have labels the selector accepts |
| Components.ListIsCoherent | component/component.go:56-73 | From a coherent index result List is exactly the component's objects, each once, as they are |
| Components.Partition | component/ensure_component.go:61-73 | The loop's two lists, with objects without annotations put in the second one in addition |
| Components.DeleteExtras | component/ensure_component.go:86-94 | Deletes in order until one fails |
| Components.Handle | component/ensure_component.go:54-96 | Cluster, calls and requeue after one Handle, for all listings and fault scripts; it requeues if and only if one of its calls was not reported done |
| Components.RequeuesExactly | component/ensure_component.go:75-95 | A Handle goes on as long as its calls are reported done and requeues if and only if its last call was not: rejected, failed after it was done, or a delete of an object that is not there |
| Components.ApplyAnswered | component/ensure_component.go:77-81 | What the server answers to an apply |
| Components.DeleteAnswered | component/ensure_component.go:87-93 | What the server answers to a delete |
| Components.MatchesExactly | component/ensure_component.go:64-68 | An object matches if and only if its hash annotation, or the empty string for want of one, is the hash |
| Components.ExtraCount | component/ensure_component.go:65-72 | An object is put up for deletion once for having no annotations and once more for not matching |
| Components.MatchCount | component/ensure_component.go:68-75 | On a coherent listing the handler's count of matches is the number of live matches |
| Components.ExtraExact | component/ensure_component.go:63-73 | An object is up for deletion if and only if it does not match or has no annotations at all; a match of the latter kind means an empty hash |
| Components.HandleIsSafe | component/ensure_component.go:61-95 | With any failures a delete is issued only while exactly one match exists and never names it, matches stay, objects outside the component other than the one under the new object's name are untouched, and a non-empty component stays non-empty |
| Components.IndexedHandleIsSafe | component/component.go:56-73 | The same from the index lookup on, which may fail |
| Components.AtMostOneMatchKept | component/ensure_component.go:54-82 | At most one match stays at most one if and only if the index lookup succeeds, or the only match is under the new object's name, or the apply is rejected |
| Components.BlindApplyDuplicates | component/ensure_component.go:54-82 | A concrete failed index lookup after which there are two matches |
| Components.NeverEmptied | component/ensure_component.go:54-96 | Over every run with changing specs, failing index lookups and any failing calls, a non-empty component never becomes empty |
| Components.DeleteProgress | component/ensure_component.go:65-94 | Deleting the extras either clears them or, stopped by deleting an object a second time, has removed at least one object |
| Components.CreateProgress | component/ensure_component.go:75-82 | A Handle without match creates exactly one and adds no extra |
| Components.PruneProgress | component/ensure_component.go:84-95 | A Handle with one match keeps it and strictly shrinks the extras |
| Components.HandleProgress | component/ensure_component.go:54-96 | From at most one match, each Handle strictly decreases a measure until the component is one object with the computed hash, and then makes no call |
| Components.FaultyHandle | component/ensure_component.go:54-96 | Whatever fails, a Handle with a coherent index result keeps at most one match and does not increase that measure |
| Components.Convergence | component/ensure_component.go:54-96 | With coherent index results, a series of Handles containing as many fault-free ones as that measure says, among any number with failing calls, converges, although objects without annotations are deleted twice |
| Components.DuplicatesAreKept | component/ensure_component.go:75-95 | With two or more matches nothing happens |
| FakeClient.Client.Apply | client/fake/fake.go:256-318 | Both trackers and the result after one Apply |
| FakeClient.Client.PatchApply | client/fake/fake.go:358-382 | An apply patch gives the state and result of the corresponding Apply; undecodable data is refused without effect; without force set to true it is refused if and only if another manager owns a field whose value the patch changes |
| FakeClient.Client.React | client/fake/fake.go:531-618 | The reactor gives the same state and result as the resource client's patch, with the same meaning of the force option |
| FakeClient.PatchExactly | client/fake/fake.go:256-382 | An apply patch from fields and owners: refused, with reads unchanged, if and only if not forced and in conflict; otherwise the patch is live, owned by its manager, who owns nothing else, and what others own or nobody gave up stays |
| FakeClient.ApplyRefines | client/fake/fake.go:264-317 | Apply on the two trackers is apply on one store, conflict or not, and success leaves both holding the returned object |
| FakeClient.UpstreamRefines | client/fake/fake.go:326-340 | Create, Update and Delete agree with one store if and only if the object was never applied, or it is a create of what exists, or an update that writes the fields a read returns |
| FakeClient.RunRefines | client/fake/fake.go:256-382 | The trackers act as one store at every operation of a run if and only if every operation is of that kind or an apply; then all results and the final store are those of one store |
| FakeClient.AppliesLastAgree | client/fake/fake.go:256-382 | Runs in which each object sees only applies after its first apply are such runs |
| FakeClient.ReadsAgree | client/fake/fake.go:346-348 | A read finds an object if and only if the single store has it, with the same fields |
| FakeClient.UpdateAfterApply | client/fake/fake.go:330-340 | After an apply, an update agrees with one store, where owners of unchanged fields stay, if and only if it writes the fields a read returns, and a delete never does |
| FakeClient.LostUpdate | client/fake/fake.go:268-315 | A concrete apply, update, apply in which the update is lost |
| FakeClient.MisnamedApply | client/fake/fake.go:280-290 | Applying a configuration that names another object changes that object in one tracker only and returns the one asked for |
| CacheKeys.RoundTrip | cachekeys/keys.go:17-47 | Splitting a built key returns what it was built from if and only if resource and version have no dot, the printed resource has no "::" and does not end in ":", and namespace and name have no slash |
| CacheKeys.PrintParse | cachekeys/keys.go:17-47 | Printing a parsed key gives it back if and only if its object part does not start with a slash |
| CacheKeys.KeyerInjective | cachekeys/keys.go:17-19 | The printer is injective on such keys |
| CacheKeys.KeyFormat | cachekeys/keys.go:17-19 | The format of a key: resource.version.group::namespace/name, without a namespace resource.version.group::name |
| CacheKeys.SplitFails | cachekeys/keys.go:34-47 | Splitting fails if and only if there is no "::", fewer than two dots before the first one, or two slashes after it |
| CacheKeys.ParsePrefix | cachekeys/keys.go:40-44 | The printed resource parses back if and only if resource and version have no dot |
| CacheKeys.SeparatorPosition | cachekeys/keys.go:35-39 | The key is cut at the printer's own separator if and only if the part before has none and does not end in a colon |
| WorkQueue.RunKeepsInv | manager/controller.go:127-169 | In every run of any number of workers, informers, timers and a shutdown, the queue holds each due key once and no key is with two workers |
| WorkQueue.StepIsFifo | manager/controller.go:133 | Keys are handed out in the order in which they became due |
| WorkQueue.ReleaseKeeps | manager/controller.go:133-136 | A release keeps that invariant, except for a quitting worker if and only if the empty string is a key in use |
| WorkQueue.QuitDuplicatesEmptyKey | manager/controller.go:133-136 | A concrete run in which the quitting worker leads to a duplicate entry |
| WorkQueue.ScriptAsks | queue/controls.go:98-135 | The queue calls of a series of operations ask for the key if and only if one of the operations is a requeue, where RequeueAPIErr is one if and only if the error is retryable |
| WorkQueue.OperationLeaves | queue/controls.go:98-135 | What each operation leaves of a key that was not pending: when it is ready and its failure count, for Done, Requeue, RequeueErr, RequeueAfter and RequeueAPIErr |
| WorkQueue.ShouldRetry | queue/retry.go:12-25 | Every error is retried except the one without any transient reason, and a delay comes only from the server's suggestion |
| WorkQueue.FailuresAreTallied | queue/controls.go:98-135 | While a key is synced its failure count is the number of rate-limited requeues since it was last forgotten, whatever others do |
| WorkQueue.NoLostRequeue | manager/controller.go:132-169 | Whatever other workers, informers and timers do meanwhile, on a queue that is not shut down and does not use the empty string as a key, when processNext returns the key is pending if and only if it was waiting, was added meanwhile, or a requeue operation was called; it has left processing and its failure count is zero |
| WorkQueue.ShutdownWhileSyncing | manager/controller.go:132-169 | If the queue is shut down during the sync, the key is in the queue at the end if and only if it had become due before, and waits only if it did then; due or waiting then if and only if it was waiting when taken or asked for before the shutdown |
| WorkQueue.ShutdownWhileReleasing | manager/controller.go:133-166 | The same for a shutdown between done() and the release |
| WorkQueue.ProcessingHappens | manager/controller.go:132-169 | Every key that parses gives rise to such a processNext |
| WorkQueue.HeldThroughout | manager/controller.go:132-169 | At every moment until the release the key is in processing, held by this worker alone |
| WorkQueue.SkippedKey | manager/controller.go:139-143 | A key that cannot be parsed is released, with its failure count, and comes back only if it was waiting or is added |
| WorkQueue.PendingUntilTaken | manager/controller.go:127-169 | In every run a pending key stays pending until it is handed out |
| WorkQueue.SuggestedDelayKept | queue/controls.go:124-135 | Whatever others do between its two requeues, the wait the server suggested is kept all along if and only if the key was not due earlier, nobody adds it before, and the rate limiter's backoff ends no earlier |
| WorkQueue.SuggestedDelayLost | queue/controls.go:124-135 | A suggested wait of ten seconds cut to a backoff of five milliseconds |
| Controller.SharedQueue.Interfere | manager/controller.go:118-121 | Other workers, informers and timers act between two calls of this worker |
| Controller.SharedQueue.Perform | manager/controller.go:152-160 | One queue call for the current key, after any interference |
| Controller.Operations.Done | queue/controls.go:98-101 | Makes exactly the forgetting call and cancels the context |
| Controller.Operations.RequeueAfter | queue/controls.go:104-107 | Makes the delayed call (rate limited for a zero delay) and cancels the context |
| Controller.Operations.Requeue | queue/controls.go:110-113 | Makes the rate-limited call and cancels the context |
| Controller.Operations.RequeueErr | queue/controls.go:116-120 | Records the error, makes the rate-limited call, cancels the context |
| Controller.Operations.RequeueAPIErr | queue/controls.go:124-135 | Records the error and makes the calls of all branches it falls through, ending with the forgetting call |
| Controller.Sync | manager/controller.go:164 | Any series of operations makes the calls of its parts in order; the reported error is the last one recorded |
| Controller.ProcessNext | manager/controller.go:132-169 | The four ways it can end, the resulting queue state as a run of the protocol, context cancelled, last error kept, and the pending equivalence of NoLostRequeue |
| Lifecycle.RunKeepsSound | manager/manager.go:68-186 | In every interleaving the registry holds registered runs under their own controllers and cancellation has reached every derived context |
| Lifecycle.NothingLiveAfterRoot | manager/manager.go:108-117 | After the root context is cancelled no run has a live context, including those that start or register later |
| Lifecycle.RootExactly | manager/manager.go:77-117 | Start has an effect once and makes a root context that is done if the caller's is; cancelling it ends every context there is, and the drain waits for it |
| Lifecycle.StepKeepsTracked | manager/manager.go:153-184 | A step keeps every unstopped registered run in the registry if and only if it does not overwrite or delete the entry of an unstopped run |
| Lifecycle.DisciplineIsHarmless | manager/manager.go:153-184 | If each controller is added once and no Cancel of it is in flight when it registers, no step is of that kind |
| Lifecycle.StepKeepsDisciplined | manager/manager.go:139-186 | What those two rules make of the state is kept by every step |
| Lifecycle.RunKeepsGood | manager/manager.go:68-186 | In every such interleaving every registered, unstopped run is in cancelFuncs under its controller |
| Lifecycle.DrainStopsAll | manager/manager.go:112-117 | In every such run of a manager the drain stops every run registered before it and empties the registry |
| Lifecycle.CancelStops | manager/manager.go:171-184 | When Cancel is through with a controller, every run of it registered before is stopped and its entry gone |
| Lifecycle.LostForever | manager/manager.go:153-184 | A run neither in the registry nor known to an in-flight Cancel stays so, and only cancelling the root ends its context |
| Lifecycle.OverlapLoses | manager/manager.go:153-184 | A Cancel that reads before and deletes after the registration makes such a run |
| Lifecycle.OverlapHappens | manager/manager.go:139-168 | The situation that takes is reachable |
| Manager.Shared.Go | manager/manager.go:139-168 | Its steps in order and a run for each launched controller; refused if and only if the manager is not started at its first step; stopped early if and only if a check after a launch finds the context done, so that success means every check found it live |
| Manager.Shared.LaunchOne | manager/manager.go:150-164 | One round of the loop: a launch and a check |
| Manager.Shared.LaunchAll | manager/manager.go:150-164 | The loop: all launched, or stopped by the first check that finds the context done |
| Manager.Shared.Cancel | manager/manager.go:171-186 | Its steps in order for every controller; if callers keep the rules, all runs of these controllers registered before the call are stopped after it, whatever happened in between |
| Manager.Shared.CancelOne | manager/manager.go:173-184 | The same for one controller |
| Manager.Shared.DrainFuncs | manager/manager.go:112-117 | The loop over the map, in any order, has the effect of the atomic drain step |
| Handlers.ToSet | handler/handler.go:69-75 | Exactly the ids of the list, each with the last handler that has it |
| Handlers.MustFind | handler/handler.go:85-91 | Panics if and only if no handler has the id, otherwise returns the last that has |
| Handlers.MustOneExactly | handler/handler.go:95-100 | MustOne returns the handler of a list of one and panics on any other list |
| Handlers.BuildChain | handler/chain.go:8-16 | The backward loop builds the right fold of the children, whatever next handlers are given |
| Handlers.ChainLaw | handler/chain.go:8-16 | A chain nested in a chain runs in place and everything after it is dropped, for all lists; building panics if and only if the dropped part, or what is kept, does |
| Handlers.ChainNeverPanics | handler/handler.go:95-100 | MustOne never fails on what Chain passes |
| Handlers.ChainTrace | handler/chain.go:8-16 | A chain of stages that emit and then call next, possibly with another context, or stop, does for every context what running the stages in order does |
| Handlers.ApplyMiddleware | middleware/middleware.go:55-61 | The loop is the left fold of the middlewares over the composer |
| Handlers.MiddlewareNests | middleware/middleware.go:31-61 | For any composer the middlewares only rewrite its builders, wrapping by the last listed first |
| Handlers.NestAt | middleware/middleware.go:46-52 | The nested wrappers build what the composite of all middlewares makes of the builder's handler |
| Handlers.FirstIsOutermost | middleware/middleware.go:55-61 | In that composite the first listed middleware is outermost |
| Handlers.MiddlewareFusion | middleware/middleware.go:31-61 | A composer that depends only on what its builders do gives the same with every builder wrapped once by the composite |
| Handlers.ChainIsExtensional | handler/chain.go:8-16 | Chain depends only on what its builders do with one next handler |
| Handlers.ChainWithMiddleware | middleware/middleware.go:22-24 | ChainWithMiddleware chains the builders each wrapped once |
| TypedContext.WriteIsLocal | typedctx/context.go:162-169 | A set value is read back in the resulting context, and in any other context if and only if the nearest box there is the filled one; nothing else changes, and other keys keep their value in the resulting context |
| TypedContext.BoxIsLocal | typedctx/context.go:171-173 | A new box shows the default and changes nothing for existing contexts or other keys |
| TypedContext.LookupExactly | typedctx/context.go:121-127 | A key that nothing binds yields its default, a bound one the value of the nearest binding |
| TypedContext.Store.Value | typedctx/context.go:175-181 | The nearest binding's value, or the default |
| TypedContext.Store.WithBox | typedctx/context.go:171-173 | A box at an address not used before |
| TypedContext.Store.WithValue | typedctx/context.go:162-169 | Fills the nearest box in place, or binds a new one |
| Parallel.Barrier | handler/parallel.go:18-28 | Under every schedule the counter is the number of unfinished children, so next starts only when all children have been forked and have finished |
| Parallel.ChildReadsBack | typedctx/context.go:162-181 | A child reads in the resulting context the value it set |
| Parallel.ChildReadsDefault | typedctx/context.go:171-181 | A child reads the default from a box it made |
| Parallel.Projection | handler/parallel.go:18-28 | If alone each child fills only boxes given to it and reads only those and boxes given to nobody, then under every schedule it reads, allocates and writes what it does alone, and the boxes of nobody keep their values |
| Parallel.KeysApartSeparates | handler/parallel.go:18-28 | If each key boxed before the fork is used by at most one child or only read, whatever the children read, then each child alone keeps to that rule |
| Parallel.SequentialHeap | handler/parallel.go:18-28 | What running the children one after the other leaves in every box |
| Parallel.ParallelIsSequential | handler/parallel.go:12-32 | Under every schedule that reaches next, next finds under every key what a sequential run leaves, and every child ends as it does alone |
| Parallel.KeysApartIsSequential | handler/parallel.go:12-32 | The same for children that use each boxed key in one child only, or only read it |
| Parallel.ReadersAreApart | handler/parallel.go:12-32 | Children that fill none of the boxes they find, and may all read the same ones, are such children |
| Parallel.UnboxedWritesStayInside | typedctx/context.go:162-169 | A key without a box in the common context yields for next what it did before |
| Parallel.UntouchedBoxesKeep | handler/parallel.go:18-28 | So does a key whose box is given to no child |
| Parallel.SharedBoxRaces | handler/parallel.go:18-28 | Two children filling one box leave the value of whichever wrote last |
| Discovery.Waiter.constructor | bootstrap/crds.go:101-114 | The map holds exactly the served group-version and plural pairs, without empty sets |
| Discovery.Waiter.Poll | bootstrap/crds.go:120-139 | A successful poll removes exactly what it lists, keeps no empty set and is done if and only if nothing remains; a failed one changes nothing and is never done |
| Discovery.Waiter.Strike | bootstrap/crds.go:127-135 | Removes exactly the listed names of one group-version, and its entry when empty |
| Discovery.RequiredExactly | bootstrap/crds.go:102-113 | Waited for are the plurals of the served versions, under group/version, or version alone for the core group |
| Discovery.WaitForDiscovery | bootstrap/crds.go:100-140 | After every sequence of polls what remains is what is required and unseen; waiting ends with the first successful poll by which everything has been seen |
| HashSet.InsertedMeaning | hash/set.go:7-32 | Insertion keeps every key the hash of its value and adds exactly the hashes of the objects |
| HashSet.LastWins | hash/set.go:27-32 | The last object with a hash is the one stored, and entries nobody replaces stay |
| HashSet.UnionAndIntersection | hash/set.go:47-81 | Sizes of union and intersection add up, difference and intersection make up the receiver, and the receiver's values win |
| HashSet.EqualElementsExact | hash/set.go:84-96 | Equal length and one-way containment hold if and only if the key sets are equal |
| HashSet.EqualKeysEqualObjects | hash/set.go:93-96 | With an injective hash that means equal sets of objects |
| HashSet.Set.Insert | hash/set.go:27-32 | Later objects replace earlier ones with the same hash; keys stay hashes |
| HashSet.Set.Delete | hash/set.go:35-40 | Removes exactly the hashes of the given objects |
| HashSet.Set.Has | hash/set.go:16-24 | True if and only if the hash of every given object is present |
| HashSet.Set.Intersect | hash/set.go:50-58 | The receiver's entries whose hash the other has; keys stay hashes |
| HashSet.Set.SetDifference | hash/set.go:61-69 | The receiver's entries whose hash the other lacks; keys stay hashes |
| HashSet.Set.Union | hash/set.go:72-81 | All entries of both, the receiver's where both have one; keys stay hashes |
| HashSet.Set.EqualElements | hash/set.go:84-96 | True if and only if the key sets are equal |
| HashSet.Set.Pop | hash/set.go:100-107 | Takes out one element, whichever, or reports an empty set |
| HashSet.Set.PopAll | hash/set.go:100-107 | Popping yields every element exactly once in exactly as many steps as there are elements |

## Left out

- The Kubernetes API server, informers, work queue, rate limiter and context packages are not modelled beyond the contracts written at the top of `ServerSideApply.dfy`, `WorkQueue.dfy`, `Lifecycle.dfy` and `TypedContext.dfy`.
- OpenAPI type conversion, JSON decoding and dry runs in the fake client; conversions are taken to be lossless, and undecodable data is a case of its own.
- Delays: the length of rate-limited backoffs and polling intervals are parameters; only the order of ready times is modelled.
- Panics in `sync` or in handlers, and handlers that go on using queue operations after `sync` has returned.
- The deletion of labels from the local copy in adopt/adopt.go:286-289, which no call sends anywhere.
- Finalizers, owner references and resource versions of component objects: a delete removes the object at once.
- The id string that Parallel builds from its children's ids (handler/parallel.go:13-16), and Parallel as the composer of a middleware: `MiddlewareFusion` covers any composer that depends only on what its builders do, and that hypothesis is proved for Chain.
- Start as a method: its first-call-only guard and the group it makes are the `Init` step of `Lifecycle`, its drain goroutine is `Manager.Shared.DrainFuncs`; its return value and the readiness channel are not modelled.
- Health checkers, the event broadcaster, the debug server and the group's error result in manager/manager.go.
- hash/hash.go, fileinformer, static, pause, conditions, finalizer/set_finalizer.go, typed, healthz, metrics, logging middleware, client/rest.go and bootstrap/resource.go: thin wrappers, foreign hashing, file watching and small branch tables that would only add easy members.
