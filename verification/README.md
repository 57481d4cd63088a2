# Module loader, bytecode cache and capture analysis

A Dafny model of three parts of a JavaScript runtime, with proofs of what they promise.

**The module loader** (`src/esm_loader.js`) follows the Cyclic Module Record algorithms of ECMA-262, sections
16.2.1.5 and 16.2.1.6. A `ModuleGraph.Graph` is the part of all module records that loading fills in; the rest of a
record is an object whose fields the loader updates in place (`Records.ModuleRecord`, kept in a `Records.Registry`).
Loading, linking, export resolution and evaluation are methods that change these objects, with the source's stacks,
visited lists and counters. A registry carries a ghost value, the `State`, that follows its fields; the functions of
`Evaluation` say what each step of evaluation does to that value, the methods of `Evaluator` are proved to do just
that to the objects, and the lemmas are about runs of the value. A module body is an oracle: it ends at once, throws
at once (the map `fails` of a `World`), or suspends on a promise that a later step settles. A run
(`Runs.Run`) is any sequence of link calls, calls of `evaluate`, and settlements of suspended bodies with their
callbacks, each taken when no other code of the loader is running.

Two hypotheses of the loader are explicit, and the code meets its promises exactly when they hold:

* H1, every load has succeeded (`Linker.LoadsSucceeded`): a record is marked as loaded before its requests have been
  loaded, so a load that throws leaves records half loaded. `Loader.LoadGraph` proves that H1 survives a load if and
  only if the load succeeds or changes nothing.
* H2, no call of `evaluate` throws past a module that an unsettled module already lists as a waiting parent
  (`!EvaluateCall.Strands`). `EvaluateCall.EvaluateRests` proves that the loader's invariants survive a call if and
  only if the call does not do this, and `Failures.UnluckyCrashes` is a linked graph of three modules on which it
  happens and on which a later fulfilment crashes. `SafeCalls.SafeNeverStrands` gives a condition a caller can check
  beforehand, from the graph, the records and the bodies that throw.

**The bytecode cache** (`src/cache.rs`): one process's view of the shared shard (`Shard`), what a program looks like
when it comes back from it (`CachedProgram`), and any number of processes that take a stamp, read, store, look at the
file again and rename a new image into place, in any interleaving (`CacheProtocol`); `StaleOverwrite` is an
interleaving in which a rename puts an old entry back over a newer one.

**The capture analysis** (`src/capture.rs`) is the side condition under which the compiler leaves out the copy of a
loop's environment in each iteration (`compile_for` in `src/compiler.rs`). `Ast` is the analysis, `LoopSemantics` an
interpreter with environments, closures, exceptions, labels and `eval` that copies or shares as the compiler does,
and `LoopSharing` proves that the two give the same results for every program; `CapturingLoop` is a loop that does
capture, and on which they differ. `CaptureSites` proves that the analysis says "captures" for no other code than it
must, and `SharedLoops` what sharing saves.

How the files build on each other: `ModuleGraph`, `Exports`, `ExportRules` (what the entries of a record mean, one
kind at a time); `Scc` (depth-first search by itself), `Records`, `Linker`, `ImportSlots`, `Loader`; `Evaluation`, `AsyncState` (the invariants), `Wake` (settlements), `Descend`, `Ascend` and
`EvaluateCall` (calls of `evaluate`), `Moves`, `Runs`; `Failures`, `Blame` (where errors come from), `HostEntry`,
`SafeCalls`, `BodyEntry` (the states inside a step in which a body has just been entered), `Slots`, `Environments`,
`CycleSibling`, `Evaluator`, `Host`. Then `CachedProgram`, `Shard`, `CacheProtocol`, `StaleOverwrite`; and `Ast`,
`CaptureSites`, `LoopSemantics`, `LoopLaws`, `Privacy`, `LoopSharing`, `CapturingLoop`, `SharedLoops`.

## Model

| member | source | states |
|---|---|---|
| Exports.Walk.ResolveExport | src/esm_loader.js:144-184 | One recursive call, with the visited list all calls share: it adds only reachable queries, which agree with its answer and are fully explored; the answer is backed by reachable bindings; it ends on every cyclic graph of re-exports |
| Exports.Walk.ResolveStars | src/esm_loader.js:163-183 | The loop over star exports: the same for the merged answers, an ambiguity ending it |
| Exports.Walk.GetExportedNames | src/esm_loader.js:127-141 | One recursive call: it lists only exported names, its own names always, and leaves nothing unlisted behind what it has visited |
| Exports.CoveredIsMeaning | src/esm_loader.js:144-184 | When everything reachable has been covered, the answer is the declarative one: nothing reachable, exactly one binding, or two different ones |
| Exports.MeaningUnique | src/esm_loader.js:144-184 | The three answers exclude each other |
| Exports.Resolve | src/esm_loader.js:144-184 | `resolveExport(m, n, [])` is null, one binding or ambiguous exactly as none, one or several bindings are reachable over (module, name) pairs |
| Exports.ExportedNames | src/esm_loader.js:127-141 | `getExportedNames(m, [])` is exactly the own names and the names other than `default` that star-reachable modules declare, without repetition |
| Exports.ResolvableIsExported | src/esm_loader.js:127-184 | Every name that resolves, or is ambiguous, is in the list of exported names |
| Exports.NamespaceEntries | src/esm_loader.js:211-219 | The keys of a namespace are exactly the names that resolve to one binding, each with that binding |
| Exports.FoundIsLocal | src/esm_loader.js:153-158 | A found binding is a local export of the module it names, which the query reached |
| ExportRules.LeadsFollows | src/esm_loader.js:144-184 | What a query leads to is what the record's entries say, kind by kind: a local export, a re-export asked under its import name, `export * as`, star exports for names not declared and not `default`, the names of a synthetic module |
| ExportRules.LeadsLeast | src/esm_loader.js:144-184 | And nothing else: any set of answers that the entries keep contains it, on cyclic graphs too |
| ExportRules.ReExportLeads | src/esm_loader.js:164-169 | `export { a as n } from` leads to what the requested module leads to under `a` |
| ExportRules.NamespaceLeads | src/esm_loader.js:164-168 | `export * as n from` leads to the requested module's namespace and nothing else |
| ExportRules.StarLeads | src/esm_loader.js:170-184 | A name the module does not declare leads to what its star exports lead to under the same name, and `default` to nothing |
| ExportRules.LocalLeads | src/esm_loader.js:161-163 | A local export leads to its local binding and nothing else |
| ExportRules.SyntheticLeads | src/esm_loader.js:145-153 | A synthetic module's query leads to the name itself if it is on its list, and to nothing else |
| ExportRules.ExportedByEntries | src/esm_loader.js:127-141 | A name is listed exactly when an entry of the module declares it, or it is not `default` and a module it star-exports lists it |
| ExportRules.ExportedLeast | src/esm_loader.js:127-141 | And for no other reason: any set of names that the entries keep contains the list |
| Scc.ChildDone | src/esm_loader.js:286-291 | A request that has left the search keeps the depth-first invariant, its stack and low-links included |
| Scc.ChildOnStack | src/esm_loader.js:288-290 | A request still on the stack keeps it when the low-link is lowered to the request's |
| Scc.SegmentIsComponent | src/esm_loader.js:293-301 | When a record's low-link is its own number, the stack above it is one whole strongly connected component |
| Scc.PopComponent | src/esm_loader.js:293-301 | Popping that segment ends the call in order |
| Linker.ComponentOnCycle | src/esm_loader.js:302-305 | The test made of a popped component, two members or a request of itself, holds if and only if its members lie on an import cycle |
| Linker.LinkWalk.InitializeEnvironment | src/esm_loader.js:337-377 | Succeeds if and only if every named re-export and every import resolves to one binding; then the slots are those bindings, else nothing has changed |
| Linker.CheckReExports | src/esm_loader.js:347-350 | Succeeds if and only if every re-export by name resolves to one binding |
| Linker.ResolveImports | src/esm_loader.js:351-374 | Succeeds if and only if every import resolves to a namespace or to one binding; then it lists, in order, what each import reads |
| Linker.LinkWalk.PopAndBuild | src/esm_loader.js:294-313 | The popped records are linked; they are generators with environments if and only if the test for a cycle holds; no other record changes |
| Linker.LinkWalk.InnerModuleLinking | src/esm_loader.js:278-315 | One call of the search: records on the stack are those being linked, components leave whole, a failure names an unresolvable record |
| Linker.LinkWalk.LinkRequests | src/esm_loader.js:286-291 | The loop over the requests of a record keeps the invariant of its call, or fails below it |
| Linker.LinkSucceeded | src/esm_loader.js:268-276 | After a successful search from an empty stack nothing is half linked and everything reachable is linked |
| Linker.LinkFailed | src/esm_loader.js:272-275 | After a failure, returning exactly the stacked records to `unlinked` leaves nothing half linked and the linked records closed under requests |
| Linker.Link | src/esm_loader.js:268-315 | `link(m)` succeeds if and only if no unlinked record below `m` is unresolvable; each component popped is one strongly connected component, named once, together they are what was linked, generators exactly on cycles, each environment made is new and belongs to one module; also after a failure nothing is left `linking` |
| ImportSlots.NamespaceSlot | src/esm_loader.js:359-365 | On a linked record, the slot of a named import is the namespace of z exactly when the name leads, through whatever re-exports, to an entry `export * as ... from` that requests z |
| ImportSlots.BindingSlot | src/esm_loader.js:359-374 | And it is a binding exactly when the name leads to a local export, or to a synthetic module's name, with that binding |
| ImportSlots.StarImportSlot | src/esm_loader.js:353-358 | The slot of `import * as` is the namespace of the module requested |
| Loader.LoadGraphFrom | src/esm_loader.js:112-123 | A recursive call loads everything below its record but for the calls in progress, or stops at a request that does not resolve below a marked record |
| Loader.LoadGraph | src/esm_loader.js:112-123 | A load succeeds if and only if the requests of everything still to be loaded resolve, and has then loaded everything reachable; H1 holds afterwards if and only if the load succeeded or changed nothing |
| AsyncState.UnfinishedReachesRoot | src/esm_loader.js:477-500 | A waiting or failed member of a cycle keeps the cycle's root waiting or failed |
| AsyncState.FinishedReach | src/esm_loader.js:472-502 | Everything a finished module reaches is finished without error |
| AsyncState.FineRootFinished | src/esm_loader.js:477-500 | When a cycle's root is settled without error, everything the cycle reaches is |
| AsyncState.SomeBodyRuns | src/esm_loader.js:481-491 | Below an unsettled module whose cycle has no error some module is suspended in its own body with nothing pending |
| Wake.GatherOk | src/esm_loader.js:519-529 | The walk over ancestors never meets a missing cycle root, changes counts only, lists each ready ancestor once, and leaves every count equal to the occurrences still to come |
| Wake.SortOk | src/esm_loader.js:538 | The list is sorted by asynchronous order and keeps its members |
| Wake.FirstIsFree | src/esm_loader.js:538-541 | The first of the sorted list is waited upon by no unsettled child: its dependencies come before it |
| Wake.RunReadyOk | src/esm_loader.js:539-554 | One turn of the loop over the list keeps all invariants, whatever the body does |
| Wake.FailModuleOk | src/esm_loader.js:557-564 | In any state the rejection ends, marks only ancestors, and logs one rejection for each pending capability it settles |
| Wake.LateSettle | src/esm_loader.js:532 | A body that ends after its module has failed changes nothing else |
| Wake.SettleOkWakes | src/esm_loader.js:531-555 | A fulfilment completes its module, gathers without failing, and hands the loop a list it can run in order |
| Wake.SettleOkQuiescent | src/esm_loader.js:531-555 | Every fulfilment leads from one quiescent state to another and never crashes |
| Wake.SettleErrorQuiescent | src/esm_loader.js:557-564 | So does every rejection |
| Descend.AfterRequestOk | src/esm_loader.js:473-485 | What a module does with a request that has returned (lower its low-link, take its error, count it and register as its parent) keeps the invariants of the search |
| Descend.MayRun | src/esm_loader.js:486-492 | A module with nothing pending at the end of its loop has every request outside its cycle, and all below it, completed |
| Descend.RunBodyOk | src/esm_loader.js:486-492 | Running the body, or waiting with the next order number, keeps the invariants, and a throw leaves what unwinding needs |
| Ascend.PopCall | src/esm_loader.js:493-501 | Popping a component gives its members one cycle root and keeps the invariants: the popped segment is a strongly connected component |
| Ascend.WalkOk | src/esm_loader.js:456-503 | The whole depth-first evaluation, by induction over the calls: it returns with every invariant, or throws with the records a catch can unwind |
| EvaluateCall.EvaluateReturns | src/esm_loader.js:401-428 | Without a throw the loader is at rest, and the promise handed out is resolved, or pending if the target is now evaluating asynchronously |
| EvaluateCall.EvaluateThrows | src/esm_loader.js:415-426 | After a throw that strands no parent the loader is at rest, and the promise is rejected with the error thrown |
| EvaluateCall.EvaluateRests | src/esm_loader.js:401-428 | A call of `evaluate` leaves the loader at rest, with every invariant, if and only if it does not throw past a registered parent |
| EvaluateCall.EvaluateEvolves | src/esm_loader.js:401-428 | `evaluate` only moves records on: no settled verdict, capability or finished body changes |
| Moves.EvaluateInside | src/esm_loader.js:456-503 | `evaluate` changes nothing outside what its target reaches |
| Moves.LinkedKept | src/esm_loader.js:268-315 | What linking established about linked and unlinked records survives evaluation |
| Runs.NextReady | src/esm_loader.js:401-564 | Every step (linking, a call, a settlement) keeps every invariant of linking and evaluation |
| Runs.RunStaysReady | src/esm_loader.js:401-564 | So does every run |
| Runs.BodiesStartInOrder | src/esm_loader.js:456-555 | In every run, when a body is entered, each request outside its import cycle and everything that request reaches has completed |
| Runs.BodyStartsOnce | src/esm_loader.js:486-492 | In every run each body is entered at most once |
| Runs.FailedNeverStarts | src/esm_loader.js:540 | A module that failed before its body was entered never enters it and keeps its error, whatever happens next |
| Runs.PendingCountsOccurrences | src/esm_loader.js:481-491 | In every run `pendingAsyncDependencies` of an unsettled module whose cycle has no error is the number of times it occurs, with multiplicity, in the parent lists of unsettled modules |
| Runs.ParentsComeLater | src/esm_loader.js:481-489 | In every run parents of an unsettled module come strictly later in the asynchronous order and reach it |
| Runs.CapabilitySettledOnce | src/esm_loader.js:401-428 | In every run no capability is settled twice |
| Runs.EveryCapabilitySettles | src/esm_loader.js:401-428 | Once no body is suspended, every capability handed out has been settled |
| Runs.AncestorWalkNeverFails | src/esm_loader.js:519-529 | In every run that keeps H2, no fulfilment crashes in the walk over ancestors |
| Runs.RootAsyncIffMember | src/esm_loader.js:493-501 | A cycle root is asynchronous if and only if some member of its cycle is |
| Failures.FailureIsExact | src/esm_loader.js:557-564 | A failure marks a module if and only if it is unsettled and a transitive parent of the one that failed |
| Failures.RejectionReaches | src/esm_loader.js:557-564 | In every run a rejection gives its error to exactly those modules and rejects exactly their pending capabilities; the body of the module rejected is over, and every other field of every record stays |
| Failures.ReadyFailureReaches | src/esm_loader.js:545-549 | The same, records and capabilities, for a body that throws while ready ancestors are run: its own record is the one of a body entered and over |
| Failures.QueuedFailureIsSkipped | src/esm_loader.js:539-540 | A module that has failed while it was in `execList` is not run, and keeps its error |
| Failures.GatherCrashes | src/esm_loader.js:520-521 | The walk over ancestors fails as soon as some parent has no cycle root |
| Failures.StrandedParentCrashes | src/esm_loader.js:519-537 | So the fulfilment of any module with such a parent crashes |
| Failures.UnluckyCrashes | src/esm_loader.js:415-420 | A concrete linked graph on which a synchronous throw strands a parent: the loader is not at rest and the later fulfilment crashes |
| Blame.ErrorsHaveCauses | src/esm_loader.js:401-564 | In every run, the error of a record, and the error its promise was rejected with, is one that some module it reaches threw: its body was entered and throws it, or a step rejected the promise of its body with it |
| Blame.ThrownIsRecorded | src/esm_loader.js:415-564 | In every run, a module whose body has been entered and throws has that error |
| Blame.CallThrowsCause | src/esm_loader.js:401-428 | In every run, the error a call of `evaluate` throws was the error of a module below its target, or is thrown by a body below it that the call entered; the missing cycle root of line 478 is never met |
| Blame.WalkEnds | src/esm_loader.js:456-503 | One call of the walk: when it throws, one module below its target, which everything on the stack reaches, threw that error |
| Blame.FailAnswered | src/esm_loader.js:557-564 | A rejection gives its error only to modules that import the one that threw it |
| Blame.AwaitedBodiesAreSettled | src/esm_loader.js:505-517 | In every run, a body with top-level await ends only by a settlement of its promise |
| HostEntry.AwaitSearch.GraphHasTLA | src/esm_loader.js:650-654 | One recursive call with the shared visited set: true only if some reachable module has top-level await, false only if what was visited is closed and has none |
| HostEntry.GraphHasTLA | src/esm_loader.js:650-654 | The whole search says whether some reachable module has top-level await |
| HostEntry.NoAwaitNeverStrands | src/esm_loader.js:663-669 | Without top-level await below a module, a call of `evaluate` for it keeps H2 by itself |
| SafeCalls.SafeNeverStrands | src/esm_loader.js:401-428 | A call of `evaluate` keeps H2 if nothing below its target requests a module that may throw (something below it has failed or would fail) after one with top-level await below it, and no body that would throw has top-level await below it |
| SafeCalls.SafeCases | src/esm_loader.js:401-428 | In particular if there is no top-level await below the target, or nothing below it has failed or would fail |
| SafeCalls.WalkQuiet | src/esm_loader.js:456-503 | A call below whose target nothing has failed or would fail does not throw |
| SafeCalls.StaysCalm | src/esm_loader.js:481-491 | Without top-level await below its target, a call that returns leaves no unsettled module waited for by a module on the stack, if there was none |
| HostEntry.FreshRoot | src/esm_loader.js:670 | The target of a fresh call is its own cycle root afterwards, or has none and is itself the record looked at |
| HostEntry.RequireIsSynchronous | src/esm_loader.js:658-671 | Without top-level await nothing reached is left waiting: either everything reached has run without error, or the record looked at carries the error its promise was rejected with |
| HostEntry.StallSearch.Search | src/esm_loader.js:609-620 | One call of the search: it stops at stalled modules, each listed once, and leaves nothing below what it has visited unexplored |
| HostEntry.MainUnsettled | src/esm_loader.js:603-623 | Nothing once settled; otherwise, without repetition, exactly the stalled modules reachable through modules that are not |
| HostEntry.StopsExactly | src/esm_loader.js:607-620 | What the search lists, in terms of the records: modules with `asyncEvaluation` set and a count of zero, at the end of a chain of requests for source text modules through others that are not so |
| HostEntry.StalledRuns | src/esm_loader.js:610-613 | A stalled module below an entry module without error is suspended in its own body |
| HostEntry.PendingMainIsListed | src/esm_loader.js:603-623 | While the promise of the entry module is pending, its own or the one of its cycle's root, the list is not empty, and each listed module is reachable and suspended in its own body |
| HostEntry.OwnMainIsListed | src/esm_loader.js:603-623 | In particular while the entry module's own promise is pending |
| HostEntry.EvaluatedMainIsListed | src/esm_loader.js:603-623 | The same after a call of `evaluate` for the entry module that keeps H2 and hands out a pending promise |
| Evaluator.EvaluationWalk.LookAtRequest | src/esm_loader.js:474-484 | On the objects: the state after a request has returned is the one `Evaluation.AfterRequest` describes, aliasing of the two records included |
| Evaluator.EvaluationWalk.PopComponent | src/esm_loader.js:493-501 | On the objects: the pop loop |
| Evaluator.EvaluationWalk.InnerModuleEvaluation | src/esm_loader.js:456-503 | On the objects: state, stack, index and error of a whole call are those of the function the invariants are proved about |
| Evaluator.Evaluate | src/esm_loader.js:401-428 | On the objects: a whole call, catch included, and whose promise it returns |
| Evaluator.AncestorWalk.Gather | src/esm_loader.js:519-529 | On the objects: counts, list and crash of the walk over ancestors |
| Evaluator.SortByOrder | src/esm_loader.js:538 | On the objects: the stable sort of the list |
| Evaluator.AsyncModuleExecutionRejected | src/esm_loader.js:557-564 | On the objects: a whole rejection; the recursion ends on every graph |
| Evaluator.AsyncModuleExecutionFulfilled | src/esm_loader.js:531-555 | On the objects: a whole fulfilment |
| Host.Start | src/esm_loader.js:401-428 | A fresh loader is at rest |
| Host.Prepare | src/esm_loader.js:644-645 | Loading and linking fail to load if and only if some request does not resolve, and otherwise keep the loader at rest and report success if and only if the graph is then linked; no body runs |
| Host.Call | src/esm_loader.js:401-428 | A call on a linked graph leaves the objects at rest if and only if it keeps H2 |
| Host.Fulfil | src/esm_loader.js:511-555 | A fulfilment keeps the objects at rest |
| Host.Reject | src/esm_loader.js:511-564 | A rejection keeps the objects at rest |
| Host.RequireModule | src/esm_loader.js:658-683 | `require` of a module: if loading or linking fails, it says which; with top-level await in the graph nothing runs; otherwise it throws the error its root was rejected with, or everything reached has run and the view is the export named `module.exports` if there is one, else a facade exactly for a default export beside no `__esModule`, else the namespace |
| Host.FacadeAddsAKey | src/esm_loader.js:676-680 | The `__esModule` key of a facade is not a key of the namespace already |
| Slots.SlotRefinesReader | src/esm_loader.js:187-199 | One read of a slot that may have replaced itself gives what a fresh lookup gives, and a failed read leaves the slot as it was |
| Slots.ImportCell.Call | src/esm_loader.js:366-373 | The same for the slot object, updated in place |
| Slots.NextKeepsGetters | src/esm_loader.js:317-322 | No step of the loader takes getters away or makes others |
| BodyEntry.StepChained | src/esm_loader.js:456-555 | The states of a step right after each entry of a body, in order: up to the first, between any two and after the last no body is entered and no getters change |
| BodyEntry.EntriesExact | src/esm_loader.js:456-555 | Every entry of a source module's body that a step logs is one of those states, with the log up to it |
| BodyEntry.ChainedSees | src/esm_loader.js:317-322 | In each of those states the environments and getters are in order, and no getters are lost from one to the next |
| Slots.SlotRefinesReaderInRuns | src/esm_loader.js:366-373 | In every run with reads between steps and by bodies entered in the middle of a step, each read agrees with an uncached lookup at that point |
| Slots.NoGetterExactly | src/esm_loader.js:187-199 | Between steps and while a body runs, reading an import fails for want of a getter if and only if the binding's module is on no import cycle and its body has not been entered |
| Slots.GetterIffEnvironment | src/esm_loader.js:187-199 | When a body has just been entered, its import finds a getter if and only if the environment of the binding's module existed before |
| Slots.ImportHasGetter | src/esm_loader.js:187-199 | In every run, a module whose body has been entered finds getters for an import whose request is outside its cycle, or whose binding's module is on any import cycle; the exporting environment existed before the body was entered |
| Environments.OwnEnvironments | src/esm_loader.js:302-322 | In every run, between steps and while a body runs, two modules that have environments have different ones, whether linking made them or the entry of a body |
| Environments.ImportSeesOwnWrites | src/esm_loader.js:187-199 | Imports are live and kept apart: in every run a read through an import's slot gives the new value after the exporting module has written that binding, and the same as before after any other write, also to a binding of the same name in another module |
| Environments.SyntheticImport | src/esm_loader.js:193 | In every run, between steps, an import from a synthetic module reads as that module's value once it has been evaluated without an error, and as `undefined` otherwise |
| CycleSibling.SiblingReadsTooEarly | src/esm_loader.js:193-196 | The other case (a request inside the reader's cycle, a binding of a module on no cycle) can fail: in a concrete run a body is entered, reads through a sibling of its cycle a name of a module that has not been instantiated, and finds no getter |
| CachedProgram.RoundTrip | src/cache.rs:389-418 | Storing and loading gives back the program if and only if every chunk's hash was the right one; the loaded program's hashes are right in any case |
| CachedProgram.Program.Rehash | src/cache.rs:396-418 | In place: every chunk of the program (main, functions, blocks, handlers, finalizers) gets its hash, nothing else changes |
| Shard.IndexedLists | src/cache.rs:320-331 | The index holds exactly the keys listed for this build, each with a listed value |
| Shard.IndexEntries | src/cache.rs:320-331 | The loop over the archive makes that index of byte ranges, all within the bytes read |
| Shard.ShardMem.Indexing | src/cache.rs:302-334 | Indexing in place finds what the file holds for this build; an unreadable file holds nothing |
| Shard.ShardMem.Get | src/cache.rs:273-279 | A lookup finds exactly the live entries, additions first |
| Shard.ShardMem.Iter | src/cache.rs:283-293 | Each live key once, with the value a lookup gives |
| Shard.ShardMem.Store | src/cache.rs:435-438 | An addition shadows its key, marks the shard dirty and leaves what was read alone |
| Shard.WriteShard | src/cache.rs:216-233 | The image written holds exactly the given entries for this build and none for any other, and can be read back |
| Shard.MergeFile | src/cache.rs:480-486 | What the process holds wins; everything else the file has for this build is added |
| Shard.TakePending | src/cache.rs:453-466 | The entries to write, collected one by one from the listing of the shard, are all live ones with the values a lookup gives, or nothing if nothing was added |
| Shard.CollectItems | src/cache.rs:459-461 | Collecting a listing of the live entries into a map gives the live entries |
| Shard.Flush | src/cache.rs:449-499 | By a process no other writes beside: afterwards the file holds the process's entries and its own former ones, read again or not; entries of other builds go; nothing changes if nothing was added |
| Shard.Store | src/cache.rs:422-440 | The program is held under its two hashes |
| Shard.Load | src/cache.rs:355-387 | A hit exactly when the live entry under the key has the second hash and decodes; the program found is rehashed |
| Shard.StoredIsFound | src/cache.rs:355-440 | What the same process stored last for a source is found, equal to the program stored if and only if that had its hashes right |
| CacheProtocol.StepKeeps | src/cache.rs:302-499 | Every step of every process keeps the system in order: each entry in memory or in a committed file was stored by the same build under its hashes |
| CacheProtocol.InterleavingKeeps | src/cache.rs:302-499 | So does every interleaving |
| CacheProtocol.SkippingReadIsMerging | src/cache.rs:468-486 | With an unchanged stamp, leaving out the second read writes the entries the merge would have written |
| CacheProtocol.EntryDropped | src/cache.rs:443-499 | In every interleaving, a committed entry (key, second hash and program) is missing from the image a rename puts into place if and only if the process holds another value for its key, or holds none and did not see the entry at its last look |
| CacheProtocol.LostOnlyInTheWindow | src/cache.rs:443-499 | So an entry dropped although the process holds no value for its key was committed by another process between the renaming process's last look and the rename |
| CacheProtocol.KeyLostOnlyInTheWindow | src/cache.rs:443-499 | A key that a rename drops altogether was last committed, with the value it has, in that window by another process |
| CacheProtocol.RenameKeepsWhatWasSeen | src/cache.rs:443-499 | The image is what the process saw at its last look, overlaid by its own entries; without a commit in the window no key of its build is lost |
| StaleOverwrite.NewerIsOverwritten | src/cache.rs:443-499 | A key is kept but not its newest entry: an interleaving, for any setup and any two values, in which a process has read the old value of a key, another commits a newer one, the first sees it at its last look, and its rename puts the old value back |
| CacheProtocol.HitWasStored | src/cache.rs:355-440 | In every interleaving a hit is a program some process of the same build stored for a source with the same two hashes, with every chunk's hash rebuilt |
| CaptureSites.CapturesExactly | src/capture.rs:26-148 | The analysis says "captures" of an expression or statement exactly when a function, a class or a declaration of one, or the name `eval`, occurs in it outside the bodies of such functions and classes |
| Ast.OperandsQuiet | src/capture.rs:94-148 | An expression that does not capture has only operands that do not |
| Ast.CaseBodiesQuiet | src/capture.rs:88-90 | Cases that do not capture have only statements that do not, from any case on |
| Privacy.ExprKept | src/capture.rs:92-138 | Evaluating an expression the analysis calls quiet in a hidden environment leaves no function or visible environment holding it |
| Privacy.StmtKept | src/capture.rs:26-86 | The same for statements |
| Privacy.RunKept | src/capture.rs:26-148 | The same for every task of the interpreter, calls of functions made elsewhere included |
| LoopSharing.RunSame | src/compiler.rs:1914-2005 | Step for step, a run that shares environments and one that copies them give the same completion and output, and matching heaps |
| LoopSharing.CopiedForSame | src/compiler.rs:1949-1994 | A loop that copies in both runs does the same in both |
| LoopSharing.LoopShared | src/capture.rs:11-22 | A quiet loop that goes on in one hidden environment and one that copies it before each update do the same |
| LoopSharing.SharedForSame | src/compiler.rs:1941-1981 | So do two whole `for (let ...)` statements, head included |
| LoopSharing.SharingPreservesMeaning | src/capture.rs:11-22 | For every program and every bound on its depth: same completion, same output, same final program scope, whether the loops the analysis allows share or copy |
| SharedLoops.SharedLoopMakesOne | src/compiler.rs:1930-1981 | A `for (let ...)` loop without such an occurrence, whose parts open no scope of their own, makes one environment in all when run as compiled, however many iterations it has |
| LoopLaws.ContinueIsEmpty | src/compiler.rs:1957-1981 | A body that is a `continue` aimed at the loop does what an empty body does, to the end of the loop: copy, update and test follow |
| LoopLaws.BreakEnds | src/compiler.rs:1957-1994 | A body that is a `break` ends the loop once the test has succeeded |
| LoopLaws.WhileIsFor | src/compiler.rs:1914-1994 | A `for` with only a test does what `while` does |
| CapturingLoop.CopyMatters | src/capture.rs:5-8 | A concrete `for (let ...)` statement whose body makes a closure: the analysis says it captures, and after it `print(f())` outputs 0 if iterations copy their environment, 1 if they go on in one |
| CapturingLoop.ProgramPrints | src/capture.rs:11-22 | The whole program, run as compiled, outputs 0 whether quiet loops share or copy |

## Left out

- Slots.ImportHasGetter: an import through a sibling of the reader's cycle that resolves to a module on no cycle is not promised a getter, because the code does not promise one: `Slots.GetterIffEnvironment` says when it is found, `CycleSibling.SiblingReadsTooEarly` is a run where it is not.
- Slots.SlotRefinesReaderInRuns: a body reads at the moment it is entered, any number of times; code that the body calls later in the same step runs between the same getters, and reads after an `await` are reads between steps.
- Runs.BodiesStartInOrder: requests inside the module's own import cycle, and what is reached only through them, are not ordered by the code.
- HostEntry.PendingMainIsListed: nothing is said once the promise has been rejected; `asyncEvaluation` stays set on failed modules, so `mainUnsettled` may then list modules that are settled, until `mainSettled` is set.
- CacheProtocol.RenameKeepsWhatWasSeen: keys survive, newest values need not; `CacheProtocol.EntryDropped` says exactly which entries go.
- SafeCalls.SafeNeverStrands: the condition is enough, not necessary; `EvaluateCall.EvaluateRests` is the exact one, on the walk itself.
- Shard.Flush: assumes that no process commits during the call; interleavings are the subject of `CacheProtocol`.
- Linker.Link: assumes H1; `Loader.LoadGraph` says exactly when a load keeps it.
- Runs.AncestorWalkNeverFails: assumes H2 of each call in the run; `EvaluateCall.EvaluateRests` and `Failures.UnluckyCrashes` say why.
- The native half of the loader (`N.resolve`, parsing, compiling, detection of CommonJS names, JSON, `requireCjs`): the graph, the set of requests that do not resolve, and the bodies that throw are parameters.
- `recordFor`: format and attribute checks, and the growth of the registry; all records exist from the start.
- Error texts, `import.meta`, `attributesOf`, `codedError` and the wording chosen by `missingExport`.
- The growth of a builtin module's export list while names are looked up (src/esm_loader.js:149-152): export lists of synthetic modules are fixed. A builtin's members are read as those of an evaluated synthetic module.
- Calls into the loader from inside a running body (`require`, or `import()` on the active stack).
- `runMain` and `dynamicImport` as queued microtasks: their load, link and evaluate steps are steps of a run.
- The namespace exotic object itself (sorting of keys, traps, `makeNamespace`) and its caching in `m.namespace`.
- Values bound by modules are integers in a heap that is a parameter of each read; `Environments.ImportSeesOwnWrites` says what a write to it changes.
- Environments.SyntheticImport: speaks of the states between steps, not of a body in the middle of one.
- SharedLoops.SharedLoopMakesOne: speaks of loops without calls, blocks, `try`, `switch` and inner `let` loops, which make environments of their own.
- rkyv and bincode: a shard file is bytes with a table of ranges, or unreadable; encoding is any pair of functions that loses only `op_hash`. The two hashes of a source are any functions of build and text.
- Modification times: a commit's stamp is its number, so no two commits have the same stamp; failures to read, write or rename, and deletion of the file, are not modelled.
- `restore_site_tables`, `site_tables`: the tables travel with the program and are not given a meaning.
- Statements and expressions outside the subset of `Ast`: `var` and `const`, `for-of`, `for-in`, `with`, patterns, `this`, `super`, `new`, tagged templates, generators, `async`, accessors, optional chaining, regular expressions and BigInt; numbers are integers.
- LoopSharing.SharingPreservesMeaning: runs are bounded in depth by a number that both sides share; the claim is for every such number, and a run that needs more is cut off at the same point on both sides.
- The text given to `eval` is parsed by a function that is a parameter; direct `eval` runs in, and declares into, the scope it is called from, and gives `undefined`.
- `block_needs_scope` and `mentions_eval` (src/capture.rs:150 on): they look at some shapes only, and no claim about `eval` in general could be made.
- `stmt_captures` answers for `import` and `export` declarations, which never reach a compiled body.
