# iOS Promises: chain engine and PFObject grouping helpers

This project models two parts of TheraLynx iOS Promises in Dafny.

**The `Promise` class (Promise.h).** A promise is one link of a forward chain. Its `next` successor is created by `then:` / `then:error:` and owned by the promise. Its `prev` points back to the predecessor. It also has a dispatch `queue` and a `name`. A promise is settled once by `resolve:` (an `NSError` argument takes the error path) or by `reject:description:`. The factories `resolvedWith:` and `resolvedWithError:description:` produce promises that are already settled.

Once a settled promise has a successor, its blocks are dispatched:

- On success, the success block runs.
- On error, the error block runs if one was given. Without one, the error cascades unchanged.
- Whatever object the block returns resolves the successor.

An error that reaches the end of the chain without being handled is a fault in a debug build.

Dispatch on a GCD queue is modelled as an explicit, deterministic step:

- `Promise.Fire` runs the blocks of one link.
- `Promise.Drive` walks a chain from head to tail, firing every link that is ready.
- `Drive` returns the faults of the pass, in order. `SettledTwice(k)` means a firing tried to settle link `k`, which was already settled. `Unhandled(e)` means the pass delivered the error `e` to the pending tail of the chain. This is the debug-build fault.

`Drive` is proved against the pure functions `Run` (the links after the pass) and `Faults` (what the pass reports). These hold for every chain, whatever its links' states. For a chain in which only the head is settled and nothing has fired yet, `RunFollowsFlow` and `FaultsFollowFlow` relate one pass to `Flow`, the state each link takes once the whole chain has fired. For such a chain, the pass reports nothing but an error reaching the tail. The cascade rules are lemmas about `Flow`.

`promise_scenario.dfy` is a client that uses only the contracts:

- It builds the chain "resolved with 5 → add one → raise error 42 → error block returns -1 → pass on" and proves that the last link ends with -1 and that nothing is reported.
- It shows an unhandled error being reported once, and not again on a second pass.
- It shows a lone rejected promise waiting without a report.
- It shows a successor settled twice being reported.

**The class-method helpers of `PFObject (Promise)` (ParseBridge/PFObject+Promise.h).** A PFObject is the record `(className, objectId)`.

- `dictify` groups an array by class name.
- `undictify` flattens such a dictionary back into an array.
- `dictifyByPID` keys an array by objectId.
- `redictifyByPID` turns a class-keyed dictionary into an objectId-keyed one.

`dictify`, `undictify` and `dictifyByPID` are methods with a loop, each proved equal to a pure function:

- `Dictify` to `ByClass`;
- `Undictify` to `Concat` over an order of the keys, hence to the multiset `AllValues`;
- `DictifyByPID` to `ByPid`.

`redictifyByPID` has no loop of its own; it composes `Undictify` and `DictifyByPID`. The documented inverse relations are lemmas about those functions.

Files: `promises.dfy` (module `Promises`), `promise_scenario.dfy` (module `PromiseScenario`), `pfobject_promise.dfy` (module `PFObjectPromise`).

## Model

| member | source | states |
|---|---|---|
| `Promises.Settle` | Promise.h:51-53 | resolving with an NSError rejects with that very error; any other object resolves with that object |
| `Promises.Handle` | Promise.h:63-66 | firing a settled promise always settles its successor (never leaves it pending) |
| `Promises.ErrorPathIgnoresSuccessBlock` | Promise.h:51-53 | when an NSError is resolved, the outcome does not depend on the success block: it never runs |
| `Promises.SuccessPathIgnoresErrorBlock` | Promise.h:63-66 | a non-error object runs the success block: the successor is settled by the success block's result whatever the error block is |
| `Promises.MissingErrorBlockCascades` | Promise.h:68-69 | with the error block omitted, the successor is rejected with the same error |
| `Promises.Flow` | Promise.h:63-69 | a fully fired chain has one state per link, the head's being the initial settlement |
| `Promises.FlowStep` | Promise.h:64-66 | each link of a fired chain is settled (none left pending) and is settled by its predecessor's blocks applied to the predecessor's outcome |
| `Promises.CascadeUnchanged` | Promise.h:68-69 | an error passes unchanged, code and description, through every link without an error block |
| `Promises.FirstErrorBlockReceives` | Promise.h:64-69 | the first error block after the failing link receives the very error, and its returned object settles the next link |
| `Promises.UnhandledReachesTail` | Promise.h:68-72 | an error that no link handles arrives unchanged at the end of the chain |
| `Promises.RunFollowsFlow` | Promise.h:63-69 | after a single settlement at the head, one dispatch pass fires every link but the tail exactly once, in order, and leaves each link in the state `Flow` gives it |
| `Promises.FaultsFollowFlow` | Promise.h:68-72 | after a single settlement at the head, one dispatch pass never reports a double settlement; it reports an unhandled error exactly when the chain has a successor and the error `Flow` brings to the tail is a rejection, and then reports that very error |
| `Promises.Promise.Named` | Promise.h:31-34 | promiseWithName: gives a pending promise, unlinked, whose name is the argument |
| `Promises.Promise.ResolvedWith` | Promise.h:36-40 | resolvedWith: gives a promise settled with the result that does not fire before a next promise is set |
| `Promises.Promise.ResolvedWithError` | Promise.h:36-43 | resolvedWithError:description: gives a promise rejected with an error carrying that code and description, not firing before a next promise is set |
| `Promises.Promise.GetError` | Promise.h:45-49 | getError:description: builds an error whose code and description are the arguments |
| `Promises.Promise.Resolve` | Promise.h:51-58 | resolve: settles a pending promise as `Settle` says; links, blocks and queue are unchanged; a settled promise is left alone and the call is reported as not accepted |
| `Promises.Promise.Reject` | Promise.h:55-61 | reject:description: has exactly the effect of resolve: with the error built by getError from the same code and description |
| `Promises.Promise.ThenError` | Promise.h:63-77 | then:error: attaches the blocks and creates a fresh pending successor, installs it as `next`, sets its `prev` back to the receiver and returns it; a settled receiver becomes ready to fire at once |
| `Promises.Promise.Then` | Promise.h:74 | then: is then:error: with the error block omitted |
| `Promises.Promise.Fire` | Promise.h:63-69 | running the blocks resolves the successor with what `Handle` gives, marks the promise fired and changes nothing else; the settlement is accepted exactly when the successor was still pending |
| `Promises.Promise.Drive` | Promise.h:63-72 | one dispatch pass leaves the chain's links exactly as `Run` says and keeps the links; it reports, in order, a refused second settlement of a link and an error delivered to the pending tail, exactly as `Faults` says |
| `Promises.Promise.WillRunOnMainQueue` | Promise.h:83-84 | true exactly when the promise's blocks are set to run on the main queue, and then on none of the global priority queues |
| `Promises.Promise.RunOnMainQueue` | Promise.h:79-84 | after runOnMainQueue, willRunOnMainQueue is true |
| `Promises.Promise.RunDefault` | Promise.h:86 | after runDefault the queue is the default-priority one and willRunOnMainQueue is false |
| `Promises.Promise.RunLowPriority` | Promise.h:87 | after runLowPriority the queue is the low-priority one and willRunOnMainQueue is false |
| `Promises.Promise.RunHighPriority` | Promise.h:88 | after runHighPriority the queue is the high-priority one and willRunOnMainQueue is false |
| `PFObjectPromise.OfClassCount` | ParseBridge/PFObject+Promise.h:27-28 | the array for class `c` holds each object of class `c` exactly as often as the input does, and nothing of another class |
| `PFObjectPromise.ByClassGroups` | ParseBridge/PFObject+Promise.h:24-30 | dictify's keys are exactly the class names of the input; each array holds input objects of its key's class only; every input object appears under its own class name with its multiplicity |
| `PFObjectPromise.Dictify` | ParseBridge/PFObject+Promise.h:30 | the loop builds exactly `ByClass` of the input |
| `PFObjectPromise.Undictify` | ParseBridge/PFObject+Promise.h:31 | the flattened array is the concatenation of the dictionary's arrays, each key taken exactly once in some order; hence it holds exactly their objects, with multiplicity |
| `PFObjectPromise.ByClassAppendGroup` | ParseBridge/PFObject+Promise.h:30 | appending a non-empty group of objects of one class not yet present adds exactly that group under its class name and leaves every other entry alone |
| `PFObjectPromise.DictifyUndictify` | ParseBridge/PFObject+Promise.h:30-31 | on a dictionary whose arrays are non-empty and hold objects of their key's class only, dictify(undictify(d)) is d, whatever key order undictify takes |
| `PFObjectPromise.UndictifyDictify` | ParseBridge/PFObject+Promise.h:30-31 | undictify(dictify(xs)) has the same objects as xs, as a multiset |
| `PFObjectPromise.DictifyByPID` | ParseBridge/PFObject+Promise.h:39 | the loop builds exactly `ByPid` of the input: each object under its objectId, later duplicates replacing earlier ones |
| `PFObjectPromise.ByPidSound` | ParseBridge/PFObject+Promise.h:33-39 | the keys are exactly the input's objectIds, and each key maps to an input object carrying that objectId |
| `PFObjectPromise.ByPidAllValues` | ParseBridge/PFObject+Promise.h:40 | with distinct objectIds, each object is found under its own objectId and the values ("allValues") are exactly the input's objects |
| `PFObjectPromise.RedictifyByPID` | ParseBridge/PFObject+Promise.h:42-44 | the result is dictifyByPID of the concatenation of the dictionary's arrays in some key order (undictify's result); its keys are the objectIds of the dictionary's objects and each maps to one of them with that objectId |

## Left out

- Real GCD dispatch, threads and the `dispatch_queue_t` behind `queue`. The queue is a tag (`MainQueue`, `DefaultPriority`, `LowPriority`, `HighPriority`). Blocks run only when `Fire` or `Drive` is called. The header does not say which queue a new promise starts on; the model uses `DefaultPriority`.
- The `debug` property (Promise.h:27). It is diagnostic only.
- Weak vs strong references. `prev` is an ordinary nullable field; reclamation is not modelled.
- Blocks are total, side-effect-free Dafny functions. A block that returns a Promise (nested promises) is not modelled, because the header does not describe it.
- `Promises.Promise.Resolve`: the header does not say what a second `resolve:` does. The model leaves the state unchanged and returns `accepted == false`, which stands for the protocol fault. Dispatch reports it as `SettledTwice`.
- `Promises.Promise.Drive`: the debug-build exceptions are returned as a sequence of `Fault`s, not raised, and the pass goes on after one. An error is reported as unhandled when it is delivered to the chain's current tail; a successor attached to the tail later could still handle it.
- `Promises.Promise.ThenError` and `Promises.Promise.Then` require that the receiver has no `next` yet. Attaching a second successor is a protocol violation.
- `name` is a `string`. A nil name (from `resolvedWith:` or `then:`) is the empty string.
- `PFObjectPromise.RedictifyByPID`: NSDictionary key order is not specified. The result is stated for some flattening with the right multiset of objects. When objectIds repeat across classes, which object wins is not pinned down.
- All `promise_*` Parse SDK calls (in PFObject, PFFile, PFQuery, PFUser and PFCloud). They wrap network calls whose behaviour is not visible.
- The Parse completion-block adapters in ParseBridge/PromiseParseBridge.h. They are foreign callback plumbing.
- `PFFile originalName:`. Its one-line comment does not determine the string operation.
- The logging macros of definesOpen.h and QLog.
