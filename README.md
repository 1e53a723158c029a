# DesignAdjectives, modelled in Dafny

DesignAdjectives is a design tool. A user grades parameter vectors of a
design as good or bad examples of an adjective. A Gaussian-process
"snippet" is trained on those examples, and samplers propose new
designs the snippet scores highly. The system has four parts:

- a Python backend ("snippet server") that keeps the snippets, trains
  them and runs the samplers;
- a Node.js relay broker that passes the renderer's `action` calls to the
  one backend socket and broadcasts its sample pushes;
- an Electron/Vue renderer, with:
  - a socket driver;
  - a Vuex snippet store;
  - parameter back-ends for Substance and particles.js;
  - a mutation logger;
  - a menu-placement helper;
- offline scripts that read the logged user studies (analysis scripts)
  and compute phase timelines, action counts and per-phase averages.

This project models the logic of each of these parts, one module per
source file:

- Relays and backend:
  - `ToolboxServer` models `server/toolboxServer.js`.
  - `DsRelay` models `server/dsRelay.js`.
  - `DsCore` models `core/dsCore.py`.
  - `DsTypes` models `core/dsTypes.py`.
  - `SnippetCore` models the list logic of `core/snippet.py`.
  - `Samplers` models the control logic of `core/samplers.py`.
  - `Mixer` models `core/mixer.py`.
  - `Jitter` models `core/jitter.py`.
- Renderer:
  - `DsNodeDriver` models `store/driver/dsNodeDriver.js`.
  - `SnippetsStore` models `store/modules/snippets.js`.
  - `Substance` models `store/backend/substance.js`.
  - `Particles` models `store/backend/particles.js`.
  - `LogToFile` models `store/logToFile.js`.
  - `Common` models `components/common.js`.
- Analysis scripts:
  - `Timeline` models `analysis/timeline.js`.
  - `AnalyzeLog` models `analysis/analyzeLog.js`.
  - `VerifyUse` models `analysis/verifyUse.js`.
- Shared modules:
  - `Wrappers`: Option and Result.
  - `Text`: decimal rendering and `split`/`join`.
  - `JsonValue`: JavaScript values on the wire.
  - `RelayWire`: socket events shared by the relays.
  - `LogEvents`: the logged event kinds and grouping by kind.
  - `Grouping`: per-key sums and counts.

## How the model is shaped

**Relays are stated twice.** Each relay handler is a pure function from
the broker's state to its new state and the messages it sends. Every
trace property is proved on those functions. The handlers are also the
methods of a `Relay` class whose fields are the broker's module-level
variables. Each method is proved to move those fields exactly as the
pure handler says.

**Stateful objects are classes.** This covers the driver, the Vuex store,
a snippet, the registry, the back-ends, the logger and the log analyser.
Their methods carry `modifies` clauses and state each new field value.
Where the state is a collection, the value is tied to a specification
function on the old state.

**Loops are methods.** Where the source loops, the model has a `method`
with a `while` loop, such as:

- the running maximum in `identifyHighImpactParams`;
- `initFrequencyTable`;
- `selectParams`;
- the attempt loop of `mix`;
- the sampler loop;
- the per-log tallies of `verifyUse.js`.

Each such method is proved equal to a recursive specification function,
and the properties are proved about that function.

**Inputs stand in for what the model cannot compute.** Randomness
(uniform draws, shuffles) is an input sequence. Gaussian-process
predictions are inputs too: an evaluated candidate's mean, a sweep's
means. The same goes for `parseFloat`, `JSON.stringify` and the clock.

**One loop, two samplers.** The sampler rows below cite the Rejection
sampler's loop (core/samplers.py:367-466). GenericRejection's loop
(core/samplers.py:138-227) differs only in its acceptance rule, its loop
condition and its free-parameter clamp (lines 111-112). The model covers
both through `Samplers.Criterion` and `Samplers.Config`.

**Dates are numbers.** Log times are milliseconds, that is, what
`new Date(t).getTime()` gives.

## Model

| member | source | states |
|---|---|---|
| ToolboxServer.Inject | server/toolboxServer.js:107-110 | a truthy object argument gains `paramInfo` (set to the cache) and keeps every other field; anything else passes unchanged |
| ToolboxServer.OnConnect | server/toolboxServer.js:69-76 | the newcomer joins the socket list and gets `'no server'` exactly when the slot is empty (`'server ok'` otherwise), followed by the role query |
| ToolboxServer.OnTypeReply | server/toolboxServer.js:76-85 | only the answer `'server'` on an empty slot claims it, and then every connected socket hears `'server ok'`; otherwise nothing changes and nothing is sent |
| ToolboxServer.OnDisconnect | server/toolboxServer.js:88-96 | the socket leaves the list; if it held the slot, the slot empties and everyone left hears `'no server'`; otherwise nothing is sent |
| ToolboxServer.OnAction | server/toolboxServer.js:98-119 | without a backend the action is dropped (no state change, no message); with one, `data.args` (with `paramInfo` injected) goes to the backend under `data.fn`, with a fresh acknowledgement token recorded as pending |
| ToolboxServer.OnBackendAck | server/toolboxServer.js:112-115 | an acknowledgement from the backend a call went to passes `(err, result)` unchanged to the caller's own callback and retires the token; any other is ignored |
| ToolboxServer.OnPush | server/toolboxServer.js:121-129 | a `'single sample'` or `'sampler complete'` push is rebroadcast to every socket as `(data.data, data.name)` |
| ToolboxServer.StepKeepsInv | server/toolboxServer.js:66-136 | each delivered event keeps the invariant: the backend, if any, is a connected socket, socket ids are distinct, and every pending token was handed out |
| ToolboxServer.RunKeepsInv | server/toolboxServer.js:66-136 | the single-backend invariant holds after every sequence of events from the initial state |
| ToolboxServer.BackendChanges | server/toolboxServer.js:77-93 | the slot changes only when an empty slot is claimed by a `'server'` answer or when the holder disconnects |
| ToolboxServer.FirstBackendWins | server/toolboxServer.js:78-84 | a registered backend stays registered through any run in which it does not disconnect, whatever other sockets answer |
| ToolboxServer.ActionsDroppedWithoutBackend | server/toolboxServer.js:116-118 | with no backend, and calls in flight only to sockets no longer connected, a run of actions and stray acknowledgements changes nothing and sends nothing |
| ToolboxServer.BackendLeavesCallsStranded | server/toolboxServer.js:88-96 | a backend that disconnects with calls in flight leaves a state with no backend whose pending calls point only at disconnected sockets, so the drop lemma applies |
| ToolboxServer.AckAnsweredOnce | server/toolboxServer.js:112-115 | reply correlation: an answer reaches exactly the socket that made the call, and a second answer on the same token is ignored |
| ToolboxServer.ParamInfoReachesBackend | server/toolboxServer.js:107-135 | after `'set param info'` the next relayed object argument carries the new cache as `paramInfo` |
| ToolboxServer.Relay.constructor | server/toolboxServer.js:56-62 | no backend, an empty `paramInfo`, nothing connected or pending |
| ToolboxServer.Relay.HandleConnect | server/toolboxServer.js:69-76 | the fields move as OnConnect says, and its messages are appended to the outbox |
| ToolboxServer.Relay.HandleTypeReply | server/toolboxServer.js:76-85 | the fields move as OnTypeReply says, and its messages are appended |
| ToolboxServer.Relay.HandleDisconnect | server/toolboxServer.js:88-96 | the fields move as OnDisconnect says, and its messages are appended |
| ToolboxServer.Relay.HandleAction | server/toolboxServer.js:98-119 | the fields move as OnAction says, and its messages are appended |
| ToolboxServer.Relay.HandleBackendAck | server/toolboxServer.js:112-115 | the fields move as OnBackendAck says, and its messages are appended |
| ToolboxServer.Relay.HandlePush | server/toolboxServer.js:121-129 | the state is unchanged, and the rebroadcast is appended |
| ToolboxServer.Relay.HandleParamInfo | server/toolboxServer.js:132-135 | the cache becomes the received value |
| DsRelay.OnConnect | server/dsRelay.js:63-68 | `'no server'` only when the slot is empty, then always the role query |
| DsRelay.OnTypeReply | server/dsRelay.js:68-77 | `'server'` claims an empty slot, silently; an occupied slot or another answer changes nothing |
| DsRelay.OnDisconnect | server/dsRelay.js:79-86 | the socket leaves; the slot empties if it was the backend; no one is told |
| DsRelay.OnAction | server/dsRelay.js:88-103 | dropped without a backend; otherwise `data.args` is forwarded unchanged (no injection) with a new pending token |
| DsRelay.OnBackendAck | server/dsRelay.js:96-99 | the backend's `(err, result)` reaches the caller's callback unchanged, once |
| DsRelay.OnPush | server/dsRelay.js:105-113 | the push is rebroadcast to every socket as `(data.data, data.name)` |
| DsRelay.StepKeepsInv | server/dsRelay.js:60-114 | each delivered event keeps the single-backend invariant |
| DsRelay.RunKeepsInv | server/dsRelay.js:60-114 | the invariant holds after every run from a valid state |
| DsRelay.NeverServerOk | server/dsRelay.js:63-77 | this relay never sends `'server ok'` to anyone, in any run |
| DsRelay.ActionsDroppedWithoutBackend | server/dsRelay.js:100-102 | with no backend, and calls in flight only to sockets no longer connected, actions and stray acknowledgements produce nothing |
| DsRelay.BackendLeavesCallsStranded | server/dsRelay.js:79-86 | a backend that disconnects with calls in flight leaves no backend and only stranded pending calls |
| DsRelay.Relay.constructor | server/dsRelay.js:56 | no backend, nothing connected or pending |
| DsRelay.Relay.HandleConnect | server/dsRelay.js:63-68 | the fields move as OnConnect says, and its messages are appended |
| DsRelay.Relay.HandleTypeReply | server/dsRelay.js:68-77 | the fields move as OnTypeReply says |
| DsRelay.Relay.HandleDisconnect | server/dsRelay.js:79-86 | the fields move as OnDisconnect says |
| DsRelay.Relay.HandleAction | server/dsRelay.js:88-103 | the fields move as OnAction says, and its messages are appended |
| DsRelay.Relay.HandleBackendAck | server/dsRelay.js:96-99 | the fields move as OnBackendAck says, and its messages are appended |
| DsRelay.Relay.HandlePush | server/dsRelay.js:105-113 | the rebroadcast is appended |
| RelayWire.Broadcast | server/toolboxServer.js:81 | `io.sockets.emit` sends the event to every connected socket, one message each, in order |
| RelayWire.Without | server/toolboxServer.js:88-96 | the connected sockets once one leaves: exactly the others, still distinct |
| DsNodeDriver.Transition | client/node-ui/src/renderer/store/driver/dsNodeDriver.js:27-71 | `connect` sets `connected`; `disconnect` clears both flags; `'no server'` clears and `'server ok'` sets `snippetServerOnline`, leaving `connected` alone |
| DsNodeDriver.LastConnectivity | client/node-ui/src/renderer/store/driver/dsNodeDriver.js:27-47 | the index of the latest connect or disconnect event, with none after it |
| DsNodeDriver.LastAvailability | client/node-ui/src/renderer/store/driver/dsNodeDriver.js:40-71 | the index of the latest availability-changing event, with only connects after it |
| DsNodeDriver.ReplaySnoc | client/node-ui/src/renderer/store/driver/dsNodeDriver.js:24-72 | replaying one more event applies one more transition |
| DsNodeDriver.ConnectedIsLastConnectivity | client/node-ui/src/renderer/store/driver/dsNodeDriver.js:27-47 | from a fresh driver, `connected` is true exactly when the latest connect or disconnect was a connect |
| DsNodeDriver.OnlineIsLastNotice | client/node-ui/src/renderer/store/driver/dsNodeDriver.js:40-71 | from a fresh driver, the server is online exactly when the latest disconnect, `'no server'` or `'server ok'` was a `'server ok'` |
| DsNodeDriver.Default | client/node-ui/src/renderer/store/driver/dsNodeDriver.js:166 | a default parameter is used exactly when the argument is undefined |
| DsNodeDriver.Request | client/node-ui/src/renderer/store/driver/dsNodeDriver.js:116-213 | the `(fn, args)` each convenience call hands to `exec`; the name-checked calls throw `'Missing Snippet Name'` exactly when `typeof name !== 'string'` |
| DsNodeDriver.PredictOneIsPredict | client/node-ui/src/renderer/store/driver/dsNodeDriver.js:180-192 | `predictOne(name, x)` issues the same request as `predict(name, [x])`, error included |
| DsNodeDriver.EmptyNamePasses | client/node-ui/src/renderer/store/driver/dsNodeDriver.js:131-213 | the check looks only at the type, so the empty string passes |
| DsNodeDriver.NamePassedThrough | client/node-ui/src/renderer/store/driver/dsNodeDriver.js:116-213 | every call that names a snippet sends that name unchanged under `name` |
| DsNodeDriver.ExecResult | client/node-ui/src/renderer/store/driver/dsNodeDriver.js:101-108 | a truthy `err` rejects the promisified emit, which `exec` turns into `undefined`; otherwise the result |
| DsNodeDriver.CallResult | client/node-ui/src/renderer/store/driver/dsNodeDriver.js:101-228 | a call resolves to `exec`'s value, `reset` to `undefined`, and a failed name check to its error |
| DsNodeDriver.DsDriver.constructor | client/node-ui/src/renderer/store/driver/dsNodeDriver.js:11-22 | both flags false, no callbacks, nothing emitted |
| DsNodeDriver.DsDriver.Notify | client/node-ui/src/renderer/store/driver/dsNodeDriver.js:31-32 | the flags are reported to `connectCallback` exactly when one is set |
| DsNodeDriver.DsDriver.Handle | client/node-ui/src/renderer/store/driver/dsNodeDriver.js:27-71 | the flags move as Transition says, then are reported |
| DsNodeDriver.DsDriver.Disconnect | client/node-ui/src/renderer/store/driver/dsNodeDriver.js:74-81 | both flags cleared, then reported |
| DsNodeDriver.DsDriver.AnswerGetType | client/node-ui/src/renderer/store/driver/dsNodeDriver.js:35-38 | the role answer is `'client'` |
| DsNodeDriver.DsDriver.SampleReturned | client/node-ui/src/renderer/store/driver/dsNodeDriver.js:85-91 | the sample goes to `sampleCallback` exactly when one is set |
| DsNodeDriver.DsDriver.SamplerComplete | client/node-ui/src/renderer/store/driver/dsNodeDriver.js:93-97 | the final data goes to `sampleFinalCallback` exactly when one is set |
| DsNodeDriver.DsDriver.Invoke | client/node-ui/src/renderer/store/driver/dsNodeDriver.js:101-228 | a call emits `('action', {fn, args})` unless its name check throws first (then nothing is emitted), and resolves as CallResult says |
| SnippetsStore.NormalizeVector | client/node-ui/src/renderer/store/modules/snippets.js:12-18 | each value maps affinely, so that `(r - 0) * (max - min) == x - min` |
| SnippetsStore.UnnormalizeVector | client/node-ui/src/renderer/store/modules/snippets.js:28-33 | each value maps back into its range: `r - min == x * (max - min)` |
| SnippetsStore.UnnormalizeNormalize | client/node-ui/src/renderer/store/modules/snippets.js:12-33 | unnormalising a normalised vector gives it back exactly, for non-degenerate ranges |
| SnippetsStore.NormalizeUnnormalize | client/node-ui/src/renderer/store/modules/snippets.js:12-33 | normalising an unnormalised vector gives it back exactly |
| SnippetsStore.NormalizeEndpoints | client/node-ui/src/renderer/store/modules/snippets.js:12-18 | a range's min goes to 0 and its max to 1 |
| SnippetsStore.NormalizeData | client/node-ui/src/renderer/store/modules/snippets.js:22-26 | every point's `x` is normalised and its `y` kept |
| SnippetsStore.UnnormalizeSample | client/node-ui/src/renderer/store/modules/snippets.js:36-38 | the sample's own `x` is replaced, in place, by its unnormalised vector |
| SnippetsStore.Blank | client/node-ui/src/renderer/store/modules/snippets.js:210-214 | the record NEW_SNIPPET creates: the name, no data, `trainData = {}`, untrained |
| SnippetsStore.NewSnippet | client/node-ui/src/renderer/store/modules/snippets.js:208-216 | an existing name is left alone; a new one gets a blank record |
| SnippetsStore.NewSnippetIdempotent | client/node-ui/src/renderer/store/modules/snippets.js:208-216 | NEW_SNIPPET twice is NEW_SNIPPET once, and the name is then present |
| SnippetsStore.CopySnippet | client/node-ui/src/renderer/store/modules/snippets.js:217-229 | only for a free `copyTo` and an existing `active`: a copy of the points under the new name, untrained; otherwise nothing changes |
| SnippetsStore.RenameSnippet | client/node-ui/src/renderer/store/modules/snippets.js:230-237 | for a free `renameTo` and an existing `active`: the record moves to the new key with its name updated and every other key is unchanged; otherwise nothing changes |
| SnippetsStore.RenameAbsentLeavesUndefined | client/node-ui/src/renderer/store/modules/snippets.js:230-237 | as written, renaming an absent snippet stores `undefined` under the new name and throws |
| SnippetsStore.RenameAgrees | client/node-ui/src/renderer/store/modules/snippets.js:230-237 | where `active` exists, the code as written and RenameSnippet agree and nothing throws |
| SnippetsStore.Splice1 | client/node-ui/src/renderer/store/modules/snippets.js:251 | `splice(index, 1)`: removes the element at a non-negative index in range; a negative index counts from the end and clamps to 0; past the end, nothing |
| SnippetsStore.Untrained | client/node-ui/src/renderer/store/modules/snippets.js:243-246 | a record whose points changed keeps its name, has `trainData = {}` and is untrained |
| SnippetsStore.AddExample | client/node-ui/src/renderer/store/modules/snippets.js:241-248 | the point is appended and training reset for a known name; unknown names and all other records are unchanged |
| SnippetsStore.DeleteExample | client/node-ui/src/renderer/store/modules/snippets.js:249-256 | one index spliced out and training reset for a known name; everything else unchanged |
| SnippetsStore.DeleteUndoesAdd | client/node-ui/src/renderer/store/modules/snippets.js:241-256 | adding a point and then deleting the last index gives back the points |
| SnippetsStore.AddTrainedData | client/node-ui/src/renderer/store/modules/snippets.js:257-262 | the training result is stored and the snippet marked trained, for a known name only |
| SnippetsStore.Cleared | client/node-ui/src/renderer/store/modules/snippets.js:362-365 | CLEAR_CACHE's record: same name and points, training data deleted, untrained |
| SnippetsStore.MeanRange | client/node-ui/src/renderer/store/modules/snippets.js:334-342 | the scan from `1e10`/`-1e10` ends with bounds enclosing every mean, each bound being its start value or one of the means |
| SnippetsStore.Sample.constructor | client/node-ui/src/renderer/store/modules/snippets.js:36-38 | a sample holds its vector |
| SnippetsStore.Store.constructor | client/node-ui/src/renderer/store/modules/snippets.js:44-168 | no snippets, no active snippet, both flags false, `paramData` the empty `{}`, for which `maxCurrentSnippetScore` is 0 |
| SnippetsStore.Store.StatusUpdate | client/node-ui/src/renderer/store/modules/snippets.js:204-207 | the flags take the reported values, and `ready` holds exactly when both are true |
| SnippetsStore.Store.NewSnippetMutation | client/node-ui/src/renderer/store/modules/snippets.js:208-216 | the map becomes NewSnippet of the old map |
| SnippetsStore.Store.CopySnippetMutation | client/node-ui/src/renderer/store/modules/snippets.js:217-229 | the map becomes CopySnippet of the old map |
| SnippetsStore.Store.RenameSnippetMutation | client/node-ui/src/renderer/store/modules/snippets.js:230-237 | the map becomes RenameSnippet of the old map |
| SnippetsStore.Store.DeleteSnippetMutation | client/node-ui/src/renderer/store/modules/snippets.js:238-240 | the name is removed, whether present or not |
| SnippetsStore.Store.AddExampleMutation | client/node-ui/src/renderer/store/modules/snippets.js:241-248 | the map becomes AddExample of the old map |
| SnippetsStore.Store.DeleteExampleMutation | client/node-ui/src/renderer/store/modules/snippets.js:249-256 | the map becomes DeleteExample of the old map |
| SnippetsStore.Store.AddTrainedDataMutation | client/node-ui/src/renderer/store/modules/snippets.js:257-262 | the map becomes AddTrainedData of the old map |
| SnippetsStore.Store.SetActiveSnippet | client/node-ui/src/renderer/store/modules/snippets.js:263-267 | the active snippet is a copy of the named record, or `{}` for an unknown name |
| SnippetsStore.Store.SetParamColorData | client/node-ui/src/renderer/store/modules/snippets.js:324-347 | no data gives the fixed range `[-1, 1]`; otherwise the data is kept with bounds enclosing all its means, each bound either its start value `±1e10` or one of the means; `maxCurrentSnippetScore` then reads the upper bound |
| SnippetsStore.Store.ClearCache | client/node-ui/src/renderer/store/modules/snippets.js:360-367 | every record is Cleared; the keys are unchanged |
| DsCore.Add | core/dsCore.py:9-19 | a new name is inserted with code 0 and `'Added Snippet: name'`; an existing one is left alone with code -1 and the failure text; code 0 exactly when the name was new |
| DsCore.Delete | core/dsCore.py:21-31 | a present name is removed with code 0; an absent one gives -1 and leaves the registry alone |
| DsCore.Get | core/dsCore.py:33-37 | the stored snippet exactly when the name is present, otherwise None |
| DsCore.AddThenDelete | core/dsCore.py:9-31 | adding a new name and deleting it again restores the registry, and both succeed |
| DsCore.SecondAddFails | core/dsCore.py:9-19 | a second add of the same name fails, and the first snippet survives |
| DsCore.OutcomesDistinguishable | core/dsCore.py:9-31 | the rendered status of a success never equals that of a failure for the same name |
| DsCore.KeyList | core/dsCore.py:39-40 | the names listed are exactly the registry's, each once |
| DsCore.SnippetServer.constructor | core/dsCore.py:6-7 | an empty registry |
| DsCore.SnippetServer.AddSnippet | core/dsCore.py:9-19 | the registry and status move as Add says, a new name getting a fresh empty snippet |
| DsCore.SnippetServer.DeleteSnippet | core/dsCore.py:21-31 | the registry and status move as Delete says |
| DsCore.SnippetServer.GetSnippet | core/dsCore.py:33-37 | as Get says |
| DsCore.SnippetServer.ListSnippets | core/dsCore.py:39-40 | the names listed are exactly the registry's, each once |
| DsCore.SnippetServer.DeleteAllSnippets | core/dsCore.py:42-43 | the registry becomes empty |
| DsTypes.FirstColonEndsCode | core/dsTypes.py:22-23 | in `Status <code>: <message>` the first `:` comes right after the code |
| DsTypes.StatusStringInjective | core/dsTypes.py:22-23 | the rendering loses nothing: equal strings come from equal statuses |
| DsTypes.IntToStringInjective | core/dsTypes.py:22-23 | the decimal rendering of integers is injective |
| SnippetCore.PyIndex | core/snippet.py:69 | Python's `row[x]`: a negative index counts from the end |
| SnippetCore.ApplyFilter | core/snippet.py:66-70 | one row per input row, holding that row's values at the filter positions; defined exactly when every filter index is valid for every row |
| SnippetCore.RemoveAt | core/snippet.py:81-83 | `del data[index]` behind `index < len(data)`: at or past the end nothing changes; a negative index counts from the end; below `-len` it raises IndexError |
| SnippetCore.RemoveAtLength | core/snippet.py:81-83 | a successful removal shortens the list by one exactly when the guard let it through |
| SnippetCore.X0Of | core/snippet.py:258-263 | the first point's vector, or the integer 0 without data |
| SnippetCore.PositiveAppend | core/snippet.py:266-272 | the positive examples of a concatenation are the concatenation of the positive examples |
| SnippetCore.PositiveExact | core/snippet.py:266-272 | a vector is a positive example exactly when some point with a positive score has it |
| SnippetCore.DefaultFilter | core/snippet.py:274-293 | the ascending indices, below the first point's length, of the parameters some point does not hold (relatively) close to the first point's value; None where a point is too short |
| SnippetCore.SinglePointFiltersNothing | core/snippet.py:274-293 | a single point varies nowhere, so its default filter is empty |
| SnippetCore.MaxFromZero | core/snippet.py:306-312 | the running maximum from 0 bounds every value and is non-negative |
| SnippetCore.MaxFromZeroAttained | core/snippet.py:306-312 | the running maximum is 0 or one of the values |
| SnippetCore.AboveExact | core/snippet.py:315-319 | an id is selected exactly when one of its occurrences has a value above the threshold |
| SnippetCore.RunningMax | core/snippet.py:306-312 | the loop computes MaxFromZero |
| SnippetCore.SelectAbove | core/snippet.py:315-319 | the loop keeps, in order, the ids whose value exceeds the threshold |
| SnippetCore.SelectAboveFraction | core/snippet.py:306-319 | the two loops select above `fraction ×` the running maximum |
| SnippetCore.ScaleBelow | core/snippet.py:316 | a fraction below 1 of a positive maximum is below it |
| SnippetCore.PeakSelected | core/snippet.py:302-321 | when some value is positive and the fraction is below 1, the selection is not empty |
| SnippetCore.Magnitudes | core/snippet.py:310 | each sweep's range is `max(mean) - min(mean)` |
| SnippetCore.Peaks | core/snippet.py:333 | each sweep's best mean |
| SnippetCore.IdentifyHighImpactParams | core/snippet.py:302-321 | None exactly when a sweep is empty (where `max()` raises); otherwise the ids whose range exceeds `magnitudeThreshold ×` the largest range |
| SnippetCore.IdentifyBestParams | core/snippet.py:325-344 | None exactly when a sweep is empty; otherwise the ids whose best mean exceeds `bestThreshold ×` the largest best mean |
| SnippetCore.Snippet.constructor | core/snippet.py:48-51 | the name, no data, an empty filter |
| SnippetCore.Snippet.SetData | core/snippet.py:72-73 | the data becomes the items |
| SnippetCore.Snippet.AddData | core/snippet.py:75-79 | one point appended at the end |
| SnippetCore.Snippet.RemoveData | core/snippet.py:81-83 | the data moves as RemoveAt says; on IndexError it is unchanged |
| SnippetCore.Snippet.PosExamples | core/snippet.py:266-272 | the loop returns the positive examples, in order |
| SnippetCore.Snippet.TrainGuard | core/snippet.py:144-160 | no data returns status -1 with its message and touches nothing; otherwise the filter becomes the custom one or the default one |
| Samplers.CheckSimilarity | core/samplers.py:49-61 | rejects exactly when there is an accepted sample and either the cap `1e2` or some distance is below epsilon |
| Samplers.ParseMode | core/samplers.py:300-316 | the four mode names map to their modes; any other leaves the threshold function unset |
| Samplers.Accepts | core/samplers.py:300-316 | `gt`/`lt`/`absRadius`/`radius` tests as written; an unset function raises AttributeError, and a missing target raises TypeError |
| Samplers.GtLtComplement | core/samplers.py:302-306 | `gt` and `lt` with the same threshold agree on rejecting only at the threshold itself |
| Samplers.RadiusWithinAbsRadius | core/samplers.py:308-316 | a `radius` accept is an `absRadius` accept around the same target, for a threshold above the target |
| Samplers.ScoreDiffPrefix | core/samplers.py:320-327 | the separation check only gets stricter as more samples are accepted |
| Samplers.ClampFreeParams | core/samplers.py:275-276 | the free-parameter count is clamped to the filter length and never raised |
| Samplers.Decide | core/samplers.py:402-404 | GenericRejection accepts when the mean exceeds the threshold (line 165); Rejection applies the threshold function (errors included) and then the separation check |
| Samplers.Chosen | core/samplers.py:410-435 | the candidates the log marks as accepted, in order |
| Samplers.CopiesAppend | core/samplers.py:410-418 | appending an accepted record keeps the accepted list a copy of the chosen candidates |
| Samplers.SeparatedAppend | core/samplers.py:320-404 | appending a mean that passed the check keeps accepted means pairwise more than `scoreDelta` apart |
| Samplers.LogOkAppend | core/samplers.py:425-466 | each log record's free-parameter count stays in its band, and attempts restart after an accept or a lowering |
| Samplers.AcceptKeepsInv | core/samplers.py:410-444 | accepting keeps the loop invariant: numbered, copied records; `count += 1`; attempts reset; the free-parameter limit raised by one toward its start value |
| Samplers.RejectKeepsInv | core/samplers.py:445-466 | rejecting keeps the invariant: attempts and rejected grow; past `retries` above the floor, the limit drops by one and attempts reset |
| Samplers.DecidedAppend | core/samplers.py:402-466 | logging Decide's verdict for the next candidate, and adding a record exactly on an accept, keeps every logged decision Decide's verdict given the records accepted before it |
| Samplers.Consume | core/samplers.py:367-466 | one loop pass is Step: it accepts, rejects, or stops on a raising threshold function without logging, as Decide says, and keeps the invariant and Decided |
| Samplers.RunController | core/samplers.py:367-466 | the run is the iterate `Run` of Step from the initial variables; every logged accept or reject is Decide's verdict given the records accepted before it; the run stops only when the loop condition fails, the threshold function raises or candidates run out; it accepts at most n; accepted records are numbered copies of the chosen candidates; the free-parameter limit stays between the floor and its start; Rejection's accepted means are pairwise separated |
| Samplers.Unfilter | core/samplers.py:633-638 | None exactly when a write index is out of range (IndexError); otherwise the writes into a copy of x0, in order |
| Samplers.WritesPositions | core/samplers.py:633-638 | with distinct positions, `x[i]` lands at `subset[i]` and every other entry keeps x0's value |
| Samplers.InitFrequencyTable | core/samplers.py:687-709 | None where an index is invalid or no default filter exists; otherwise each parameter's count is 1 plus its mentions over the points (their `affected` list, or the default filter when that is empty), and `maxFreq` is the largest count plus 1 |
| Samplers.CountTargets | core/samplers.py:694-700 | the inner loop adds one count per mention |
| Samplers.RatiosBelowOne | core/samplers.py:703-716 | every selection ratio lies strictly between 0 and 1 |
| Samplers.Picked | core/samplers.py:711-719 | the ascending indices whose draw is below the frequency ratio |
| Samplers.SelectParams | core/samplers.py:711-719 | the loop selects exactly the Picked indices |
| Samplers.DrawAtLeastOneNeverPicked | core/samplers.py:703-716 | a draw of 1 or more never selects |
| Mixer.BtVecEq | core/mixer.py:31-33 | TypeError for an empty `a` (`reduce` without an initial value); IndexError when `b` is shorter; otherwise whether `a` is a prefix of `b` |
| Mixer.IsDuplicateIsMembership | core/mixer.py:36-42 | for a non-empty vector and generators of its length, `isDuplicate` is membership |
| Mixer.Active | core/mixer.py:56-59 | the ascending indices where `a` and `b` are not close (relative tolerance `1e-3`) |
| Mixer.ActiveParams | core/mixer.py:56-59 | the loop computes Active |
| Mixer.Zvec | core/mixer.py:69-71 | bit 0 where the draw exceeds the bias, 1 otherwise |
| Mixer.Pick | core/mixer.py:76-81 | a copy of `a` taking `b`'s value at each active index whose bit is 1 |
| Mixer.GensFirstAttempt | core/mixer.py:65-88 | with at least one attempt there is a result, and the first is the first attempt's generator |
| Mixer.GensDistinct | core/mixer.py:72-83 | no generator is added twice |
| Mixer.GensFromDraws | core/mixer.py:65-83 | every generator is the bit vector of one of the attempts made |
| Mixer.GensComplete | core/mixer.py:65-88 | until the loop stops, every attempt's bit vector is among the generators |
| Mixer.GensStopped | core/mixer.py:85-87 | once `count` results exist, later attempts change nothing |
| Mixer.Attempt | core/mixer.py:67-83 | one attempt moves the generators from Gens after t attempts to Gens after t + 1, appending exactly when the bit vector is new, and every result blends `a` and `b` by its generator |
| Mixer.Generate | core/mixer.py:65-88 | the generators are, in order, Gens of the draws: each attempt's bit vector unless a duplicate, until `count` results exist; at most `attempts` and at most `max(count, 1)` results; pairwise distinct generators; each result blends `a` and `b` as its generator says |
| Mixer.Mix | core/mixer.py:50-90 | None exactly when `b` is shorter than `a` (IndexError); otherwise the active list, no results for identical vectors, and otherwise the generators Gens gives, so at least one result for at least one attempt, with `count` the number of results |
| Mixer.MixSnippets | core/mixer.py:129-133 | a missing `method` raises KeyError; `"mixGPAll"` dispatches to mixGPAll; anything else returns None |
| Mixer.CombineData | core/mixer.py:97-110 | a fresh snippet named `combined` whose data is every snippet's data, in order; IndexError with no snippets |
| Jitter.Clamp | core/jitter.py:32-38 | the lower bound is compared first, then the upper |
| Jitter.ClampInRange | core/jitter.py:32-38 | with ordered bounds the result lies between them, and clamping is idempotent |
| Jitter.ClampNear | core/jitter.py:52-55 | clamping to [0, 1] moves a point of [0, 1] by no more than the step |
| Jitter.PerturbShape | core/jitter.py:49-55 | entries never named keep x0's value; named ones end up in [0, 1] |
| Jitter.PerturbNear | core/jitter.py:49-55 | with distinct affected indices, x0 in [0, 1] and draws in [-1, 1], every entry moves by at most delta |
| Jitter.Targets | core/jitter.py:43-44 | a missing `affectedParams` means every index |
| Jitter.PerturbCopy | core/jitter.py:49-55 | the inner loop computes one perturbed copy |
| Jitter.Jitter | core/jitter.py:41-64 | None exactly when a sample is taken (`n > 0`) and an affected index is out of range; otherwise `max(n, 0)` samples, each one perturbed copy with its index and its score (0 without a score function) |
| Jitter.JitterSampleShape | core/jitter.py:47-64 | every sample matches x0 off the affected indices and lies in [0, 1] on them |
| Substance.RemoveFirstCR | client/node-ui/src/renderer/store/backend/substance.js:36 | only the first carriage return is dropped |
| Substance.Arg | client/node-ui/src/renderer/store/backend/substance.js:75-79 | a setting's value piece exists exactly when the line has two pieces |
| Substance.ChunkParams | client/node-ui/src/renderer/store/backend/substance.js:29-95 | one `INPUT` chunk adds 0, 1 or 3 parameters, numbered on from the table's length; a chunk whose pieces are missing throws |
| Substance.SkippedInputs | client/node-ui/src/renderer/store/backend/substance.js:35-66 | `$outputsize`, `$randomseed` and BOOLEAN inputs add nothing |
| Substance.Float3Expands | client/node-ui/src/renderer/store/backend/substance.js:38-62 | a FLOAT3 input becomes `name_r`, `name_g`, `name_b` in [0, 1], valued from the last DEFAULT line |
| Substance.ScalarDefaults | client/node-ui/src/renderer/store/backend/substance.js:67-93 | any other input is one parameter whose missing min and max default to 0 and 1 |
| Substance.Loaded | client/node-ui/src/renderer/store/backend/substance.js:24-96 | the table after the first chunks; every id equals its position |
| Substance.LoadChunk | client/node-ui/src/renderer/store/backend/substance.js:29-95 | a chunk keeps ids equal to positions; after a throw nothing more is added |
| Substance.StoppedStaysStopped | client/node-ui/src/renderer/store/backend/substance.js:17-101 | once parsing has thrown, later chunks add nothing |
| Substance.WithValues | client/node-ui/src/renderer/store/backend/substance.js:120-125 | the first `min(|vec|, |params|)` values are written by position; the rest stay |
| Substance.WithValuesKeepsShape | client/node-ui/src/renderer/store/backend/substance.js:120-125 | writing values keeps names, types, ranges and ids |
| Substance.Backend.constructor | client/node-ui/src/renderer/store/backend/substance.js:13 | an empty table |
| Substance.Backend.LoadParams | client/node-ui/src/renderer/store/backend/substance.js:15-102 | a failed tool run leaves the table; otherwise it is rebuilt from the chunks as far as parsing gets |
| Substance.Backend.Push | client/node-ui/src/renderer/store/backend/substance.js:55-62 | parameters appended in order |
| Substance.Backend.SetParam | client/node-ui/src/renderer/store/backend/substance.js:116-118 | only the value at a valid id changes; an undefined entry throws and nothing changes |
| Substance.Backend.SetAllParams | client/node-ui/src/renderer/store/backend/substance.js:120-125 | the values are written as WithValues says; a vector longer than the table throws after the writes |
| Particles.ParamSet | client/node-ui/src/renderer/store/backend/particles.js:16-24 | five parameters, ids 0 to 4, each ranged [0, 1] |
| Particles.ParamSetLinks | client/node-ui/src/renderer/store/backend/particles.js:19-21 | links name other parameters of the set, never the parameter itself, go both ways, and join the three colour channels |
| Particles.ShapeIndex | client/node-ui/src/renderer/store/backend/particles.js:41 | `max(0, floor(5s - 1e-6))`: non-negative, at most 4 on [0, 1] |
| Particles.ShapeBands | client/node-ui/src/renderer/store/backend/particles.js:41 | shape k is chosen exactly when `5s` lies in `[k + 1e-6, k + 1 + 1e-6)`, or below that for k = 0 |
| Particles.ShapeName | client/node-ui/src/renderer/store/backend/particles.js:6-41 | defined exactly when the index is below 5, and always on [0, 1] |
| Particles.ParamsToPjs | client/node-ui/src/renderer/store/backend/particles.js:26-44 | count `500 s0`, channels `255 s1..s3`, shape from `s4`; undefined for a state with fewer than five entries |
| Particles.PjsInRange | client/node-ui/src/renderer/store/backend/particles.js:26-44 | a state in the unit cube gives at most 500 particles and channels in [0, 255] |
| Particles.RenderState | client/node-ui/src/renderer/store/backend/particles.js:85-88 | `settings.state` when present and non-empty, otherwise the parameter values |
| Particles.DefaultRender | client/node-ui/src/renderer/store/backend/particles.js:16-44 | drawing the default set gives 100 white circles |
| Particles.Backend.constructor | client/node-ui/src/renderer/store/backend/particles.js:4 | an empty table |
| Particles.Backend.LoadNew | client/node-ui/src/renderer/store/backend/particles.js:61-71 | the table becomes the default set |
| Particles.Backend.SetParam | client/node-ui/src/renderer/store/backend/particles.js:75-77 | only the value at a valid id changes; otherwise it throws and nothing changes |
| Particles.Backend.SetAllParams | client/node-ui/src/renderer/store/backend/particles.js:78-82 | values written by position; a longer vector throws after the table's length |
| Particles.Backend.Render | client/node-ui/src/renderer/store/backend/particles.js:83-90 | the configuration drawn from RenderState |
| LogToFile.Copies | client/node-ui/src/renderer/store/logToFile.js:42 | n copies of the string, end to end |
| LogToFile.Repeat | client/node-ui/src/renderer/store/logToFile.js:41-43 | `new Array(times + 1).join(str)`: `times` copies, empty for -1, RangeError below |
| LogToFile.Pad | client/node-ui/src/renderer/store/logToFile.js:45-47 | zeros in front of the digits up to the length; RangeError when the digits exceed it by two or more |
| LogToFile.PadValue | client/node-ui/src/renderer/store/logToFile.js:45-47 | padding does not change the number the digits spell |
| LogToFile.PadField | client/node-ui/src/renderer/store/logToFile.js:45-47 | a number below `10^L` pads to exactly L digits |
| LogToFile.FormattedTime | client/node-ui/src/renderer/store/logToFile.js:18-21 | `HH:MM:SS.mmm` from the clock fields, at least eight characters |
| LogToFile.FormattedTimeLayout | client/node-ui/src/renderer/store/logToFile.js:18-21 | a valid clock gives twelve characters, separators in place, and fields that read back as the clock's |
| LogToFile.Record | client/node-ui/src/renderer/store/logToFile.js:22-30 | the logged object: time, formatted time, type, payload and `mutation <type> @ <time>` |
| LogToFile.Logger.constructor | client/node-ui/src/renderer/store/logToFile.js:6-14 | whether the file opened, nothing written |
| LogToFile.Logger.OnMutation | client/node-ui/src/renderer/store/logToFile.js:16-37 | one serialised record plus a newline per mutation when the file is open |
| Common.Placement | client/node-ui/src/renderer/components/common.js:10-19 | the target fits the window when it can; otherwise it is pulled back so the menu ends exactly at the padded edge; never beyond it, never past the target |
| Common.NoLowerClamp | client/node-ui/src/renderer/components/common.js:14-16 | a menu wider than the window is placed at a negative position |
| Common.Elem.constructor | client/node-ui/src/renderer/components/common.js:1-8 | an element with its offsets and no position |
| Common.PlaceMenu | client/node-ui/src/renderer/components/common.js:1-23 | `left`/`top` become the Placement's coordinates with `px`; defaults 0, 0, 20, 70 |
| LogEvents.Last | client/node-ui/analysis/analyzeLog.js:141-147 | the last event of a kind: None exactly when there is none; otherwise an event of the log of that kind |
| LogEvents.LastIsLatest | client/node-ui/analysis/analyzeLog.js:141-147 | the value is the latest event of its kind |
| LogEvents.GroupedSnoc | client/node-ui/analysis/analyzeLog.js:135-139 | one more line extends its kind's group by that event |
| LogEvents.GroupedIsOfKind | client/node-ui/analysis/analyzeLog.js:132-139 | the groups' keys are exactly the kinds seen, and each group is that kind's events in order |
| LogEvents.OfKindSize | client/node-ui/analysis/analyzeLog.js:153-193 | a kind's group has as many events as the kind occurs |
| LogEvents.GroupSizesAddUp | client/node-ui/analysis/analyzeLog.js:132-193 | the group sizes count their kinds and add up to the number of events |
| AnalyzeLog.Analyzer.constructor | client/node-ui/analysis/analyzeLog.js:129-130 | no groups, no start or end |
| AnalyzeLog.Analyzer.OnLine | client/node-ui/analysis/analyzeLog.js:132-148 | the event joins its kind's group; a trial start or end records its time |
| AnalyzeLog.ReadLog | client/node-ui/analysis/analyzeLog.js:132-148 | after every line the groups are Grouped(log) and start/end the latest trial start/end times |
| AnalyzeLog.Summary | client/node-ui/analysis/analyzeLog.js:153-194 | the six counts are always produced; the duration is `(end - start) / 1000`, and a missing start or end throws only at that last line |
| AnalyzeLog.ReportCounts | client/node-ui/analysis/analyzeLog.js:153-193 | for every log, each reported count is the number of events of its kind, whether or not the trial events are present |
| AnalyzeLog.ExamplesMerged | client/node-ui/analysis/analyzeLog.js:181-185 | `ADD_EXAMPLE` is one string for the mutation and the action, so "Examples Added" sums both |
| Timeline.PhaseOf | client/node-ui/analysis/timeline.js:17-54 | a kind's phase exactly when it is a phase event, and every phase has a color |
| Timeline.SharedPhaseStarts | client/node-ui/analysis/timeline.js:17-30 | the strings the mutation and action tables share start the same phase |
| Timeline.Phases | client/node-ui/analysis/timeline.js:65-82 | the phase events in order, each with its phase |
| Timeline.PhasesAppend | client/node-ui/analysis/timeline.js:65-82 | the markers of two logs end to end are the markers of their concatenation |
| Timeline.PhasesComplete | client/node-ui/analysis/timeline.js:78-82 | every phase event of the log has a marker |
| Timeline.Filter | client/node-ui/analysis/timeline.js:84-90 | an event is collected exactly when it is a `mutation` `ADD_EXAMPLE` (examples) or an `action` `SHOW_TEMPORARY_STATE` (previews): sound and complete |
| Timeline.Collect | client/node-ui/analysis/timeline.js:65-91 | the loop gathers the markers, examples, previews, latest trial start and end, and the end event |
| Timeline.Telescope | client/node-ui/analysis/timeline.js:107-119 | the interval lengths add up to end time minus the first marker's time |
| Timeline.PhaseTotalsSpan | client/node-ui/analysis/timeline.js:107-119 | the per-phase totals cover exactly the phases seen and add up to the span from the first marker to the end |
| Timeline.TotalTime | client/node-ui/analysis/timeline.js:107-119 | the loop throws exactly when there are markers but no end event; otherwise it computes the per-phase sums |
| Timeline.Run | client/node-ui/analysis/timeline.js:56-185 | throws exactly when there is no marker or no trial end; otherwise the per-phase totals, and `duration = end - start` when a trial start exists |
| Timeline.Label | client/node-ui/analysis/timeline.js:137-153 | `tw`, `aw`, `nr`, `ax` or empty, from `thresholdEvalMode` and `threshold`, each case an iff |
| Timeline.UnlabelledModes | client/node-ui/analysis/timeline.js:137-153 | `gt` with a negative threshold and `radius` draw no label |
| Grouping.Keys | client/node-ui/analysis/timeline.js:116 | the distinct keys in first-appearance order |
| Grouping.SumsStep | client/node-ui/analysis/timeline.js:116-118 | one more element adds its value under its key, creating the key at 0 |
| Grouping.SumByKey | client/node-ui/analysis/timeline.js:107-119 | the per-key sums add up to the total |
| Grouping.CountsAddUp | client/node-ui/analysis/verifyUse.js:111-122 | the per-key counts add up to the length |
| VerifyUse.LogLinesRoundTrip | client/node-ui/analysis/verifyUse.js:47-50 | reading a file of newline-terminated lines gives back the lines |
| VerifyUse.Classify | client/node-ui/analysis/verifyUse.js:73-89 | which `used` flag a kind sets, in the branch order of the source, each an iff |
| VerifyUse.Mark | client/node-ui/analysis/verifyUse.js:73-89 | one flag set; the others unchanged |
| VerifyUse.UsedByMeaning | client/node-ui/analysis/verifyUse.js:69-89 | a flag is set exactly when some event of the log is classified under it |
| VerifyUse.Table | client/node-ui/analysis/verifyUse.js:91-95 | only `mutation` and `action` have a group table |
| VerifyUse.Scan | client/node-ui/analysis/verifyUse.js:69-104 | the loop throws exactly when some event's `stateType` is neither `mutation` nor `action`; otherwise it gives the flags, the nested groups and the latest start and end |
| VerifyUse.ScannedMeaning | client/node-ui/analysis/verifyUse.js:69-104 | what the fold computes: the error condition, and otherwise the flags, groups and times |
| VerifyUse.NestedGroupsHold | client/node-ui/analysis/verifyUse.js:91-95 | each state type's table groups that state type's events by kind |
| VerifyUse.AllKeys | client/node-ui/analysis/verifyUse.js:111 | every key of every log's totals |
| VerifyUse.AddLog | client/node-ui/analysis/verifyUse.js:111-122 | adding one log's totals keeps `counts[key]` the number of logs having the key and `times[key]` the sum of their totals |
| VerifyUse.NotCounted | client/node-ui/analysis/verifyUse.js:111-122 | a key no log has is counted by none |
| VerifyUse.ProcessLog | client/node-ui/analysis/verifyUse.js:50-107 | a log fails exactly when scanning throws or its timeline throws; otherwise its per-phase totals |
| VerifyUse.Task | client/node-ui/analysis/verifyUse.js:42-139 | one task over its logs: throws exactly when some log fails; otherwise the tallies over every log's totals |
| VerifyUse.CountedPositive | client/node-ui/analysis/verifyUse.js:111-122 | a key some log has is counted at least once |
| VerifyUse.AverageBetween | client/node-ui/analysis/verifyUse.js:145-149 | a printed average lies between the smallest and largest per-log total, in seconds |

## Left out

- GP training, prediction and loss plotting (gpytorch, torch): not modelled. Predictions, means and covariances are inputs to the sampler, sweep and mixer models.
- The Bootstrap sampler's expected-improvement search (`scipy.optimize.minimize`, `norm.cdf`): not modelled, since it is floating-point optimisation. Its `unfilter`, `initFrequencyTable` and `selectParams` are modelled.
- Samplers: the reject record's key is `attempt` (core/samplers.py:449), not `attempts`; the model's log entry has one field for both.
- Samplers: the finalize line divides by `rejected + len(accept)` (core/samplers.py:473, and line 234 for GenericRejection), which raises ZeroDivisionError when nothing was decided; the model stops at the end of the loop and does not model the finalize step.
- Samplers: `posExamples[0]` (core/samplers.py:377-380) raises IndexError when there are no positive examples; candidates are inputs, so that failure is not modelled.
- Default arguments: `n=20` (core/jitter.py:41) and `bias=0.5`, `attempts=100` (core/mixer.py:50) are ordinary parameters of `Jitter.Jitter` and `Mixer.Mix`; callers pass the defaults explicitly.
- DSStatus's default arguments (core/dsTypes.py:17): every call in the core passes both, so the model's constructor takes both.
- DsNodeDriver: `socket` is one module-level variable (client/node-ui/src/renderer/store/driver/dsNodeDriver.js:4, assigned at line 13), shared by every `DsDriver`; the model gives each instance its own connection flags and outbox, so two drivers aliasing one socket is not captured.
- Sampler threads, the stop event, logging and the `cb`/`final` callbacks: not modelled, because they are concurrency and I/O. `Samplers.RunController` ends where the loop condition fails or the input stream of candidates ends; an early stop is the stream ending.
- Randomness (`random.random`, `random.uniform`, `random.shuffle`, `dist.Uniform`): draws and shuffled lists are inputs.
- Floating point: every number is a mathematical real, so NaN, rounding and `1e-6` float effects are not modelled, except that `parseFloat` may yield NaN in `Substance`.
- Socket.io transport, reconnection and delivery order: each relay is modelled as a function of an already-ordered event sequence. `RelayWire.Delivered` states what a transport delivers.
- Logging through winston and `console.log`: not modelled.
- The driver's `execCb`: not modelled, since it passes the callback straight to the socket.
- `exec` timing (promises, `await`): not modelled.
- The store's actions, which call the driver and electron-settings, and file I/O (`SAVE_SNIPPETS`, `LOAD_SNIPPETS`, `SET_CACHE_KEY`): not modelled, since they are I/O.
- The settings mutations (`SET_SNIPPET_SETTING`, `LOAD_SNIPPET_SETTINGS`) and the sample and status mutations: not modelled. They only assign fields.
- `UPDATE_ACTIVE_SNIPPET`: not modelled; it behaves like `SET_ACTIVE_SNIPPET` on the active name.
- SnippetsStore.DeleteExample: a non-integer or NaN `index` passed to `splice` is not modelled (the index is an integer).
- SnippetsStore.Store.SetParamColorData: the `meanMin`/`meanMax` fields written into the caller's object are returned as the new `paramData` only.
- `Vue.set` reactivity and JavaScript object identity: a record moved by RENAME_SNIPPET is modelled as a value, so aliasing between `activeSnippet` and the map is not captured.
- Substance: `execSync` of `sbsmutator` and `path.join` are not modelled. The tool's output text, or its failure, is an input.
- Substance and Particles: the `renderer` canvas work, `findSameCanvas`, `particlesRefresh` and `particlesJSWithCanvas` are not modelled. Particles' renderer is modelled up to the configuration it hands over.
- LogToFile: `fs.ensureFileSync`/`openSync` are not modelled beyond whether the file opened. `fs.write` errors and `JSON.stringify`'s exact text are not modelled either; the serialiser is an input.
- LogToFile.FormattedTime: `new Date()` is the clock fields as inputs; time zones are not modelled.
- Common.PlaceMenu: `window.innerWidth`/`innerHeight` are inputs. The `${x}px` string is modelled by the integer placement.
- Analysis scripts:
  - `readline`, `JSON.parse` and `fs.readFileSync` are not modelled; the log is a sequence of parsed events whose times are milliseconds.
  - SVG drawing (`svg.js`, `svgdom`) and file writing are not modelled.
  - `path.join` over the fixed lists of ids and tasks is not modelled; `VerifyUse.Task` takes the task's logs as a sequence.
- analysis/actions.js is not part of this model. The event strings are the copy of its tables at client/node-ui/analysis/analyzeLog.js:2-116.
- JavaScript's `in` also finds inherited keys such as `"constructor"` on `{}`; the model's maps have only their own keys.
- Timeline.Positive: `threshold > 0` on a string or other non-number, which JavaScript coerces, is treated as false; `threshold === 0` is exact.
- Key order: the JavaScript and Python dictionaries iterate in insertion order. The model's maps are unordered:
  - `DsCore.KeyList` and `DsCore.SnippetServer.ListSnippets` promise every name once, not insertion order;
  - `SnippetCore.IdentifyHighImpactParams` takes the sweep as an ordered list.
- DsTypes.TrainingString: Python's rendering of a list and a float is not modelled. The function takes those renderings as text, and no property beyond the format is stated.
- Both relays register a backend only when it answers the role query with `'server'` (server/toolboxServer.js:77, server/dsRelay.js:69).
- The driver only checks `typeof name === 'string'`, so an empty name passes (`DsNodeDriver.EmptyNamePasses`).
- Python's unbounded integers and JavaScript numbers are both modelled as `int`/`real` without overflow.

## Findings

| source | as written | input that shows it | evidently intended | confidence | as-written member | corrected member |
|---|---|---|---|---|---|---|
| client/node-ui/src/renderer/store/modules/snippets.js:230-237 | RENAME_SNIPPET tests only that `renameTo` is free. It reads `state.snippets[data.active]` without checking that it exists, stores `undefined` under the new name, and then throws on `Vue.set(undefined, 'name', …)` | an empty store, `{renameTo: "b", active: "a"}`: the store is left with `b: undefined` | like COPY_SNIPPET (lines 217-229), rename only when `active` exists, and otherwise change nothing | medium; not executed | SnippetsStore.RenameAsWritten, SnippetsStore.RenameAbsentLeavesUndefined | SnippetsStore.RenameSnippet |
