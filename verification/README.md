# RaceLink host: scene compiler, gateway link and stores

This project models the RaceLink host plugin, which drives a fleet of radio-controlled LED devices, and
proves properties of the model.

**The scene compiler.** A scene is a list of actions that arrives as untrusted JSON. The host validates it
(`SceneActions`, `Canonicalisation`, `ValidatorLoops`), may widen group lists that name every known group to a
broadcast, and renumbers group ids when a group is deleted (`SceneEdits`, `Renumbering`). It plans each action
into wire operations (`Optimizer`, `Planner`), turns operations into packet bodies (`Packets`, `ControlBody`,
`Offsets`; `ControlExtraction` holds the two places that read packet fields out of parameters), runs the plan
(`Runner`) and prices it (`Estimator`). What a plan means is what it does to a fleet
(`Fleet`): every device has a group, an active and a pending offset configuration, and a gate that admits an
effect packet only if its OFFSET_MODE flag matches the device's state. `Container` proves that an offset
container leaves exactly the right devices in offset mode with the right offsets and that exactly those
devices play its children, whichever of the three dispatch strategies was picked. `CollapseMeaning` proves that
the save-time widening changes nothing for any device of a known group, and `RenumberMeaning` when the renumbering that
follows a group deletion leaves a device its part in a scene.

**The gateway link.** Each region that holds a lock is one atomic step, and a theorem about the link holds for
every sequence of steps. `FrameReader` is the byte-stream reader, `SendOutcome` the single outcome slot behind
the transmit lock (down to single bytes on the wire), `PendingRegistry` the outstanding unicast requests,
`PendingExpect` the expectation that is ended by compare-and-clear, `Collector` the timed collector, `Retries` the
unicast retry loop and `Streams` the acknowledged stream. `SendOutcome` and `FrameReader` meet in one theorem: the
bytes any interleaving of senders leaves on the wire decode to the messages sent, in lock order.

**The stores.** `VersionedStore` is the part that the scene store and the preset store share, `StoreService` its
methods, `StoreProofs` what every run keeps, `IdLedger` the id arithmetic, and `SceneStore` and `PresetStore` the
two kinds of content.

Where the source updates things step by step (the validator's loops, the collapse and renumber walks, the
optimizer, the runner, the estimator, the stores, the reader, the transport, the registry, the collector) the
model has classes and methods with loops. Each is proved equal to a specification function, and the lemmas are
about that function. Python's `ValueError`, which the scene loader catches, is kept apart from every other
exception, which it does not.

## Where an expected property does not hold

- Waiting for an outcome gives the transmit lock up, so a second sender can register over the first. The
  docstring of `_send_m2n` says the lock enforces a single send in flight; it does not.
  `SendOutcome.SafeToBeginIff` is the exact condition: over every gateway that answers each frame once, in order and
  in time, beginning a call is safe if and only if no other call is out. `SendOutcome.AnswersReachTheirSenders` is the
  good half over whole runs. The bad half has two shapes from every such state: the second call takes the first one's
  answer (`SendOutcome.AnswerGoesAstray`), or the first call, answered in time, clears the second one's registration as
  it returns (`SendOutcome.WakeClearsAnother`).
- One sender at a time is not enough either: the answer to a call that gave up goes to the next call.
  `SendOutcome.OneSenderRightIff` is the exact condition over whole runs of one sender: every call returns its own answer
  if and only if no wait expires before its frame was answered. `SendOutcome.LaterCallsSafeIff` is the condition between
  two calls: later calls are safe if and only if no answer is owed.
- A broadcast formula with one known group is sent as one EXPLICIT packet to that group, not as a broadcast:
  `Optimizer.SetupClosedForm` states which strategy is picked when. `Container.SetupMeaning` therefore speaks about
  known groups, not about every device.
- Collapsing an explicit container to broadcast gives an action the next load drops, with every other action of
  its scene. `SceneEdits.CollapseKeepsCanonical` says when, `SceneStore.CreateReloadsIff`,
  `SceneStore.UpdateReloadsIff` and `SceneStore.DuplicateReloadsIff` that this is the only way disk and memory come
  apart, and `SceneStore.SpoiledSceneLosesItsActions` what is lost.
- Explicit offsets may name a group twice. `Renumbering.RenumberedReloads` gives the exact condition under which a
  renumbered action validates again; `Renumbering.DuplicateIdsFailRevalidation` is a canonical action that fails it. One
  such action in a touched scene makes the whole renumbering raise, and then no scene is rewritten:
  `SceneStore.RenumberCallIff`. The route that deletes the group logs this and goes on (racelink/web/api.py:786-800).
- Renumbering does not always keep a device's part in a scene. Its group may merge with group 0, so that a target reaches
  it that did not before: `RenumberMeaning.RenumberedReachIff` is exact. And a container's offset is computed from the new
  group number: `RenumberMeaning.RenumberedOffsetIff` says when it stays, `RenumberMeaning.ExplicitOffsetKeptIff` and
  `RenumberMeaning.LinearOffsetKeptIff` what that means for explicit and linear offsets, and
  `RenumberMeaning.FormulaOffsetMoves` is a container whose device plays 100 ms earlier after an unrelated group is
  deleted. Where both are kept, so is the meaning of the whole scene: `RenumberMeaning.RenumberPreservesMeaning`.
- A container with a degraded child sends nothing but is priced in full: `Estimator.DegradedIsOverpriced` says
  exactly when price and run disagree, and `Estimator.OverpricedContainer` is one such container.
- A known non-participant that is already in offset mode stays in it under the per-group strategy.
  `Container.ExactlyParticipantsIff` gives the exact condition.
- A stream's collector counts replies, not senders, so a repeated acknowledgement can end an attempt early.
  `Streams.CountHearsAllIff` is exact for every trace: an attempt that ended by count has heard every target if and
  only if there are no more repeats than replies to spare, and there are none to spare when the count was reached after
  sending by a reply that came alone (`Streams.TiesLeaveRepliesToSpare` shows why alone).
  `Streams.RepeatedAckEndsAttempt` is an instance, and
  `Streams.AttemptCompletesIff` says when an attempt completes the stream.
- A preset create claims its id before it validates, and so does every entry of a preset bulk replace, so the next id in
  memory can run ahead of the one in the file. `PresetStore.PresetCountersAgreeIff` gives the exact condition for every
  call with a warm or cold cache; `PresetStore.FailedCreateClaimsId` and `PresetStore.FailedReplaceClaimsIds` are the two
  kinds of input. Contents still agree: `PresetStore.PresetsStayMirrored`.
- An acknowledgement key wider than seven bits is filed but never looked up: `PendingRegistry.CandidateIff`, with
  `PendingRegistry.WideKeyIsNeverFound` for every such key. The one caller in the repository masks its keys to seven
  bits, so such a request can only come from a direct `register`.
- A reply whose request is completed after its caller stopped waiting is lost, and the event is spent even if another
  request waits for it: `PendingRegistry.ReplyReachesCallerIff` and `PendingRegistry.LateReplyIsLost`.
- A handler that acts on an old expectation leaves a newer one alone but still marks the device online or offline:
  `PendingExpect.SettleEndsIff`.
- A parsed OPC_OFFSET body is not always rebuilt byte for byte: the parser lets center 255 and cycle 0 through and
  the builder does not. `Packets.OffsetBodyRebuild` names the two cases.

## Model

| member | source | states |
|---|---|---|
| `Offsets.HostAgreesWithDevice` | racelink/domain/offset_formula.py:29-65 | the host's evaluator and the header's definition give every device of every group the same offset, within 0..65535 |
| `Offsets.ExplicitMsOfDistinct` | racelink/services/offset_dispatch_optimizer.py:154-165 | with distinct ids, the offset a group reads from an explicit list is that of its one entry |
| `Packets.OffsetBodyRoundTrip` | racelink/protocol/packets.py:107-194 | whatever the parameters, parsing a built OPC_OFFSET body gives the clamped configuration; validated ones come back unchanged; length 2..7 by mode |
| `Packets.OffsetBodyRebuild` | racelink/protocol/packets.py:163-194 | the other direction, and exactly which parsed bodies are rebuilt byte for byte |
| `Packets.FormulaThroughBytes` | racelink_proto.h:127-138 | through the bytes, a device evaluates a broadcast formula to what the host evaluates and to what an EXPLICIT packet would have carried |
| `Packets.FlagsByteBits` | racelink/domain/flags.py:48-70 | each flag is read back from its own bit and the reserved bits stay clear |
| `Packets.BuildFlagsByte` | racelink/domain/flags.py:48-70 | the byte built by successive or-ing is that byte |
| `Packets.BuildSyncBody` | racelink/protocol/packets.py:42-54 | a sync body has five bytes exactly when a flag is set, else four |
| `Packets.SyncBodyReads` | racelink/protocol/packets.py:42-54 | reading a sync body gives the clock modulo 2^24, the brightness and the flags, an absent flags byte reading as 0 |
| `ControlBody.ControlBodyRoundTrip` | racelink_proto.h:204-250 | decoding a built OPC_CONTROL body by the header's masks gives exactly the supplied fields, masked, the rest absent; custom3 and the checks share one presence bit |
| `ControlBody.ControlBodyShape` | racelink/protocol/packets.py:242-341 | the EXT bit is set exactly when an extended field is present, and the length is 3 + main fields + extension, always 3..21 |
| `ControlBody.BuildControlBody` | racelink/protocol/packets.py:242-341 | the builder that accumulates masks and bytes field by field returns that layout |
| `ControlBody.LowFieldsSameBody` | racelink/protocol/packets.py:242-341 | masking the numbers to a byte before the builder masks them again changes no body |
| `ControlExtraction.MeasureControlBody` | racelink/services/dispatch_planner.py:528-549 | the sizer's own reading of every field, for every parameter object: it raises exactly when the specification fails, and otherwise measures the specified body |
| `ControlExtraction.SendWledControl` | racelink/services/control_service.py:266-338 | the sender's own reading of the same fields, with its brightness path and flag byte, for every parameter object and destination: the packet is the specified one, and it raises exactly when that is undefined |
| `ControlExtraction.BoundAgrees` | racelink/services/control_service.py:297-330 | keyword arguments read from an object bind exactly its specified fields, masked, and a colour that does not unpack into three raises |
| `Canonicalisation.AcceptedIsCanonical` | racelink/services/scenes_service.py:667-735 | whatever the validator accepts is canonical: sorted, duplicate-free targets in 0..254, child groups within the container's, offsets in range; and a rejection is a ValueError except in the legacy rewrite |
| `Canonicalisation.CanonicalIffReloads` | racelink/services/scenes_service.py:667-735 | an action survives being written and read back if and only if it is canonical |
| `Canonicalisation.Idempotent` | racelink/services/scenes_service.py:667-735 | validating a validated action changes nothing |
| `Canonicalisation.CanonActionsSound` | racelink/services/scenes_service.py:738-745 | an accepted action list is canonical throughout and has at most 20 actions |
| `Canonicalisation.ActionsReloadIffCanonical` | racelink/services/scenes_service.py:738-745 | a list survives being written and read back if and only if it is canonical and short enough |
| `Canonicalisation.SingleGroupMeansList` | racelink/services/scenes_service.py:209-236 | the retired single-group target means the one-element list, accepted and rejected alike |
| `Canonicalisation.GroupsFieldMeansTarget` | racelink/services/scenes_service.py:377-451 | a container that spells its target in a groups field, as a list, "all", 255 or 255.0, is accepted and rejected like the container with that target |
| `Canonicalisation.FormulaEraMeaning` | racelink/services/scenes_service.py:574-648 | the formula-era groups_offset effect means the container with that target, block and one broadcast child |
| `Canonicalisation.EntryEraMeaning` | racelink/services/scenes_service.py:574-648 | the oldest groups_offset effect means the explicit container over the sorted groups, or the linear one its hint describes |
| `Canonicalisation.FormulaEraAlike` | racelink/services/scenes_service.py:574-648 | every action of the formula era, whatever its groups, offset, parameters, flags and other keys hold, is accepted and rejected exactly like the container it stands for, or raises what the conversion of its parts raises |
| `Canonicalisation.EntryEraAlike` | racelink/services/scenes_service.py:574-648 | so is every action of the oldest era, with the exceptions of ids, offsets and the child in that order |
| `ValidatorLoops.CanonicalGroupIds` | racelink/services/scenes_service.py:262-285 | the loop with its seen set accepts exactly the non-empty lists of distinct ids in range and returns them sorted |
| `ValidatorLoops.CanonicalValues` | racelink/services/scenes_service.py:499-526 | the loop over explicit values accepts exactly the valid lists and returns them sorted by id |
| `ValidatorLoops.CanonicalFlagsOverride` | racelink/services/scenes_service.py:651-664 | the loop copies exactly the user flags that are present |
| `SceneEdits.CollapseToBroadcast` | racelink/services/scenes_service.py:769-792 | the walk returns the collapsed list, and the original one when nothing changed or nothing is known |
| `SceneEdits.CollapseActionStep` | racelink/services/scenes_service.py:795-825 | one action's rewrite, with the changed flag set exactly when the content differs |
| `SceneEdits.CollapseKeepsCanonical` | racelink/services/scenes_service.py:795-825 | a collapsed action is canonical if and only if it is not an explicit container that covers every known group |
| `SceneEdits.RenumberList` | racelink/services/scenes_service.py:1237-1255 | the walk returns the renumbered list, with the changed flag set exactly when the content differs |
| `SceneEdits.RenumberStep` | racelink/services/scenes_service.py:1287-1373 | one action's rewrite, with an exact changed flag |
| `SceneEdits.ShiftTargetStep` | racelink/services/scenes_service.py:1258-1284 | the shifted, de-duplicated target, with an exact changed flag |
| `SceneEdits.ShiftValuesStep` | racelink/services/scenes_service.py:1327-1360 | the shifted explicit values with the first entry kept on a collision, with an exact changed flag |
| `Renumbering.ShiftedTargetIsImage` | racelink/services/scenes_service.py:1258-1284 | a renumbered target list holds exactly the images of the old ids under the shift, without duplicates and in range |
| `Renumbering.RenumberedReloads` | racelink/services/scenes_service.py:1163-1190 | a renumbered canonical action validates again if and only if every new group is still covered by an explicit value, and then to its sorted form; otherwise it is a ValueError |
| `Renumbering.RenumberedListReloads` | racelink/services/scenes_service.py:1163-1190 | a renumbered list of canonical actions validates again if and only if each action does |
| `Renumbering.DistinctIdsRevalidate` | racelink/services/scenes_service.py:1163-1190 | with distinct explicit ids it always validates again |
| `Renumbering.OffsetsMoveWithGroups` | racelink/services/scenes_service.py:1327-1360 | the explicit offset of every surviving group moves with it; on a collision the entry with the smaller old id wins |
| `Renumbering.DuplicateIdsFailRevalidation` | racelink/services/scenes_service.py:499-526 | a canonical action with a repeated explicit id that does not validate after renumbering |
| `RenumberMeaning.RenumberedReachIff` | racelink/services/scenes_service.py:1223-1284 | after a deletion a stored target reaches a device if and only if it did before, or its group merged with a named one; only group 0 and the deleted group merge |
| `RenumberMeaning.RenumberedEffect` | racelink/services/scenes_service.py:1287-1310 | a renumbered effect that the device does not gain does to it what the effect did before, with the same number of packets |
| `RenumberMeaning.RenumberedOffsetIff` | racelink/services/scenes_service.py:1311-1373 | after a whole container a participant plays with the offset it had before if and only if the renumbered block wants the same one for its new group |
| `RenumberMeaning.ExplicitOffsetKeptIff` | racelink/services/scenes_service.py:1327-1360 | for explicit offsets with distinct ids that is so if and only if the group that supplies the merged offset had the same one |
| `RenumberMeaning.LinearOffsetKeptIff` | racelink/domain/offset_formula.py:29-65 | for a linear formula inside its range, if and only if the group keeps its number or the step is 0 |
| `RenumberMeaning.FormulaOffsetsMove` | racelink/domain/offset_formula.py:29-65 | for any formula, through the packets: before, a named device plays at its old group's place, and after at its new group's |
| `RenumberMeaning.FormulaOffsetMoves` | racelink/services/scenes_service.py:1311-1373 | one such container: it validates again, and its group is to play at 400 ms instead of 500 |
| `RenumberMeaning.RenumberPreservesMeaning` | racelink/services/scenes_service.py:1163-1190 | a whole scene and its renumbered form leave a device whose reach and offsets are kept with the same effects, offset mode and offset, addressed by as many packets, with and without stop-on-error |
| `Optimizer.SetupClosedForm` | racelink/services/offset_dispatch_optimizer.py:94-223 | the plan is the (packets, bytes) minimum of the eligible candidates, and its strategy in closed form: C for concrete groups iff (1+L, b+2L) < (N, 4N); a broadcast of mode none is never an EXPLICIT 0 |
| `Optimizer.PlanOffsetSetup` | racelink/services/offset_dispatch_optimizer.py:94-223 | candidate building and stable choice return that plan |
| `Optimizer.BuildCandidates` | racelink/services/offset_dispatch_optimizer.py:126-216 | the candidates built step by step, with B overridden for mode none on concrete groups |
| `Optimizer.TakeCheapest` | racelink/services/offset_dispatch_optimizer.py:215-223 | the head of the stably sorted candidates: none is cheaper |
| `Optimizer.FixedBytes` | racelink/services/offset_dispatch_optimizer.py:230-242 | a plan of EXPLICIT packets takes four bytes a group |
| `Optimizer.ClearBytes` | racelink/services/offset_dispatch_optimizer.py:230-242 | a plan of NONE packets takes two bytes a group |
| `Planner.MergeFlagsLoop` | racelink/services/dispatch_planner.py:461-482 | true flags are written, false ones stripped, overrides win over persisted flags |
| `Planner.PlanOffsetGroup` | racelink/services/dispatch_planner.py:212-291 | the container loop yields the offset ops, then every child's ops in order, degraded if any child is |
| `Planner.PredictedControlLength` | racelink/services/dispatch_planner.py:528-549 | the two readings of the fields, each proved against it in `ControlExtraction`, agree: the predicted length is the length of the body sent, whatever group and flags, and one raises exactly when the other does |
| `Planner.PlanPredictsLengths` | racelink/services/dispatch_planner.py:123-186 | every op of every plan, containers included, predicts the length of the body its sender transmits, startblock aside |
| `Fleet.FleetRunsApart` | racelink_proto.h:91-125 | running packets over a fleet is running them over each device on its own |
| `Fleet.StateChangesOnlyByOffset` | racelink_proto.h:115-118 | no packet but OPC_OFFSET changes the effective offset configuration |
| `Fleet.ArmedEffectIsASnapshot` | racelink_proto.h:100-104 | OPC_OFFSET never touches an armed or a shown effect |
| `Fleet.SimilarRun` | racelink_proto.h:100-118 | two devices that agree on effects and offset behave alike under every packet sequence, however the offset is stored |
| `Container.FixedPhase` | racelink/services/offset_dispatch_optimizer.py:150-175 | after strategy B exactly the listed groups hold their own value |
| `Container.ClearPhase` | racelink/services/offset_dispatch_optimizer.py:182-199 | after the NONE overrides exactly the listed groups are cleared |
| `Container.SetupPhase` | racelink/services/offset_dispatch_optimizer.py:94-223 | the planned offset packets, received in order, leave every device in the state given for its strategy, and all of them send |
| `Container.SetupMeaning` | racelink/services/dispatch_planner.py:212-291 | every participant holds the wanted offset and is in offset mode unless the mode is none; a known non-participant is cleared under C and untouched otherwise |
| `Container.ImposedMeansWanted` | racelink/services/offset_dispatch_optimizer.py:150-199 | whatever configuration a strategy leaves, it evaluates to the offset the operator asked for |
| `Container.ExactlyParticipantsIff` | racelink_proto.h:106-125 | for any fleet, exactly the known participants end in offset mode if and only if the known non-participants started outside it or C cleared them; and the participants hold the wanted offsets |
| `Container.ForcedFlag` | racelink/services/dispatch_planner.py:244-256 | inside a container the OFFSET_MODE flag is the container's, whatever preset or child say |
| `Container.EffectRun` | racelink/services/dispatch_planner.py:294-361 | a planned effect reaches every device its target names exactly once, and no other |
| `Container.ChildrenRun` | racelink/services/dispatch_planner.py:244-273 | for any list of children, a device whose gate is open plays exactly those that reach it, in order, with its own offset, and a closed one plays none |
| `Container.ContainerRun` | racelink/services/dispatch_planner.py:212-291 | end to end, from any device state of a known group: participants play exactly the children that reach them with the wanted offset; other known devices play none if they were outside offset mode or cleared |
| `Container.ContainerFleet` | racelink/services/dispatch_planner.py:212-291 | the same for any fleet of devices of known groups: participants play their children and still hold their wanted offset at the end, in offset mode unless the mode is none, and any other device that started outside offset mode keeps what it showed |
| `Container.PlainContainerSends` | racelink/services/dispatch_planner.py:212-291 | a canonical container of plain preset children always plans and sends in full: the offset packets and one packet per child |
| `Container.ContainerGate` | racelink_proto.h:106-125 | every child packet, at the moment it is sent, is accepted exactly by the devices it addresses whose gate the container opened |
| `CollapseMeaning.EffectCount` | racelink/services/dispatch_planner.py:294-361 | a planned effect addresses each device its target names with exactly one packet |
| `CollapseMeaning.CollapsedEffect` | racelink/services/scenes_service.py:748-766 | collapsing an effect changes nothing for a device of a known group |
| `CollapseMeaning.CollapsedContainer` | racelink/services/scenes_service.py:795-825 | collapsing a container changes no known device's effects, offsets or packet count, even where the strategy changes, in all modes |
| `CollapseMeaning.CollapsePreservesMeaning` | racelink/services/scenes_service.py:769-825 | a whole scene and its collapsed form are the same for every device of a known group, with and without stop-on-error |
| `Runner.SceneRunner.ExecutePlan` | racelink/services/scene_runner_service.py:364-412 | the op loop dispatches exactly the ops up to the first exception, in order, and folds the results |
| `Runner.SceneRunner.DispatchOp` | racelink/services/scene_runner_service.py:329-362 | one op handed to its sender: recorded as dispatched, and on the wire unless the sender raises or has no transport |
| `Runner.SceneRunner.RunOne` | racelink/services/scene_runner_service.py:255-292 | one action's result and everything it dispatched; a degraded or raising plan dispatches nothing |
| `Runner.SceneRunner.SkipRest` | racelink/services/scene_runner_service.py:209-231 | one placeholder and one event per action after the abort |
| `Runner.SceneRunner.RunReported` | racelink/services/scene_runner_service.py:179-201 | an action runs between its two progress events |
| `Runner.SceneRunner.RunLoop` | racelink/services/scene_runner_service.py:176-231 | the scene loop with its break refines the recursive run for results, events, ops and packets |
| `Runner.SceneRunner.Run` | racelink/services/scene_runner_service.py:137-241 | the same for the whole call, and overall success iff every result is a success |
| `Runner.RunShape` | racelink/services/scene_runner_service.py:174-241 | results match actions one to one; the abort index is the first failed non-degraded action and exists only under stop-on-error; later actions are placeholders that dispatched nothing; two events per executed action and one per skipped one |
| `Runner.RunnerLabels` | racelink/services/scene_runner_service.py:255-292 | every result carries the index and kind of its own action |
| `Runner.ExecuteUp` | racelink/services/scene_runner_service.py:364-412 | with the transport up, each planned op is dispatched once in order and the wire carries the plan's packets |
| `Runner.ActionTransmits` | racelink/services/scene_runner_service.py:503-528 | an action transmits exactly the packets its plan means, and fails exactly when the plan does |
| `Runner.RunTransmitsScene` | racelink/services/scene_runner_service.py:137-241 | a run transmits exactly the packets the meaning of the scene is stated about |
| `Estimator.AirtimeSteps` | racelink/services/scene_cost_estimator.py:91-108 | the airtime ceiling is exact to one 28-bit block and airtime never falls with length |
| `Estimator.ActionCost.AddPacket` | racelink/services/scene_cost_estimator.py:157-166 | one packet, its body plus nine bytes, and its airtime are added |
| `Estimator.PriceOps` | racelink/services/scene_cost_estimator.py:221-228 | the loop prices a plan as the count and the sums of its ops |
| `Estimator.EstimateAction` | racelink/services/scene_cost_estimator.py:181-244 | an action is priced from the plan it gets, a delay by its duration |
| `Estimator.EstimateScene` | racelink/services/scene_cost_estimator.py:247-277 | one cost per action in order, and their total |
| `Estimator.PriceMatchesRun` | racelink/services/scene_cost_estimator.py:181-244 | without degraded, raising or startblock ops the run dispatches exactly the planned ops and the price counts those packets and the bytes that go out |
| `Estimator.DegradedIsOverpriced` | racelink/services/scene_runner_service.py:373-380 | price and run agree on packets if and only if the plan is proper or empty |
| `Estimator.OverpricedContainer` | racelink/services/scene_runner_service.py:373-380 | a container that is priced and sends nothing |
| `IdLedger.RepairId` | racelink/services/rl_presets_service.py:187-190 | the duplicate-repair loop ends with the first id from there on that is not used |
| `IdLedger.SeedNext` | racelink/services/rl_presets_service.py:201-206 | the seeded counter is above every id in use |
| `StoreService.LoadEntries` | racelink/services/rl_presets_service.py:172-199 | the load loop with its position counter and used-id set |
| `StoreService.RewriteLoop` | racelink/services/scenes_service.py:1163-1187 | the walk over all items; its count is zero exactly when none was touched |
| `StoreService.Store.Items` | racelink/services/rl_presets_service.py:240-243 | loads on a cold cache, seeds the counter and upgrades an older file |
| `StoreService.Store.Create` | racelink/services/scenes_service.py:1041-1076 | the whole new file, cache and counter, and the id handed out |
| `StoreService.Store.Update` | racelink/services/scenes_service.py:1078-1114 | the first item with the key is edited and nothing else |
| `StoreService.Store.Rewrite` | racelink/services/scenes_service.py:1163-1190 | touched items are rewritten and written once; a failing rewrite changes nothing |
| `StoreService.Store.Delete` | racelink/services/scenes_service.py:1116-1124 | items with the key go, and nothing is written if there were none |
| `StoreService.Store.ReplaceAll` | racelink/services/rl_presets_service.py:376-404 | all items are replaced under fresh ids and unique keys |
| `StoreProofs.LoadedIdsDistinct` | racelink/services/rl_presets_service.py:172-199 | whatever ids a file holds, the loaded ones are pairwise distinct |
| `StoreProofs.CounterSurvives` | racelink/services/rl_presets_service.py:201-238 | the counter is never smaller after a write and a load, and the same unless the file is empty and the counter negative |
| `StoreProofs.ApplyKeepsIds` | racelink/services/rl_presets_service.py:291-404 | one operation keeps ids distinct and below the counter, never lowers it, and hands out only ids from it upwards |
| `StoreProofs.RewriteItemsIff` | racelink/services/scenes_service.py:1163-1187 | a rewrite fails if and only if the change of some touched item does, and otherwise changes exactly the touched items |
| `StoreProofs.StepKeepsIds` | racelink/services/rl_presets_service.py:291-404 | the same for a public call against file and cache, including reloads |
| `StoreProofs.IdsNeverRecycled` | racelink/services/rl_presets_service.py:299-319 | over any run of calls and restarts from any file, the ids handed out strictly ascend, so none is handed out twice, and the file's counter never decreases |
| `StoreProofs.ReloadIff` | racelink/services/scenes_service.py:876-970 | a fresh load returns the written items and counter if and only if every payload survives its own encoding |
| `StoreProofs.StepHolds` | racelink/services/scenes_service.py:972-980 | one call takes a machine that stands for a logical state to one that stands for the logical result |
| `StoreProofs.StepMirrors` | racelink/services/rl_presets_service.py:240-404 | one call keeps cache and file at the same content even when a counter has run ahead |
| `StoreProofs.CountersAgreeIff` | racelink/services/rl_presets_service.py:291-404 | from agreeing counters, the next id in memory and in the file agree after a call if and only if the call is not a create that validates late and fails, nor a refused bulk replace; for either store |
| `StoreProofs.LoadsAlwaysIff` | racelink/services/rl_presets_service.py:168-196 | a file loads to the same state whenever it is loaded if and only if each entry that is loaded carries its creation time |
| `SceneStore.SceneComesBackIff` | racelink/services/scenes_service.py:876-970 | a scene survives a write and a load if and only if its actions are canonical |
| `SceneStore.NewActionsCanonicalIff` | racelink/services/scenes_service.py:1020-1039 | what a create or update stores is canonical if and only if no explicit container was collapsed |
| `SceneStore.CallKeepsGood` | racelink/services/scenes_service.py:1041-1190 | every other call, renumbering included, stores canonical scenes only |
| `SceneStore.ServiceStepHolds` | racelink/services/scenes_service.py:1041-1190 | one call of the service, duplicates with their lookup included, takes a machine that stands for the logical scenes to one that stands for the logical result |
| `SceneStore.StoreIsCoherent` | racelink/services/scenes_service.py:876-1190 | after any run of create, update, delete, duplicate, renumber and restart in which no explicit container was collapsed, the service works on the logical scenes and a fresh load returns them with the same next id |
| `SceneStore.EmptyStoreHolds` | racelink/services/scenes_service.py:876-890 | a missing file is a place to start such a run from |
| `SceneStore.OpenedFileHoldsIff` | racelink/services/scenes_service.py:876-949 | so is a file that loads, hand-edited ones included, if and only if its counter is not negative and each loaded entry carries its creation time |
| `SceneStore.RenumberCallIff` | racelink/services/scenes_service.py:1163-1190 | over all scenes: it raises, and rewrites none, if and only if some touched scene holds an action that does not validate again; otherwise every touched scene gets its renumbered, sorted actions and no other scene changes |
| `SceneStore.DuplicateKeepsActions` | racelink/services/scenes_service.py:1126-1135 | a duplicate stores the source's actions, collapsed against the groups known now |
| `SceneStore.CreateReloadsIff` | racelink/services/scenes_service.py:1041-1076 | after a create, disk and memory agree if and only if no explicit container was collapsed |
| `SceneStore.UpdateReloadsIff` | racelink/services/scenes_service.py:1078-1114 | the same for an update that is written, with or without new actions |
| `SceneStore.DuplicateReloadsIff` | racelink/services/scenes_service.py:1126-1135 | the same for a duplicate, in terms of the source's actions |
| `SceneStore.SpoiledSceneLosesItsActions` | racelink/services/scenes_service.py:919-926 | otherwise the next load drops the whole action list of that scene |
| `SceneStore.RejectedList` | racelink/services/scenes_service.py:500-504 | a list with an explicit broadcast container is rejected with a ValueError |
| `PresetStore.AcceptedPresetIsCanonical` | racelink/services/rl_presets_service.py:64-99 | accepted preset values are bytes and all four flags are present |
| `PresetStore.PresetsComeBack` | racelink/services/rl_presets_service.py:137-238 | a canonical preset survives a write and a load |
| `PresetStore.PresetIdempotent` | racelink/services/rl_presets_service.py:72-99 | validating a stored preset again changes nothing |
| `PresetStore.StoredPresetReachesReceiver` | racelink/services/control_service.py:297-338 | the fields of a stored preset reach the packet builder, and a receiver decodes exactly those |
| `PresetStore.PresetComesBackIff` | racelink/services/rl_presets_service.py:137-238 | an item survives a write and a load if and only if its values are canonical and its timestamps are set |
| `PresetStore.PresetCallKeepsGood` | racelink/services/rl_presets_service.py:291-404 | every call that writes stores canonical presets only |
| `PresetStore.DuplicateKeepsPreset` | racelink/services/rl_presets_service.py:364-374 | a duplicate stores exactly the source's values |
| `PresetStore.PresetsStayMirrored` | racelink/services/rl_presets_service.py:137-404 | after any run of create, update, delete, duplicate with its lookup, replace-all and restart, with valid or invalid input, the file loads to definite canonical presets, a filled cache holds exactly those, and the file's next id has not gone down |
| `PresetStore.NoFileMirrorsNothing` | racelink/services/rl_presets_service.py:146-148 | a missing file is a place to start such a run from |
| `PresetStore.OpenedFileMirrorsIff` | racelink/services/rl_presets_service.py:137-216 | so is a file that loads, if and only if its counter is not negative and either each loaded entry carries its creation time or the file is of the older schema, which opening rewrites |
| `PresetStore.PresetCountersAgreeIff` | racelink/services/rl_presets_service.py:291-404 | from agreeing counters, with a warm or cold cache, the next id in memory and in the file agree after a call if and only if it is not a create with a label, a free key and invalid values, nor a bulk replace that is refused |
| `PresetStore.DuplicateKeepsCounters` | racelink/services/rl_presets_service.py:364-374 | a duplicate never drives the two counters apart |
| `PresetStore.RefusedIffInvalid` | racelink/services/rl_presets_service.py:382-404 | with slugs that differ, a bulk replace is refused exactly when one of its entries is invalid |
| `PresetStore.FailedCreateClaimsId` | racelink/services/rl_presets_service.py:304-319 | a create with invalid values raises, writes nothing and leaves the counter in memory one ahead of the file's |
| `PresetStore.FailedReplaceClaimsIds` | racelink/services/rl_presets_service.py:382-404 | a bulk replace whose first invalid entry is the k-th raises, writes nothing and leaves the counter k + 1 ahead |
| `FrameReader.ChunkingIndependent` | racelink/transport/gateway_serial.py:683-729 | the frames are the same however the byte stream is cut into chunks |
| `FrameReader.StaysPartial` | racelink/transport/gateway_serial.py:704-719 | a partial frame always has fewer bytes than its length, and every frame has 1..255 |
| `FrameReader.DecodesPieces` | racelink/transport/gateway_serial.py:704-719 | frames with payloads of 1..255 bytes, non-zero noise between them and spare zeros before a length decode to exactly those payloads in order |
| `FrameReader.EveryStreamDecodes` | racelink/transport/gateway_serial.py:704-719 | every stream is such a sequence followed by an unfinished rest, and exactly the payloads of the sequence come out |
| `FrameReader.HostFrameReads` | racelink/transport/gateway_serial.py:453-457 | a host frame exists exactly for three-byte receivers and bodies up to 251 bytes, and is read back by the same framing |
| `FrameReader.Reader.Feed` | racelink/transport/gateway_serial.py:704-719 | one chunk, byte by byte |
| `FrameReader.Reader.Run` | racelink/transport/gateway_serial.py:683-719 | the thread's loop over chunks decodes their concatenation |
| `SendOutcome.RunKeeps` | racelink/transport/gateway_serial.py:464-537 | over every interleaving of senders, bytes and outcome events: each slot is written at most once, a returned call has an outcome, only the newest send can be registered, and the wire is the sends' bytes in lock order |
| `SendOutcome.FramesAreWhole` | racelink/transport/gateway_serial.py:464-484 | without failed writes and with the lock free, the wire is exactly the whole frames in lock order |
| `SendOutcome.WireDecodes` | racelink/transport/gateway_serial.py:456-484 | such a wire decodes to every message once, in order |
| `SendOutcome.OutcomeGoesToNewest` | racelink/transport/gateway_serial.py:770-785 | an outcome only ever fills the empty slot of the newest send |
| `SendOutcome.SharedIffOut` | racelink/transport/gateway_serial.py:464-537 | with one sender at a time the slot is registered if and only if that sender has not returned |
| `SendOutcome.AnswersReachTheirSenders` | racelink/transport/gateway_serial.py:464-551 | if nobody sends while a call is out and the gateway answers every frame once, in order and in time, the k-th call returns the k-th answer |
| `SendOutcome.OneSenderRightIff` | racelink/transport/gateway_serial.py:464-551 | over every run of one sender at a time and a gateway that answers once and in order, however late: every call returns its own answer if and only if no wait expires before its frame was answered |
| `SendOutcome.LaterCallsSafeIff` | racelink/transport/gateway_serial.py:518-551 | between two calls of one sender: over every continuation that is in order and in time, the later calls return their own answers if and only if no answer is owed |
| `SendOutcome.LateAnswerGoesToNext` | racelink/transport/gateway_serial.py:770-785 | with an answer owed, a run in which the next call returns it as its own |
| `SendOutcome.SafeToBeginIff` | racelink/transport/gateway_serial.py:464-551 | from every paired state with a free lock: every continuation over such a gateway ends with each call holding its own answer if and only if no other call was out |
| `SendOutcome.OverlapCanGoWrong` | racelink/transport/gateway_serial.py:518-537 | whenever a call begins while another is out, some such continuation answers every frame, returns every call and gives some call an outcome that is not its answer |
| `SendOutcome.AnswerGoesAstray` | racelink/transport/gateway_serial.py:770-785 | with the first call unanswered, the second one takes its answer |
| `SendOutcome.WakeClearsAnother` | racelink/transport/gateway_serial.py:534-537 | with the first call answered in time, its return clears the second one's registration and the second one's answer is lost |
| `SendOutcome.TwoSendersCross` | racelink/transport/gateway_serial.py:518-537 | two overlapping sends: the second returns the first frame's answer and the first times out |
| `SendOutcome.TimeoutClearsAnother` | racelink/transport/gateway_serial.py:518-537 | a timeout clears the slot another send registered, and its answer is lost |
| `SendOutcome.SendingEffect` | racelink/transport/gateway_serial.py:464-509 | undisturbed, the first locked region writes the whole frame and leaves the call waiting |
| `SendOutcome.Transport.Transmit` | racelink/transport/gateway_serial.py:464-509 | that region, and the one of a failing write, refine the byte-level steps |
| `SendOutcome.Transport.FulfillPending` | racelink/transport/gateway_serial.py:770-785 | the reader's region is the event step |
| `SendOutcome.Transport.Finish` | racelink/transport/gateway_serial.py:517-537 | the end of the wait returns the slot's outcome or stores a timeout, and clears the registration |
| `PendingRegistry.RunKeeps` | racelink/services/pending_requests.py:84-203 | over every interleaving: buckets hold known requests under their own keys in registration order and are never empty, a live request is listed, a cancelled one is not, done implies a stored reply that matches, and a stored reply is never replaced |
| `PendingRegistry.LiveIsListedOnce` | racelink/services/pending_requests.py:84-107 | a live request occurs exactly once in the registry, under its own key |
| `PendingRegistry.CompletesFirstCandidate` | racelink/services/pending_requests.py:167-191 | an event completes no request or exactly the first candidate it matches |
| `PendingRegistry.CandidateIff` | racelink/services/pending_requests.py:153-165 | a matching listed request is a candidate if and only if its key has seven bits or it waits for a specific reply |
| `PendingRegistry.WideKeyIsNeverFound` | racelink/services/pending_requests.py:153-165 | every acknowledgement key outside seven bits: registered, listed and matched, and never found |
| `PendingRegistry.ConsumedIff` | racelink/services/pending_requests.py:137-203 | an undisturbed event is consumed if and only if such a request is listed |
| `PendingRegistry.ReplyReachesCallerIff` | racelink/services/gateway_service.py:210-265 | whatever happens before and after, a caller gets the stored reply if and only if its request was completed when its wait ended, and what it gets matches |
| `PendingRegistry.LateReplyIsLost` | racelink/services/pending_requests.py:167-191 | when a wait ends and cancels between snapshot and completion, the event is spent on that request, which returns nothing, and no other request changes |
| `PendingRegistry.AllCancelledIsEmpty` | racelink/services/pending_requests.py:109-135 | a registry all of whose requests were cancelled is empty |
| `PendingRegistry.RegistryEmpties` | racelink/services/gateway_service.py:210-228 | so is the registry after any interleaving that ends with every caller's cancel |
| `PendingRegistry.PendingRequestRegistry.Enter` | racelink/services/pending_requests.py:84-107 | a fresh request at the end of its bucket; the registry object still stands for the machine, after its register step |
| `PendingRegistry.PendingRequestRegistry.Withdraw` | racelink/services/pending_requests.py:109-121 | the request leaves its bucket and an empty bucket goes; the object stands for the machine after its cancel step |
| `PendingRegistry.PendingRequestRegistry.TakeSnapshot` | racelink/services/pending_requests.py:153-165 | the first locked region is the snapshot step |
| `PendingRegistry.PendingRequestRegistry.Complete` | racelink/services/pending_requests.py:167-171 | without the lock, the first matching candidate gets the reply and is marked done: the two completion steps |
| `PendingRegistry.PendingRequestRegistry.Finish` | racelink/services/pending_requests.py:172-181 | the second locked region is the removal step |
| `PendingRegistry.PendingRequestRegistry.TryMatch` | racelink/services/pending_requests.py:137-191 | undisturbed, the three regions in a row are the machine's four steps |
| `PendingExpect.RunKeeps` | controller.py:1125-1172 | over every interleaving of stamps, snapshots, handlers and clears: the field holds the newest stamp or nothing, each stamp ends at most once, and only a matching reply ends one as matched |
| `PendingExpect.StaleClearIsHarmless` | racelink/services/gateway_service.py:1300-1358 | a handler that acts on an old snapshot ends the stamp it saw or nothing, whatever happened in between |
| `PendingExpect.SettleEndsIff` | racelink/services/gateway_service.py:1300-1358 | a handler ends the stamp it saw if and only if it is still in the field and its verdict says so; the device is marked by the verdict alone |
| `PendingExpect.StampsAddUp` | controller.py:1125-1172 | every stamp has ended once or is still in the field |
| `PendingExpect.Controller.SetPendingExpect` | controller.py:1125-1136 | a fresh object with the device, rule, opcode, time and upper-cased sender is in the field |
| `PendingExpect.Controller.ClearPendingExpectIf` | controller.py:1147-1163 | clears, and says so, exactly when the field holds the very object given |
| `PendingExpect.Controller.SettleMatch` | racelink/services/gateway_service.py:1300-1335 | a match marks the device online and ends the snapshot's object if it is still the current one |
| `PendingExpect.Controller.SettleClosed` | racelink/services/gateway_service.py:1339-1358 | a closed window marks the device offline and ends the snapshot's object if it is still the current one |
| `Collector.Window.Callback` | racelink/services/gateway_service.py:359-372 | one arrival: a passing event is collected, timed and counted |
| `Collector.Window.Check` | racelink/services/gateway_service.py:387-410 | the checks at the top of the loop: a reason exactly when there is one, and otherwise how long to wait |
| `Collector.Window.Collect` | racelink/services/gateway_service.py:327-423 | for every arrival trace the collector ends at the first moment with a reason to stop, with exactly the passing events heard by then, and names the reason |
| `Collector.HeardExactly` | racelink/services/gateway_service.py:359-372 | the collected events are exactly those that pass the predicate and arrived in time |
| `Collector.EndsByDeadline` | racelink/services/gateway_service.py:376-410 | it never ends later than the hard deadline, or than the end of sending if that is later |
| `Collector.EndIsUnique` | racelink/services/gateway_service.py:385-412 | when it ends is determined by the trace |
| `Collector.ReasonsAreExact` | racelink/services/gateway_service.py:387-410 | count ends on the reply that completes it, idle exactly one gap after the last reply and before the deadline, the other two on the deadline |
| `Retries.SendWithRetries` | racelink/services/gateway_service.py:267-325 | at most n attempts, successful iff one of the n waits is, stopping at the first such, with its reply or nothing, and the exact time spent |
| `Retries.WaitIsBounded` | racelink/services/gateway_service.py:286-292 | whatever arrives when, n attempts wait at most n * per and pause n - 1 times |
| `Streams.SendStream` | racelink/services/gateway_service.py:514-611 | nothing is sent without targets; acknowledged targets are exactly those heard over the attempts, the first complete attempt is the last, otherwise all retries + 1 are made, and the time is that of the attempts and the pauses between them |
| `Streams.AckedAtMostExpected` | racelink/services/gateway_service.py:592-611 | acknowledged is at most expected, and equal exactly when every target was heard |
| `Streams.StreamTime` | racelink/services/gateway_service.py:588-604 | an attempt ends within the caller's timeout or when sending ends |
| `Streams.StreamTimeTotal` | racelink/services/gateway_service.py:588-609 | n attempts that are each sent within the timeout take at most n timeouts and n - 1 pauses |
| `Streams.CountHearsAllIff` | racelink/services/gateway_service.py:359-390 | for every trace, target set and timeout: an attempt that ended by count heard every target if and only if its repeats are as many as its replies beyond the count; with a lone last reply after sending, if and only if its senders are pairwise distinct |
| `Streams.AttemptCompletesIff` | racelink/services/gateway_service.py:592-609 | an attempt completes the stream if and only if its senders include every target not heard before, as one that ended by count without spare repeats always does |
| `Streams.RepeatedAckEndsAttempt` | racelink/services/gateway_service.py:367-369 | an instance: two acknowledgements from one of two targets end the attempt by count without the other target |
| `Streams.TiesLeaveRepliesToSpare` | racelink/services/gateway_service.py:359-390 | two replies at the completing instant: everybody was heard although one target answered twice |

## Left out

- Startblock payload bytes: a startblock is one opaque packet that devices ignore, and its predicted size, which the
  planner marks as approximate, is exempt from `Planner.PlanPredictsLengths` and `Estimator.PriceMatchesRun`.
- What firmware does beyond the header's text: effects are recorded, not rendered.
- Every lock-held region is one step and the clock is ideal: a wake-up sees everything that has arrived by then, and
  thread scheduling inside a region is not modelled.
- Object identity in the transport: sends are numbered instead of being one-element lists. The registry and the
  expectation do use objects.
- Exceptions of the serial port other than its own error class, and the checks of a stream's payload and addressee.
- The one-byte identify and state-request commands that share the transmit lock, and the listener fan-out.
- The rule table that maps opcodes to answers: the model takes an opcode's answer as given.
- The broadcast fallback of `send_and_wait_for_reply`, post-match settling, and the reason text of an offline mark.
- The known groups, the preset lookup and the device table are fixed during one run, and one clock value stands for
  every sync of a run.
- A sender's boolean is whether the transport is up; transmit errors are exceptions of the sender.
- The runner's detail dictionaries for reporting, timings and listener callbacks.
- Unicode in Python's `int`, `strip`, `upper` and `lower` (ASCII here), underscores in numerals, infinite floats.
- `dict()` of a list of pairs and `list()` of an object in the legacy rewrite, and colors given as objects.
- Timestamps and slugs are opaque values, JSON text and files are read back as written, and a write does not fail.
- The route that deletes a group and the packets that tell devices their new group: `RenumberMeaning` compares a device
  before with one that has moved.
- The `update` hook that tells other components about a change, and listing and lookup of stored entries.
- Discovery, over-the-air updates, host WiFi, the web interface, devices' setters and the code generators.
- StoreProofs.CounterSurvives: does not claim an equal counter for a hand-edited file whose ids are all negative and
  whose entries are all gone, because the source restarts that counter at 0.
- SceneStore.StoreIsCoherent: does not include `replace_all`, which is covered for ids by StoreProofs.IdsNeverRecycled
  and for the next id by StoreProofs.CountersAgreeIff.
- Retries.WaitIsBounded: counts waiting and pausing, not the time the send itself takes.
