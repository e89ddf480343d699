# ArgusOS services, modelled and proved in Dafny

ArgusOS is a set of in-memory services that share an event bus. This project models the ones
whose behaviour is not settled by reading a single method, and proves what each promises over
all inputs, all runs and all interleavings of its operations.

- **Memory to knowledge graph** (`knowledge_graph.dfy`, `memory_mapper.dfy`,
  `memory_integration.dfy`, `settling*.dfy`, `batch_sync.dfy`, `bridge_*.dfy`). Reconciling a
  record removes its entity with every edge touching it, adds it again and links it
  best-effort. `synchronize_all` interleaves those removals and insertions for a whole batch;
  its result has a closed form, from which idempotence, commutation and the exact edges follow.
- **Memory and knowledge services** (`memory_*.dfy`, `knowledge_service.dfy`). Lazy expiry
  refines a dictionary that drops each record as it expires; both services agree with what
  they persist, whichever saves fail.
- **Event bus and intent router** (`event_bus.dfy`, `intent_router.dfy`). Handlers may
  subscribe, unsubscribe, publish, catch and raise while they are being called.
- **Planner, builder and decision engine** (`plan_steps.dfy`, `planner*.dfy`,
  `planning_builder.dfy`, `decision_engine.dfy`, `stable_sort.dfy`).
- **Capability registry, dispatcher and conversation manager** (`capability_registry.dfy`,
  `dispatcher.dfy`, `conversation.dfy`).

Each mutable service is a class whose methods change its fields step by step, and each method
is proved equal to a specification function on the service's abstract state. The theorems are
lemmas about those functions. The lemmas named `...Effect` say, lookup by lookup and field by
field, what each operation does, so that the functions are not taken on trust. Dictionaries are
insertion-ordered (`collections.dfy`); uuid4 is a supply of numbers drawn in turn; clock
readings are arguments; what an opaque collaborator does in one call (a handler, a predicate, an
action, a parse, a save) is an argument ranging over every possibility.

Results worth knowing before relying on the code:

- `synchronize_all` loses every reference from a record to one listed later, whether or not the
  target existed before. It captures all references inside a batch exactly when the batch is
  listed in dependency order (`BridgeReferences.CompleteIffDependencyOrdered`).
- A listed record that has expired when its turn comes, or whose key is empty, is skipped and
  leaves no trace in the failure table, although a comment in `synchronize_all` says each
  skipped record is recorded there. The batch accounts for every listed record exactly when all
  have keys and none expires first (`BridgeTheorems.AccountsForAllIff`; the instance is
  `BridgeTheorems.ExpiringRecordLeavesNoTrace`). The model follows the code.
- `put` refuses a key whose record has expired until it is purged. This is the only way lazy
  expiry differs from eager expiry (`LazyExpiry.PutDiffersIffStale`).
- The router's documentation promises that one failing handler does not affect the others.
  That fails when a subscriber to INTENT_FAILED raises, or a handler subscribed straight to
  INTENT_ROUTED does; `RouterRegistry.FailingReportStopsTheNextHandler` and
  `RouterRegistry.DirectHandlerStopsTheNext` are instances, and `Routing.IsolationIff` is the
  exact condition. The model follows the code.
- A dispatch publishes no terminal event exactly when a subscriber raises on an earlier one
  (`Dispatching.DispatchIsWellFormed`; the instance is `Dispatching.RaisingOnTheFirstNotice`).

## Model

| member | source | states |
|---|---|---|
| KnowledgeGraphs.KnowledgeGraph.AddEntity | argus/knowledge_graph/graph.py:120-133 | refuses an invalid or existing entity, otherwise appends it and publishes |
| KnowledgeGraphs.KnowledgeGraph.RemoveEntity | argus/knowledge_graph/graph.py:135-160 | the loop over incident edges and the deletions leave exactly the cascade |
| KnowledgeGraphs.KnowledgeGraph.AddRelationship | argus/knowledge_graph/graph.py:170-192 | an edge is added only with a new id between registered entities |
| KnowledgeGraphs.KnowledgeGraph.RemoveRelationship | argus/knowledge_graph/graph.py:194-197 | removes one edge and nothing else, or reports it missing |
| KnowledgeGraphs.KnowledgeGraph.Neighbors | argus/knowledge_graph/graph.py:204-227 | the loop collects each opposite endpoint once and every lookup succeeds |
| KnowledgeGraphs.KnowledgeGraph.FindByType | argus/knowledge_graph/graph.py:229-232 | an entity is found iff it is registered with that type; each once, in the order of registration |
| Graphs.AddEntityEffect | argus/knowledge_graph/graph.py:120-133 | lookup by lookup: refused on an empty field, then on a taken id; otherwise registered last, edges untouched, one event |
| Graphs.RemoveEntityEffect | argus/knowledge_graph/graph.py:135-160 | an edge survives iff neither end is the entity; every other lookup and both orders stay; one event however large the cascade |
| Graphs.AddRelationshipEffect | argus/knowledge_graph/graph.py:170-192 | which of the three errors, in which order; otherwise the edge is last and nothing else changes |
| Graphs.RemoveRelationshipEffect | argus/knowledge_graph/graph.py:194-197 | that edge is gone, the others keep their order, entities are untouched, or the error leaves everything alone |
| Graphs.RemovalIsExactCascade | argus/knowledge_graph/graph.py:135-160 | removal leaves no trace of the entity; the surviving entities and edges are the others, in their old order |
| Graphs.AddThenRemove | argus/knowledge_graph/graph.py:120-160 | adding a new entity and removing it restores the tables |
| Graphs.NeighborIffJoined | argus/knowledge_graph/graph.py:204-227 | an id is a neighbour exactly when some edge joins the two, in either direction |
| Graphs.NeighborsSymmetric | argus/knowledge_graph/graph.py:204-227 | being a neighbour is symmetric, self-loops included |
| Graphs.NeighborsInFirstEdgeOrder | argus/knowledge_graph/graph.py:204-227 | no neighbour is listed twice, and they come in the order of their first edge |
| Graphs.NeighborsAreRegistered | argus/knowledge_graph/graph.py:204-227 | in a graph with registered endpoints no neighbour lookup can miss |
| MemoryMapper.EntityIdInjective | argus/memory_integration/mapper.py:155-157 | distinct keys never share an entity |
| MemoryMapper.RelatedKeysFollowTheConvention | argus/memory_integration/mapper.py:170-181 | over the entries of the value: the first entry under related_keys decides; of a collection the texts among its elements, of a mapping the texts among its keys, in order, one per occurrence; every other value gives none |
| MemoryMapper.NamesIff | argus/memory_integration/mapper.py:170-181 | a key is related iff the value is a mapping whose first related_keys entry holds that text, by index |
| MemoryMapper.EntityCarriesTheRecord | argus/memory_integration/mapper.py:95-104 | the entity field by field: id, type, name and the six attributes, the same whether built afresh or rebuilt |
| MemoryMapper.ReferencesFollowTheKeys | argus/memory_integration/mapper.py:106-122 | one relationship per related key, in order, from the record to that key, under the ids drawn in turn |
| MemoryIntegrations.MemoryIntegration.SynchronizeMemory | argus/memory_integration/integration.py:159-214 | the step-by-step reconcile equals the specification, error paths included |
| MemoryIntegrations.MemoryIntegration.Reconcile | argus/memory_integration/integration.py:159-214 | map, remove the old entity, re-add, book and link, in that order |
| MemoryIntegrations.MemoryIntegration.LinkAll | argus/memory_integration/integration.py:196-214 | references are attempted in order and a failing one is reported and skipped |
| MemoryIntegrations.MemoryIntegration.RemoveMemory | argus/memory_integration/integration.py:216-235 | the entity, its edges and both table entries go, or the error leaves everything alone |
| MemoryIntegrations.MemoryIntegration.SynchronizeAll | argus/memory_integration/integration.py:237-251 | the loop over the live records, skipping those that fail |
| MemoryIntegrations.MemoryIntegration.Reset | argus/memory_integration/integration.py:265-271 | empties the two tables and leaves the graph |
| BridgeTheorems.SynchronizeMemoryEffect | argus/memory_integration/integration.py:159-214 | refused iff stopped, empty key or no live record; otherwise the tracked id, the failure table, the uuids drawn and the exact events, one report per reference |
| BridgeTheorems.RemoveMemoryEffect | argus/memory_integration/integration.py:216-235 | after an accepted remove_memory the entity, every edge touching it and both table entries are gone, everything else is unchanged; otherwise which error |
| BatchSync.ReconciledClosedForm | argus/memory_integration/integration.py:159-214 | one reconcile: the other entities, then the record's; edges away from it, then its references whose target is registered |
| Settling.PlaceAllIsSettled | argus/memory_integration/integration.py:237-251 | replacing distinct nodes one at a time equals a closed form with no intermediate deletions |
| BatchSync.BatchClosedForm | argus/memory_integration/integration.py:237-251 | the closed form for a batch of records with distinct keys |
| BridgeTheorems.SynchronizeAllClosedForm | argus/memory_integration/integration.py:237-251 | synchronize_all from any intact graph, with records expiring mid-batch, gives the closed form and reports the batch's keys |
| BridgeReferences.EdgesAfterBatch | argus/memory_integration/integration.py:196-214 | whatever keys the convention reads from its value, a batch record has one edge per occurrence of each related key that can live, in order; edges touching no batch entity are unchanged |
| BridgeReferences.NoOtherEdges | argus/knowledge_graph/graph.py:135-160 | edges from outside into the batch are gone: there are no others |
| BridgeReferences.EdgeAfterBatchIff | argus/memory_integration/integration.py:237-251 | record i ends with an edge to key t iff its value names t under related_keys and t is record i's or an earlier key, or lies outside the batch and existed |
| BridgeReferences.CompleteIffDependencyOrdered | argus/memory_integration/integration.py:237-251 | a batch keeps all its internal references iff no record refers to a later one |
| BridgeTheorems.SynchronizeMemoryIdempotent | argus/memory_integration/integration.py:159-214 | repeating synchronize_memory on a key whose record is unchanged changes only edge ids, bookkeeping included, whether or not either call finds the record live |
| BridgeTheorems.SynchronizeAllIdempotent | argus/memory_integration/integration.py:237-251 | a second synchronize_all over unchanged live records changes only edge ids and reports the same keys |
| BridgeTheorems.SkippedWithoutTrace | argus/memory_integration/integration.py:237-251 | a listed record is reported iff its key is not empty and it is still live when fetched; a skipped one is not recorded |
| BridgeTheorems.AccountsForAllIff | argus/memory_integration/integration.py:237-251 | every listed record is reported or recorded iff all have keys and none expires before its turn |
| BridgeTheorems.ExpiringRecordLeavesNoTrace | argus/memory_integration/integration.py:237-251 | an instance: one record, listed live and expired when fetched, is neither reported nor recorded |
| BridgeOrder.OrderOnlyMattersInside | argus/memory_integration/integration.py:159-214 | any two orders of a batch give the same entity map and, ids aside, the same multiset of edges, self-loops included, except for edges from one batch record to another |
| BridgeOrder.SynchronizationsCommute | argus/memory_integration/integration.py:159-214 | synchronizing k then l agrees with l then k except for edges from one of the two to the other, each of the four fetches having its own clock reading |
| BridgeTheorems.BatchBookkeeping | argus/memory_integration/integration.py:159-214 | after a batch each of its keys maps to its own entity, others are untouched and no failure is recorded |
| BridgeRuns.RunIsSound | argus/memory_integration/integration.py:159-271 | over every run of direct and bridge operations endpoints stay registered, the failure table stays empty, tracked keys map to their entity, which stays in the graph unless removed directly |
| BridgeRuns.ReachableNeighborsResolve | argus/knowledge_graph/graph.py:204-227 | in every reachable graph neighbors resolves every id, symmetrically |
| BridgeRuns.FreshBridgeIsSound | argus/memory_integration/integration.py:114-130 | a new bridge over a new graph satisfies what runs preserve |
| MemoryServices.MemoryService.constructor | argus/memory/memory_service.py:89-98 | the index loaded from storage, record by record |
| MemoryServices.MemoryService.PutRecord | argus/memory/memory_service.py:100-112 | refuses an empty or present key; a failed save keeps the index change and publishes nothing |
| MemoryServices.MemoryService.Get | argus/memory/memory_service.py:114-118 | the live record or not found |
| MemoryServices.MemoryService.Delete | argus/memory/memory_service.py:123-131 | removes a live record, saves, then publishes |
| MemoryServices.MemoryService.Update | argus/memory/memory_service.py:133-149 | replaces a live record in place with the next version |
| MemoryServices.MemoryService.List | argus/memory/memory_service.py:151-155 | the live records in index order |
| MemoryServices.MemoryService.Search | argus/memory/memory_service.py:157-159 | the live records whose lower-cased key contains the lower-cased query, whatever lower-casing does |
| MemoryServices.MemoryService.PurgeExpired | argus/memory/memory_service.py:161-176 | drops exactly the expired records, saving and publishing only if there were any |
| MemoryEffects.PutEffect | argus/memory/memory_service.py:100-112 | refused on an empty key, then on a present one; otherwise the key looks up as the record, is last, and the save and notice follow |
| MemoryEffects.GetEffect | argus/memory/memory_service.py:114-118 | the record under the key iff its expiry, if any, is still to come |
| MemoryEffects.DeleteEffect | argus/memory/memory_service.py:123-131 | refused iff no live record; otherwise the key is gone and the rest keeps its order |
| MemoryEffects.UpdateEffect | argus/memory/memory_service.py:133-149 | the answer and the stored record have the new value, the stamp and version + 1, and every other field, lookup and place as before |
| MemoryEffects.ListEffect | argus/memory/memory_service.py:151-155 | exactly the live records, each once, in index order |
| MemoryEffects.SearchEffect | argus/memory/memory_service.py:157-159 | exactly the live records in whose lowered key the lowered query occurs, in index order |
| MemoryEffects.PurgeEffect | argus/memory/memory_service.py:161-176 | exactly the expired records go; one notice for each, in order, and their number, or nothing at all if there are none |
| LazyExpiry.LazyRefinesEager | argus/memory/memory_service.py:100-185 | over every run with a nondecreasing clock, accepted calls answer exactly as a dictionary that drops records as they expire |
| LazyExpiry.UnrefusedRunIsEager | argus/memory/memory_service.py:100-185 | a run with no refused put answers every call eagerly |
| LazyExpiry.PutDiffersIffStale | argus/memory/memory_service.py:100-112 | put differs from the eager dictionary iff the key's record has expired and is not purged |
| LazyExpiry.PurgeIsInvisible | argus/memory/memory_service.py:161-176 | over every later run purging changes no answer iff no call puts a purged key before the next purge |
| LazyExpiry.PurgeThenOneCall | argus/memory/memory_service.py:161-176 | the call right after a purge answers the same unless the unpurged service refuses it |
| Durability.RestartRebuildsLastSaved | argus/memory/memory_service.py:96-193 | whatever saves fail, a restart rebuilds the index of the last successful save, in order |
| Durability.OneSaveRealigns | argus/memory/memory_service.py:187-193 | one later successful save realigns storage with the whole index |
| EventBuses.InMemoryEventBus.Subscribe | argus/events/event_bus.py:58-73 | appends the handler, or raises if it is there already |
| EventBuses.InMemoryEventBus.Unsubscribe | argus/events/event_bus.py:75-81 | removes the handler, or raises if it is not there |
| EventBuses.InMemoryEventBus.Publish | argus/events/event_bus.py:83-99 | validates, then dispatches; handlers may change the registry meanwhile |
| EventBuses.InMemoryEventBus.Dispatch | argus/events/event_bus.py:101-109 | the loop over a copy of the handlers, with everything they do, equals the specification |
| EventBus.ScriptKeepsUnique | argus/events/event_bus.py:58-109 | whatever handlers do, no handler is ever subscribed twice to a type |
| EventBus.ActIsExact | argus/events/event_bus.py:101-109 | every dispatch, at any depth, calls the handlers subscribed when it began, once each, in order, up to the first that raises |
| EventBus.CallRunsItsScript | argus/events/event_bus.py:101-109 | each call does what its handler does on the registry it finds |
| BusEffects.SubscribeEffect | argus/events/event_bus.py:58-73 | a new handler goes last for its type and no other type changes; one already there raises and changes nothing |
| BusEffects.UnsubscribeEffect | argus/events/event_bus.py:75-81 | the handler is gone, the others keep their order and no other type changes; one not there raises |
| BusEffects.SubscribeThenUnsubscribe | argus/events/event_bus.py:58-81 | subscribing a new handler and unsubscribing it restores the handlers of every type |
| BusEffects.PublishEffect | argus/events/event_bus.py:83-109 | without a source it raises and reaches nobody; otherwise one exact dispatch, each call finding the registry the previous one left |
| BusEffects.UnsubscribedIsNotCalled | argus/events/event_bus.py:75-109 | while no handler subscribes it again, a handler not subscribed to a type is called by no dispatch of it, at any depth, whatever else handlers do |
| BusEffects.AfterUnsubscribe | argus/events/event_bus.py:75-109 | from an unsubscribe on, no dispatch of the type calls the handler until it is subscribed again |
| IntentRouters.IntentRouter.RegisterHandler | argus/intent/router.py:167-195 | subscribes a new closure and records it, unless the pair is registered |
| IntentRouters.IntentRouter.Route | argus/intent/router.py:153-165 | publishes exactly one INTENT_ROUTED event; what handlers register meanwhile is in the table when it returns |
| Routing.RoutingIsOneExactDispatch | argus/intent/router.py:153-228 | routing is one exact dispatch; each wrapped handler runs only for its name, on an equal intent, and each of its failures is published once |
| RoutingEffects.EachFailureIsReportedOnce | argus/intent/router.py:183-206 | call by call: a wrapped handler does nothing for another name; for its own it runs, and if and only if it raises there is one INTENT_FAILED dispatch, which alone decides whether the call raises |
| Intents.PayloadRoundTrip | argus/intent/router.py:208-228 | a handler is called with an intent equal to the one routed |
| Routing.IsolationIff | argus/intent/router.py:183-206 | every handler of the name is called, once, in order, iff none stands behind the first call that lets an exception out, a position computed from the registry and the responses |
| Routing.RoutingIsolatesFailures | argus/intent/router.py:183-195 | if no direct handler and no INTENT_FAILED subscriber raises, every handler of the name is called once, in order, whichever raise, and route returns |
| Routing.RouteReturnsIff | argus/intent/router.py:153-206 | route returns normally iff no call lets an exception out |
| RouterRegistry.RegisteredIffSubscribed | argus/intent/router.py:167-195 | the bus refuses a closure exactly when the router refuses its pair |
| RouterRegistry.RegisterEffect | argus/intent/router.py:167-195 | refused iff the closure is already subscribed; otherwise the pair is last in the table, its closure last on the bus, and nothing else changes |
| RouterRegistry.RunIsConsistent | argus/intent/router.py:167-195 | over every run, handlers that register others during a route included, the closures on the bus are the router's table, in registration order, and none is lost |
| RouterRegistry.RouteReachesRegistered | argus/intent/router.py:153-195 | from any reachable state routing calls exactly the handlers registered under the name when it begins, iff none of them stands behind a call that lets an exception out |
| RouterRegistry.FailingReportStopsTheNextHandler | argus/intent/router.py:183-206 | an instance: a raising INTENT_FAILED subscriber makes one failing handler stop the next |
| RouterRegistry.DirectHandlerStopsTheNext | argus/intent/router.py:153-165 | an instance: a raising handler subscribed straight to INTENT_ROUTED stops the handlers behind it |
| PlanSteps.AcceptsExactlyPermutations | argus/planner/planner.py:293-306 | reorder_steps accepts exactly the permutations of the current step ids |
| PlanSteps.ReorderPlaces | argus/planner/planner.py:307-311 | the steps asked for, in the order asked for, renumbered |
| PlanSteps.LastReorderWins | argus/planner/planner.py:293-316 | only the last of several reorderings matters |
| PlanSteps.ReorderBackRestores | argus/planner/planner.py:293-316 | reordering back to the original ids restores the original steps |
| PlanSteps.ReorderAndRemoveCommute | argus/planner/planner.py:272-316 | reorder then remove equals remove then reorder with that id deleted |
| PlanSteps.AddThenRemoveRestores | argus/planner/planner.py:239-291 | adding a step and removing it restores the steps |
| PlannerEffects.CreatePlanEffect | argus/planner/planner.py:221-237 | refused iff the tasks repeat an id; otherwise an empty plan under an unused id, with the origin and tasks given |
| PlannerEffects.AddStepEffect | argus/planner/planner.py:239-270 | which refusal; otherwise the step is last with every field given, a new id and its position, and no other plan changes |
| PlannerEffects.RemoveStepEffect | argus/planner/planner.py:272-291 | the stored plan loses that id, keeps the others in order, each step being what it was but renumbered; other plans stay |
| PlannerEffects.ReorderStepsEffect | argus/planner/planner.py:293-316 | accepted iff the plan exists and the ids are a permutation of its step ids; the stored and returned plan then has exactly those ids in that order, each step what it was but for its order, status CREATED, and other plans stay |
| PlannerEffects.ValidatePlanEffect | argus/planner/planner.py:318-337 | VALIDATED and announced, or FAILED, silent and naming exactly the missing capabilities in step order |
| PlannerEffects.ReorderBackRestoresPlan | argus/planner/planner.py:293-316 | in the planner: reordering a plan back restores it and every other plan |
| PlannerEffects.LastReorderOfPlanWins | argus/planner/planner.py:293-316 | in the planner: of two reorderings only the second matters |
| PlannerEffects.ReorderAndRemoveCommuteInPlan | argus/planner/planner.py:272-316 | in the planner: reorder then remove gives the plans and the answer of remove then reorder |
| PlannerEffects.AddThenRemoveRestoresPlan | argus/planner/planner.py:239-291 | in the planner: adding a step and removing it restores the plan and every other plan |
| Plans.PlanSessionRefinesGoals | argus/planner/planner.py:201-270 | succeeds iff tasks repeat no id and every goal is named; one step per goal, the session's intent, metadata and tasks; refused at goal k, the first k steps stay stored |
| PlannerEffects.SessionStepsEffect | argus/planner/planner.py:201-219 | step i of a planned session field by field, from goal i |
| PlannerEffects.SessionOriginEffect | argus/planner/planner.py:347-377 | the synthesised intent claims nothing; it and the metadata trace the session, its context and its constraints in order |
| PlanRuns.RunKeepsGood | argus/planner/planner.py:221-337 | over every run each plan has step i at order i, distinct step ids and tasks, and is never READY or COMPLETED |
| PlanRuns.ValidationChecks | argus/planner/planner.py:318-337 | validation succeeds iff every non-optional capability is registered and changes only that plan's status |
| PlanRuns.ValidatedWasChecked | argus/planner/planner.py:318-337 | a VALIDATED plan had, strictly earlier in the run and with exactly these steps, all required capabilities registered |
| Planners.ValidateTasks | argus/planner/planner.py:379-405 | the pass with a set of seen ids accepts exactly the lists without repetition |
| Planners.Planner.CreatePlan | argus/planner/planner.py:221-237 | stores an empty plan with the given intent, metadata and tasks, or refuses repeated tasks |
| Planners.Planner.AddStep | argus/planner/planner.py:239-270 | appends a numbered step and withdraws any validation |
| Planners.Planner.RemoveStep | argus/planner/planner.py:272-291 | removes and renumbers, or reports the missing plan or step |
| Planners.Planner.ReorderSteps | argus/planner/planner.py:293-316 | reorders if given a permutation |
| Planners.Planner.ValidatePlan | argus/planner/planner.py:318-337 | marks the plan VALIDATED or FAILED and lists what is missing |
| Planners.Planner.PlanSession | argus/planner/planner.py:201-219 | synthesises the intent and metadata; the loop over goals stops at the first refused step |
| PlanningBuilders.PlanningSessionBuilder.WithTask | argus/planning/builder.py:182-193 | adds the task unless one with its id is there |
| PlanningBuilders.PlanningSessionBuilder.WithTasks | argus/planning/builder.py:195-202 | adds tasks until one is refused; those added stay |
| PlanningBuilders.PlanningSessionBuilder.ClearTasks | argus/planning/builder.py:204-206 | drops the tasks and nothing else |
| PlanningBuilders.PlanningSessionBuilder.Build | argus/planning/builder.py:213-220 | a snapshot whose tasks repeat no id |
| PlanningSessions.AddTasksKeepsLongestPrefix | argus/planning/builder.py:182-202 | a refused list leaves its longest prefix that repeats nothing |
| PlanningSessions.AddTasksEffect | argus/planning/builder.py:182-202 | with_tasks succeeds iff the tasks together repeat no id; what is added is a prefix, and all of it on success |
| PlanningSessions.ChecksAgree | argus/planner/planner.py:379-405 | the builder's quadratic check and the planner's set-based check accept the same lists |
| PlanningSessions.BuiltSessionsAreAccepted | argus/planning/builder.py:166-220 | the planner accepts the tasks of every session a builder can build |
| Decisions.ListIsTheStableSort | argus/decision/engine.py:169-176 | list_rules is the only arrangement of the rules by priority with ties in registration order |
| Decisions.RegisterInserts | argus/decision/engine.py:145-162 | a new rule goes after all of its priority or less and before the rest |
| Decisions.RemoveDeletesInPlace | argus/decision/engine.py:164-167 | removing a rule leaves the others in order |
| Decisions.Run | argus/decision/engine.py:145-167 | over every run the rule table and the registration list hold the same ids in the same order |
| Decisions.TraceNamesTheMatches | argus/decision/engine.py:235-246 | the matched rules are those the decision's own trace says matched |
| DecisionEffects.RegisterEffect | argus/decision/engine.py:145-162 | which refusal; otherwise the rule is last in both structures and nothing else changes |
| DecisionEffects.RemoveEffect | argus/decision/engine.py:164-167 | which refusal; otherwise the rule is gone from both structures and the others keep their order |
| DecisionEffects.EvaluationEffect | argus/decision/engine.py:204-232 | a rule is matched iff its predicate matched, in list order; the trace has one entry per rule saying which |
| DecisionEngines.DecisionEngine.RegisterRule | argus/decision/engine.py:145-162 | validates and appends to both structures |
| DecisionEngines.DecisionEngine.RemoveRule | argus/decision/engine.py:164-167 | removes from both structures, or reports the error |
| DecisionEngines.DecisionEngine.EvaluateAll | argus/decision/engine.py:196-257 | either the in-order matches with a complete trace and counts, or failure having called exactly the predicates up to the first that raised |
| Knowledges.RunStaysAligned | argus/knowledge/knowledge_service.py:92-160 | over every run and pattern of failing saves, each category whose last save did not fail has a file holding exactly its records, in index order |
| Knowledges.FilesHoldLastSaved | argus/knowledge/knowledge_service.py:92-160 | whatever saves fail, each category's file holds its listing as of its last accepted save |
| Knowledges.LoadIsAligned | argus/knowledge/knowledge_service.py:87-90 | loading well-formed storage starts with every file aligned |
| Knowledges.RestartRebuilds | argus/knowledge/knowledge_service.py:87-160 | when nothing is unsaved, reloading in any category order rebuilds the mapping and every category listing |
| Knowledges.FilesFollowTheIndex | argus/knowledge/knowledge_service.py:87-160 | after any run of successful writes files are the in-order filters of the index, keys are unique across them, and reloading agrees |
| KnowledgeEffects.RunIsPlain | argus/knowledge/knowledge_service.py:92-151 | over every run, failing saves included, the index is a plain map after the same writes, in the same order: put stores the record last, delete removes it, update replaces value, stamp and version in place |
| KnowledgeEffects.CallEffect | argus/knowledge/knowledge_service.py:92-160 | a call is refused exactly on the guards, in order; a failed save reports that and publishes nothing; otherwise only the category's file changes, and the notice and answer are exact |
| KnowledgeEffects.ListEffect | argus/knowledge/knowledge_service.py:129-133 | exactly the records of the category, in index order |
| KnowledgeServices.KnowledgeService.constructor | argus/knowledge/knowledge_service.py:80-90 | the nested loops load every record of every category |
| KnowledgeServices.KnowledgeService.PutRecord | argus/knowledge/knowledge_service.py:92-108 | refuses empty keys, empty categories and present keys; saves the category |
| KnowledgeServices.KnowledgeService.Delete | argus/knowledge/knowledge_service.py:119-127 | removes the record and saves its category |
| KnowledgeServices.KnowledgeService.Update | argus/knowledge/knowledge_service.py:135-151 | replaces the value in place with the next version and saves its category |
| KnowledgeServices.KnowledgeService.List | argus/knowledge/knowledge_service.py:129-133 | all records, or one category's, in index order |
| Capabilities.RunKeepsIndex | argus/capability/registry.py:122-146 | over every run ids and names stay unique and the name scans agree with a name-indexed map |
| Capabilities.ScanIsIndexLookup | argus/capability/registry.py:129-163 | scanning for a name gives what the name index holds |
| CapabilityEffects.RegisterEffect | argus/capability/registry.py:122-138 | malformed is refused first, then a taken id or name; otherwise last, nothing else changes |
| CapabilityEffects.UnregisterEffect | argus/capability/registry.py:140-146 | that capability is gone and the others keep their order, or it is reported missing |
| CapabilityEffects.FindEffect | argus/capability/registry.py:165-175 | exactly the capabilities listing the type, enabled or not, in registration order |
| Capabilities.ResolveIsFirstEnabledMatch | argus/dispatcher/dispatcher.py:183-194 | resolve returns the first registered capability that is enabled and supports the type |
| Capabilities.ResolveIgnoresOthers | argus/dispatcher/dispatcher.py:183-194 | unregistering any other capability leaves resolution unchanged |
| CapabilityRegistries.CapabilityRegistry.Register | argus/capability/registry.py:122-138 | validates, scans for the id and the name, then appends and publishes |
| CapabilityRegistries.CapabilityRegistry.Unregister | argus/capability/registry.py:140-146 | removes exactly that capability, or reports it missing |
| CapabilityRegistries.CapabilityRegistry.GetByName | argus/capability/registry.py:151-163 | the first capability of that name |
| Dispatching.DispatchIsWellFormed | argus/dispatcher/dispatcher.py:198-267 | events start with IntentDispatched and repeat nothing; there is one of completed or failed, and it is last, iff no subscriber raises on an earlier notice of the course |
| Dispatching.RaisingOnTheFirstNotice | argus/dispatcher/dispatcher.py:208-211 | an instance: a subscriber that raises on IntentDispatched leaves the dispatch without a terminal event |
| Dispatching.TerminalNoticeTellsTheStage | argus/dispatcher/dispatcher.py:213-267 | the failed stage is resolve iff nothing enabled matches, build iff the factory raised, execute iff the action did |
| Dispatching.AnswerMatchesTrace | argus/dispatcher/dispatcher.py:254-267 | the caller gets the action's value iff completion was published and nobody raised |
| DispatchEffects.NoticesFollowTheStages | argus/dispatcher/dispatcher.py:198-267 | notices come in stage order; WorkflowSelected(w) iff the action built runs workflow w, after ActionResolved of that capability and action and before DispatchStarted; each is published iff no subscriber raised earlier |
| DispatchEffects.ErrorTellsTheStage | argus/dispatcher/dispatcher.py:213-252 | which error the caller gets, by the failed stage |
| IntentDispatchers.IntentDispatcher.Resolve | argus/dispatcher/dispatcher.py:183-194 | the loop over candidates finds the resolved capability |
| IntentDispatchers.IntentDispatcher.Dispatch | argus/dispatcher/dispatcher.py:198-267 | nothing when not running; otherwise the specified events and answer |
| Conversations.RunIsSafe | argus/conversation/manager.py:166-313 | over every run, wherever delegates raise: one open session at most, the active one; states match histories; histories only grow; metadata and creation times stay; closed sessions never change |
| Conversations.AtMostOneOpen | argus/conversation/manager.py:166-190 | two open sessions are the same, active session |
| Conversations.ReceiveAppends | argus/conversation/manager.py:206-280 | a receive adds the user's message, and the reply iff nothing raised in between; nothing else changes |
| ConversationEffects.StartEffect | argus/conversation/manager.py:166-179 | refused iff a session is active; otherwise the new session field by field, stored and announced even if a subscriber raises |
| ConversationEffects.EndEffect | argus/conversation/manager.py:181-190 | refused iff none is active; otherwise closed with its history kept, field by field |
| ConversationEffects.ReceiveEffect | argus/conversation/manager.py:206-280 | which refusal; otherwise the messages added field by field (the reply texts are in `RepliesAreFixed`), the state and times left, the notices up to the first that raises, and the reply returned, all determined by how far the script of notices got |
| ConversationManagers.ConversationManager.StartSession | argus/conversation/manager.py:166-179 | opens a new session unless one is active |
| ConversationManagers.ConversationManager.EndSession | argus/conversation/manager.py:181-190 | closes the active session |
| ConversationManagers.ConversationManager.History | argus/conversation/manager.py:192-197 | the messages of the given or the active, open, session |
| ConversationManagers.ConversationManager.Receive | argus/conversation/manager.py:206-280 | the stored snapshots and publications in order, up to whatever raises |

## Left out

- JSON serialisation, files, atomic replacement and malformed stored data: storage is what it last accepted, with a flag saying whether a save succeeds. The ISO 8601 text of an instant is a value that reads back as the instant.
- Locks: each write is one atomic step.
- The lifecycle states other than RUNNING, which is a flag where an operation is gated on it.
- Type checks on arguments: Dafny's types rule the bad values out. Error messages and log lines.
- `parse` in the intent router and the keyword parser: the intent parsed, or the failure to parse, is an argument.
- Value objects, enumerations and builders with no behaviour; AgentService, CognitivePipeline, ExecutionEngine, connectors, workflow engine, scheduler and plugins beyond returning or raising.
- Handlers that do not terminate, and handlers that call back into the memory, knowledge, graph, planner, decision or conversation service while one of its operations is publishing: there the bus is an append-only trace. Subscribers that raise are modelled for the dispatcher and the conversation manager, and handlers that do anything at all, registering with the router included, for the bus and the router.
- Two uuid4 draws that coincide.
