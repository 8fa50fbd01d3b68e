# Verification of the vehicle trigger service

A Dafny 4 model of the service's core and proofs about it. The service keeps
triggers, vehicle subscriptions and trigger logs in a relational store, serves
lookups from an in-memory index over that store, evaluates every received signal
or event against the triggers the index offers, sends webhooks, and writes
failures, logs and unsubscriptions back to the store. The proofs follow that
circle: what holds of every reachable database, of every published index, of every
delivery, and of whole runs of all of them together.

`dafny verify dfyconfig.toml` checks the project.

## Files

| file | what it holds |
|---|---|
| `Domain.dfy`, `Signals.dfy`, `Wrappers.dfy` | rows, statuses, the schema and its permissions, the deployment (`Env`) |
| `Store.dfy` | each write as a function on database states, and the invariant every write keeps |
| `Repository.dfy` | the repository object, method by method, proved against `Store` |
| `Handlers.dfy` | register, update, delete and subscribe as interleaved steps, with the read and the write apart |
| `WebhookController.dfy`, `SubscriptionController.dfy` | the request handlers as methods over the repository and the cache |
| `WebhookIndex.dfy` | the two-level index and the join it stands for |
| `CompilePool.dfy` | the worker pool under every schedule |
| `WebhookCache.dfy` | the cache object: build, swap, look up, schedule |
| `RefreshProtocol.dfy`, `RefreshHistory.dfy` | debounced refreshes beside everything that writes the database, and how old their answers can be |
| `RefreshProgress.dfy`, `TornRefresh.dfy` | that refreshers come to rest, and runs that end with a map of no single state |
| `CancelledRefresh.dfy` | refreshes whose context ends before or while they read |
| `Evaluator.dfy`, `FiringRuns.dfy` | one evaluation, and runs of evaluations and logs |
| `Deliveries.dfy`, `MetricListener.dfy` | delivery accounting and the listener object |
| `Dispatcher.dfy` | the semaphore-bounded message loop and the fan-out group |
| `PermissionCache.dfy`, `Text.dfy` | the permission cache, its key, and the string lemmas under it |
| `SharedSlice.dfy` | sorters of one shared permission slice |

Step machines (`Handlers`, `CompilePool`, `RefreshProtocol`, `Dispatcher`,
`FiringRuns`, `SharedSlice`) stand for goroutines and transactions: a step is what happens without
interruption, a run is any sequence of enabled steps, and a theorem about a run is
about every schedule. Objects whose fields change in place are classes; what a
method may not know (a driver failing, a send, a clock, an access answer) is one of
its parameters, and its contract holds for every value of it.

## Hypotheses

The code needs these, and they are preconditions here:

- *Handlers one at a time* (`Handlers.Serial`), deliveries writing at any moment.
  `UpdateWebhook`, `DeleteWebhook` and the subscribe handlers read in one transaction
  and write in another. Without the hypothesis a deleted trigger can come back and a
  subscription can outlive its trigger. Which steps do it is stated exactly by
  `DeletedIsLeftExactlyByStaleUpdate` with `RevivedOnlyByEarlierRead`, and by
  `OrphansArriveExactlyBy`; `StaleUpdateRevives` and `LateSubscribeOrphans` give the
  runs.
- *Nothing at all between a handler's read and its write* (`Handlers.UndisturbedRun`),
  for one result only: that a trigger fails only at the threshold. One handler and one
  delivery already break it: `StaleUpdateRefails` gives the run, and
  `FailedIsEnteredExactlyBy` every step that does it. The failure-count invariants, the
  circuit breaker and the compiling of stored conditions need neither hypothesis.
- *Populates do not overlap* (`RefreshProtocol.ApartRun`), for what is served at
  quiescence. The flag is cleared before the populate, so a second refresher can
  overtake the first; `OverlapServesStale` gives the run. Where the published map comes
  from, when it is the index of a database state and which publishes can still offer a
  removed pair is known without the hypothesis (`TrackStep`, `OneStateExactly`,
  `MapIsFreshExactly`, `RemovedPairStaysOut`).
- *No read has failed since the last request* (`RefreshProtocol.FailedSince`), for
  freshness at quiescence (`FreshAtQuiescence`) alone. This is not only about the
  database: the code makes its own reads fail, because a denial's refresher reads under
  the context of a fan-out that has returned. When nothing else goes wrong, the
  failures of a run are exactly its reads under contexts that are over
  (`FailuresAreCancellations`).
- *Evaluations of one pair do not overlap, and the clock is monotone*, for cooldown
  spacing; for transitions, evaluations of one vehicle and metric do not overlap and
  log times strictly increase (`FiringRuns.SerialRun`).

## What the proofs found

- A denial asks for its refresh under the context of its fan-out
  (`internal/controllers/metriclistener/signal.go:75-105`, `events.go:60-90`), which is
  over once the fan-out returns (`Listener.ProcessSingle`), usually before the
  debounce has passed. Its refresher then cannot read. The denied pair stays on offer exactly if
  the fan-out had returned before the subscriptions were read (`DenialExactly`,
  `StillOfferedExactly`; the runs are `DeniedPairStillServed`, and `DeniedPairHappens`
  from the empty database). While that refresher waits, the flag swallows every other
  request, so a write announced by a handler or the ticker is lost with it
  (`AnnouncedWriteLost`). A fan-out that returns between the subscription read and the
  fetches makes the populate publish without the triggers it had not fetched
  (`CancelledPublish`), up to the empty map (`MapIsEmptied`). All last until a later
  request whose refresher reads (`DeniedPairLeaves`). A cancelled refresher still ends
  (`SomeMove`, `ComesToRest`), and `EveryRequestIsServed` promises that a read begins,
  not that it succeeds.
- A bulk subscribe or unsubscribe in which some entries fail has changed the table
  for the others, yet asks for no refresh (`SubscribeMultiple`,
  `UnsubscribeVehiclesFromList`): those vehicles wait for the periodic refresh.
- An update writes back the status it read when the request names none, so an update
  that overlaps a failure, a success or a delete restores an old status; after a success
  the trigger is failed again with a count of zero (`StaleUpdateRefails`).
- The permissions of a request are sorted in place in a slice that evaluations share,
  without a lock. Two sorters of a slice of two keep its permissions under every schedule
  exactly when it was sorted before the first of them (`SharedSlice.KeptExactly`); the
  default permissions are not (`SharedSlice.DefaultsCanLose`).
- A privilege of the schema that the service does not know becomes an empty permission;
  cache keys identify requests when there is none (`LoadedArePlain`).
- The value type of a signal outside the schema is inferred at delivery but is
  `float64` when its condition is compiled. They are equal exactly when the schema names the
  signal or it carries neither location nor text (`SubscribeAndDeliveryAgree`).
- A populate reads the subscriptions and then the triggers one by one, so even alone it
  can publish a map that is the index of no database state (`TornMap`); it is the index
  of a state exactly when its reads agree with that state (`OneStateExactly`).
- A refresher that wakes always finds the flag set (`WakeFindsFlag`): the second
  check of the flag never skips a populate.
- The code is followed where the documentation differs: the periodic refresh is every
  5 minutes and not every minute (`internal/app/app.go:163`), the display-name index
  does not fold case (`internal/db/migrations/00001_init.sql:23`), and a registration
  without a status is refused, not defaulted
  (`internal/controllers/webhook/validation.go:131-139`).

## Model

| member | source | states |
|---|---|---|
| Signals.LoadSignalDefs | internal/signals/signals.go:111-140 | The loaded list keeps every signal in order with its privileges translated; the map answers each name with its last definition and holds no other name |
| Signals.BareNameInvertsPrefix | internal/signals/signals.go:43-45 | Stripping the schema prefix from a prefixed name gives the name back, for every name |
| Signals.MatchableIffPrefixed | internal/controllers/metriclistener/signal.go:70 | Some received signal can match a signal trigger exactly when its metric name carries the prefix |
| Signals.SubscribeAndDeliveryAgree | internal/controllers/webhook/vehicle_subscription_controller.go:81-84 | For a signal that matches a trigger, the permissions asked at delivery are those asked at subscription; the value type is the compiled one exactly when the schema names the signal or it is a bare number |
| Signals.PermissionsNeeded | internal/controllers/webhook/vehicle_subscription_controller.go:81-84 | Subscribing to a signal trigger needs what the schema asks for its bare name, both kinds of history when it names none, and the same for an event trigger |
| Signals.DefaultsAreHistories | internal/signals/signals.go:31-51 | The default permissions are the translations of the two history privileges; only the three known privileges translate |
| Domain.ParsesExactly | internal/db/migrations/00001_init.sql:18 | The status column takes four texts, each read as the status it is the text of |
| Domain.PreparesExactly | internal/celcondition/celcondition.go:66-75 | A condition of a signal trigger is compiled with the schema's type for the bare name or float64, one of an event trigger as an event condition, any other not at all |
| Domain.DeliveredAsCompiled | internal/services/webhookcache/webhook_cache.go:243-246 | The type the builder compiles with is the type at delivery exactly when the schema names the signal or it is a bare number |
| Domain.DecodesItself | internal/services/triggerevaluator/trigger_evaluator.go:116-125 | A stored signal or event is decoded as itself; read as the other kind it keeps its header and has zero values |
| Domain.ClampThreshold | internal/controllers/metriclistener/metric_listener.go:68-71 | The threshold in use is the configured one when that is at least 1, and 1 otherwise |
| Store.UnsubscribeAllCounts | internal/services/triggersrepo/triggersrepo.go:530-550 | The rows removed are those of the trigger, and the returned count plus the rows left is the rows there were |
| Store.IncrementCommits | internal/services/triggersrepo/triggersrepo.go:706-739 | Counting a failure of a live trigger is refused exactly when the count would leave the column's range: the write never meets the name index |
| Store.RowsAfter | internal/services/triggersrepo/triggersrepo.go:295-323 | No write removes a row, a row changes only by writes to itself, and only a committed create adds one, which holds every requested column, its status by text, its id for a missing name, and a count of zero |
| Store.CreatesExactly | internal/services/triggersrepo/triggersrepo.go:100-146 | A create goes through exactly when its keys are given, its numbers and status fit, its id is new and its name free, and then adds the requested row and nothing else |
| Store.FindsExactly | internal/services/triggersrepo/triggersrepo.go:179-261 | The owner finds an enabled, disabled or failed trigger; everybody else, and anybody for a deleted one, finds none |
| Store.LogsExactly | internal/services/triggersrepo/triggersrepo.go:656-686 | A log is refused exactly for a missing key, an unknown trigger or a used id, and is otherwise appended as given, under a fresh id when it has none |
| Store.NamesPreserved | internal/db/migrations/00001_init.sql:23 | No write gives two live triggers of one owner the same display name |
| Store.KeysPreserved | internal/db/migrations/00001_init.sql:22-46 | Every write keeps the unique index, both foreign keys and the log key |
| Store.RowsPreserved | internal/services/triggersrepo/triggersrepo.go:691-739 | Every write keeps: the failure count is the number of committed increments since the last create, update or reset, and a count at the threshold means failed or deleted |
| Store.InvariantPreserved | internal/services/triggersrepo/triggersrepo.go:100-739 | Both together, for every repository write, whether it commits or fails |
| Store.LowerThresholdPreserves | internal/services/triggersrepo/triggersrepo.go:706-739 | Counting a failure with any threshold up to the store's keeps the invariant |
| Repository.TwoQueriesAreTheJoin | internal/services/triggersrepo/triggersrepo.go:621-653 | Collecting the metric's triggers and then their latest log is finding the latest log of the join |
| Repository.TriggersRepo.CreateTrigger | internal/services/triggersrepo/triggersrepo.go:100-146 | Succeeds exactly when validation, columns and indexes let the row in, and then inserts it with every requested column; otherwise it reports what refused it and leaves the tables alone |
| Repository.TriggersRepo.GetTriggerByIDAndDeveloperLicense | internal/services/triggersrepo/triggersrepo.go:179-261 | Returns the owner's live row, or not-found, invalid-argument or driver errors |
| Repository.TriggersRepo.InternalGetTriggerByID | internal/services/triggersrepo/triggersrepo.go:575-598 | Returns the row whoever owns it unless deleted; a missing row and a failed read are different errors |
| Repository.TriggersRepo.UpdateTrigger | internal/services/triggersrepo/triggersrepo.go:266-327 | Writes every column but id, owner, service and creation, whatever the count; a missing row, a number out of range or a taken name changes nothing; the invariant stays when the count is cleared or the update fails |
| Repository.TriggersRepo.IncrementTriggerFailureCount | internal/services/triggersrepo/triggersrepo.go:706-739 | One locked read-and-write for any threshold: the count goes up by one and the status to failed at the threshold; any failure leaves the tables alone; the invariant stays for thresholds up to the store's |
| Repository.TriggersRepo.ResetTriggerFailureCount | internal/services/triggersrepo/triggersrepo.go:691-704 | Clears a positive count and lifts failed to enabled, and touches nothing else |
| Repository.TriggersRepo.DeleteTrigger | internal/services/triggersrepo/triggersrepo.go:329-386 | Marks the owner's live trigger deleted and drops exactly its subscriptions, in one transaction |
| Repository.TriggersRepo.CreateVehicleSubscription | internal/services/triggersrepo/triggersrepo.go:389-439 | Adds the row, or reports a zero argument, an unknown trigger or a duplicate |
| Repository.TriggersRepo.DeleteVehicleSubscription | internal/services/triggersrepo/triggersrepo.go:500-527 | Removes the pair and returns how many rows that was |
| Repository.TriggersRepo.DeleteAllVehicleSubscriptionsForTrigger | internal/services/triggersrepo/triggersrepo.go:530-550 | Removes the trigger's rows and returns their number |
| Repository.TriggersRepo.CreateTriggerLog | internal/services/triggersrepo/triggersrepo.go:656-686 | Appends the log, with a fresh id when it has none; a zero argument, an unknown trigger or a used id adds nothing |
| Repository.TriggersRepo.InternalGetAllVehicleSubscriptions | internal/services/triggersrepo/triggersrepo.go:553-572 | Lists, each once and in some order, the subscriptions whose trigger is not deleted |
| Repository.TriggersRepo.GetLastLogValue | internal/services/triggersrepo/triggersrepo.go:601-618 | A latest log of this trigger and vehicle, or none when there is none |
| Repository.TriggersRepo.GetLastLogForMetric | internal/services/triggersrepo/triggersrepo.go:621-653 | A latest log of the join of logs and triggers on this vehicle and metric |
| Handlers.PerformKeeps | internal/controllers/webhook/webhook_controller.go:190-239 | A write made while other handlers are open keeps the invariant, every accepted condition, and the fit of every pending write to its row |
| Handlers.EveryRunKeeps | internal/controllers/webhook/webhook_controller.go:183-278 | So does every interleaving of handlers and deliveries; identity columns never change and no row is removed |
| Handlers.CircuitBreaker | internal/services/triggersrepo/triggersrepo.go:719-731 | In every state reached from the empty database, split updates included, a count at the threshold means failed or deleted, and the count is the increments since the last create, update or reset |
| Handlers.AcceptedConditionsCompile | internal/controllers/webhook/validation.go:91-117 | In every such state every stored condition prepares with the value type the cache builder computes |
| Handlers.StoredTargetsAreChecked | internal/controllers/webhook/validation.go:72-89 | In every such state every stored target URL passed the URL check |
| Handlers.RegistersExactly | internal/controllers/webhook/webhook_controller.go:76-110 | A registration is accepted and its row can be created exactly under the checks of handler, columns and indexes, and that row is the request column by column |
| Handlers.UpdateReads | internal/controllers/webhook/webhook_controller.go:190-235 | The first half of an update opens exactly for the owner's live trigger and accepted fields, and leaves pending the row with the named fields changed, the count cleared and the rest as read |
| Handlers.OwnerReads | internal/controllers/webhook/vehicle_subscription_controller.go:77-101 | The first halves of a delete and of a subscription open exactly for the owner's live trigger, the latter when access is granted |
| Handlers.DeletedIsLeftExactlyByStaleUpdate | internal/services/triggersrepo/triggersrepo.go:295-323 | A deleted trigger leaves that status exactly when a pending update of it, of whatever live status, is written with a cooldown that fits the column and a name no live trigger of the owner has |
| Handlers.RevivedOnlyByEarlierRead | internal/controllers/webhook/webhook_controller.go:190-239 | Over any run in which a trigger stays deleted, what brings it back afterwards is the second half of an update that had read the row before that run |
| Handlers.FailedIsEnteredExactlyBy | internal/services/triggersrepo/triggersrepo.go:724-729 | A trigger becomes failed exactly by an increment of the owner's live row that reaches the threshold within the column's range, or by writing back a row read as failed that fits the column and the name index |
| Handlers.SerialRunKeeps | internal/services/triggersrepo/triggersrepo.go:329-384 | With handlers one at a time and deliveries at any moment, deleted is absorbing over every run and every subscription names a live trigger |
| Handlers.FailsOnlyAfterThreshold | internal/services/triggersrepo/triggersrepo.go:706-739 | When nothing, no delivery either, runs between a handler's halves, the step that makes a trigger failed commits at least the threshold-th increment since its last committed reset, update or create |
| Handlers.StaleUpdateRefails | internal/controllers/webhook/webhook_controller.go:190-239 | With one handler at a time, a success between the halves of an update that names no status: the trigger is failed again with count zero exactly when the update's cooldown fits the column and its name is free |
| Handlers.StaleUpdateRevives | internal/controllers/webhook/webhook_controller.go:190-237 | Any accepted update of any live trigger with a delete between its read and write brings the trigger back, exactly when its cooldown fits the column and no live trigger of the owner has its name |
| Handlers.LateSubscribeOrphans | internal/controllers/webhook/vehicle_subscription_controller.go:77-101 | For any live trigger, a delete between the owner check and the insert leaves a subscription of a deleted trigger |
| Handlers.OrphansArriveExactlyBy | internal/controllers/webhook/vehicle_subscription_controller.go:77-101 | While every subscription names a live trigger, a step leaves one that does not exactly when it inserts a new pair for a trigger deleted by then |
| WebhookController.UpdateAlone | internal/controllers/webhook/webhook_controller.go:190-239 | An update nobody interrupts writes the changed row exactly when the row is the owner's and the body passes every check; the changed row takes each named field and keeps every other |
| WebhookController.UpdatesExactly | internal/controllers/webhook/webhook_controller.go:190-239 | In a valid store it goes through exactly when moreover a new cooldown fits the column and a new name is free, and then one row changes, in the named fields and the count |
| WebhookController.DeleteAlone | internal/controllers/webhook/webhook_controller.go:267-274 | A delete nobody interrupts performs the delete exactly when the owner check passes |
| WebhookController.Controller.RegisterWebhook | internal/controllers/webhook/webhook_controller.go:65-122 | Registration is one step of the handler machine; it succeeds exactly when no check, column or index refuses the request, and the row added holds the request column by column for the owner who asked |
| WebhookController.Controller.ApplyPayload | internal/controllers/webhook/webhook_controller.go:204-235 | Exactly when every named field passes its check, the row comes back with those fields changed, the status by its text, the count cleared and the other columns kept; otherwise the update is refused |
| WebhookController.Controller.UpdateWebhook | internal/controllers/webhook/webhook_controller.go:183-244 | Uninterrupted, it is the machine's read and write; it succeeds exactly when the body is readable, nothing fails and the update is allowed, and then the owner's row takes each named field and keeps every other, and a refresh is asked for; otherwise nothing changes |
| WebhookController.Controller.DeleteWebhook | internal/controllers/webhook/webhook_controller.go:257-278 | Uninterrupted, it is the machine's read and write; it succeeds exactly for the owner's live trigger when nothing fails, and then the row is deleted, exactly its subscriptions are gone, and a refresh is asked for; otherwise nothing changes |
| SubscriptionController.NoFailures | internal/controllers/webhook/vehicle_subscription_controller.go:440-443 | A list has no failed entry exactly when no entry is refused, none is subscribed already, and none is repeated |
| SubscriptionController.InsertNext | internal/controllers/webhook/vehicle_subscription_controller.go:426-438 | After any part of the list, the next insert errors exactly when its entry counts as failed, and otherwise adds exactly one row |
| SubscriptionController.Controller.OwnerCheck | internal/controllers/webhook/vehicle_subscription_controller.go:447-477 | Passes exactly the owner of a live trigger under a well-formed id; anybody else's trigger looks absent |
| SubscriptionController.Controller.AssignVehicleToWebhook | internal/controllers/webhook/vehicle_subscription_controller.go:63-108 | Subscribes exactly when the owner asks, access is granted for the trigger's permissions and the row is new; otherwise nothing changes and no refresh is asked for |
| SubscriptionController.Controller.CheckAccess | internal/controllers/webhook/vehicle_subscription_controller.go:407-422 | Passes exactly when every vehicle is granted; the first that is not decides the error |
| SubscriptionController.Controller.SubscribeMultiple | internal/controllers/webhook/vehicle_subscription_controller.go:406-445 | One refused vehicle and the table is unchanged; otherwise it is the old table plus the named pairs, new rows plus failed entries make the list's length, and a refresh is asked for only when nothing failed |
| SubscriptionController.Controller.SubscribeVehicles | internal/controllers/webhook/vehicle_subscription_controller.go:123-152 | The same with the owner check and with the permissions the trigger's own metric needs |
| SubscriptionController.Controller.UnsubscribeVehiclesFromList | internal/controllers/webhook/vehicle_subscription_controller.go:167-212 | Removes the named pairs and no others; an absent row is no failure; a refresh is asked for only when no entry failed |
| SubscriptionController.Controller.RemoveVehicleFromWebhook | internal/controllers/webhook/vehicle_subscription_controller.go:227-251 | Removes the pair and asks for a refresh, or changes nothing |
| SubscriptionController.Controller.UnsubscribeAllVehiclesFromWebhook | internal/controllers/webhook/vehicle_subscription_controller.go:303-323 | Removes exactly the trigger's subscriptions, answers their number, and asks for a refresh |
| CompilePool.NextKeeps | internal/services/webhookcache/webhook_cache.go:225-265 | Every step keeps each id in exactly one place (queue, worker, answered) and each result in exactly one (worker, channel, map) |
| CompilePool.FetchedIsUnanswered | internal/services/webhookcache/webhook_cache.go:237-242 | No id is fetched twice |
| CompilePool.SendNeverBlocks | internal/services/webhookcache/webhook_cache.go:231-252 | A worker that holds a result always finds room in the result channel |
| CompilePool.SomeStepIsEnabled | internal/services/webhookcache/webhook_cache.go:257-265 | The pool never deadlocks before it returns |
| CompilePool.StepsRunOut | internal/services/webhookcache/webhook_cache.go:234-265 | Every step lowers a measure, so every schedule ends |
| CompilePool.ReturnedMap | internal/services/webhookcache/webhook_cache.go:262-266 | The returned map is the successes among one answer per id |
| CompilePool.EveryScheduleIsSequential | internal/services/webhookcache/webhook_cache.go:212-267 | For any number of workers and any schedule: bounded length, no deadlock, each id answered once, and the map the sequential loop would give |
| CompilePool.CompileTriggersParallel | internal/services/webhookcache/webhook_cache.go:212-267 | Whichever process moves at each turn, the result maps exactly the ids whose fetch and compile succeed to what they gave |
| WebhookIndex.WebhookKeyInjective | internal/services/webhookcache/webhook_cache.go:203-205 | Keys of services without a colon are equal exactly when service and metric are, whatever the metric contains |
| WebhookIndex.LookupIsMatching | internal/services/webhookcache/webhook_cache.go:171-187 | The nested maps answer every lookup with the selected rows in subscription order, the empty answer included |
| WebhookIndex.EmptyIndex | internal/services/webhookcache/webhook_cache.go:197-199 | The map is empty exactly when no row has a compiled, enabled trigger |
| WebhookIndex.MatchingDistinct | internal/db/migrations/00001_init.sql:31 | A lookup never lists a trigger twice |
| WebhookIndex.BuiltIndexIsJoin | internal/services/webhookcache/webhook_cache.go:145-201 | An index built from one database is the join of its tables: every lookup lists exactly the subscribed, enabled, compiled triggers of that service and metric, save those whose fetch failed |
| WebhookIndex.IndexExactly | internal/services/webhookcache/webhook_cache.go:171-187 | Whatever was read when, the built map is the index of a database exactly when it serves every pair what the database has for it |
| WebhookIndex.IndexOfRowsExactly | internal/services/webhookcache/webhook_cache.go:171-187 | For the database's own rows this comes down to the triggers they name, each compared as fetched |
| WebhookIndex.OffersExactly | internal/services/webhookcache/webhook_cache.go:172-187 | A built map offers a pair, under whatever key, exactly when the pair was read and its trigger fetched as enabled |
| WebhookIndex.BuiltInOrder | internal/services/webhookcache/webhook_cache.go:171-187 | Every lookup is the row-by-row reading of the database in the order of the subscriptions |
| WebhookCache.Cache.constructor | internal/services/webhookcache/webhook_cache.go:49-64 | An empty cache; a zero debounce becomes five seconds and a worker count below 1 two |
| WebhookCache.Cache.UniqueTriggerIds | internal/services/webhookcache/webhook_cache.go:158-162 | The triggers of the rows, each exactly once |
| WebhookCache.Cache.IndexRows | internal/services/webhookcache/webhook_cache.go:171-187 | The loop builds the index the join theorem is about |
| WebhookCache.Cache.FetchVehicleWebhooks | internal/services/webhookcache/webhook_cache.go:145-201 | Returns the join of the two tables with lookups in the order the subscriptions were read, a read error, always so under a context that is over, or the empty-configuration error exactly for the empty index |
| WebhookCache.Cache.PopulateCache | internal/services/webhookcache/webhook_cache.go:67-88 | Over an unchanging database the cache becomes its index, lookups in subscription order; a failed subscription read, as every one under a context that is over, leaves the old map |
| WebhookCache.Cache.ScheduleRefresh | internal/services/webhookcache/webhook_cache.go:107-121 | Leaves the flag set and starts a refresher exactly when it was not; the refresher keeps the context of the call that started it, and other calls leave that context alone |
| WebhookCache.Cache.RunRefresher | internal/services/webhookcache/webhook_cache.go:109-119 | A woken refresher clears the flag and installs the index, or keeps the map when the read fails or its context is over |
| RefreshProtocol.BootStarts | internal/app/app.go:147-154 | What the start-up populate publishes is the index of the database it read, with only attemptable webhooks |
| RefreshProtocol.DebounceStep | internal/services/webhookcache/webhook_cache.go:107-121 | Every step keeps: the flag is set exactly when one refresher waits, and the last request is pending or was followed by a populate's reads |
| RefreshProtocol.WakeFindsFlag | internal/services/webhookcache/webhook_cache.go:111 | A refresher that wakes finds the flag set |
| RefreshProtocol.EveryRequestIsServed | internal/services/webhookcache/webhook_cache.go:107-121 | After any request, at every later point of any run it is still pending or a populate has begun to read after it, successfully or not |
| RefreshProtocol.BuilderOnlyLosesFetches | internal/services/webhookcache/webhook_cache.go:237-252 | In every reachable state a trigger is missing from the build exactly when its fetch finds no live row, and every subscribed enabled trigger is offered |
| RefreshProtocol.PublishedAreAttemptable | internal/services/webhookcache/webhook_cache.go:177 | In every run, overlapping populates and failed reads included, every published webhook is enabled, below the threshold and compiled from its own condition |
| RefreshProtocol.MapIsFreshExactly | internal/services/webhookcache/webhook_cache.go:107-121 | In any run, overlapping populates and failed reads included, from a publish to the next the map is the index of the tables exactly while that populate's reads serve every pair what the tables have for it |
| RefreshProtocol.PublishOffersExactly | internal/services/webhookcache/webhook_cache.go:171-187 | A publish offers a pair exactly when its populate read the pair as subscribed and its trigger as enabled |
| RefreshProtocol.FreshAtQuiescence | internal/services/webhookcache/webhook_cache.go:107-121 | With populates that do not overlap: when no refresher is left, every write was announced and no read has failed since the last request, the published map is the index of the present tables |
| RefreshProtocol.OverlapServesStale | internal/services/webhookcache/webhook_cache.go:113-114 | With overlap, a run ends quiescent and announced yet serving a vehicle that was unsubscribed |
| RefreshProtocol.RemovedPairStaysOut | internal/services/webhookcache/webhook_cache.go:145-187 | Whatever was under way when a pair is removed, until it is subscribed again no publish offers it but those of populates that had already read it, once each |
| RefreshHistory.StartUpIsTracked | internal/app/app.go:147-154 | The service as the start-up populate leaves it satisfies everything the runs below assume |
| RefreshHistory.TrackStep | internal/services/webhookcache/webhook_cache.go:145-201 | Every step, overlapping populates and failed reads included, keeps the published map traceable to one read of the subscriptions and, trigger by trigger, to a fetch between that and the publish or to a failed one |
| RefreshHistory.ServedSinceLastRequest | internal/services/webhookcache/webhook_cache.go:107-121 | However the tables are written and whichever reads fail, with populates that do not overlap: at quiescence the published map was built from the last subscriptions that were read, and they were read after the last request exactly when some subscription read since then succeeded |
| RefreshHistory.OneStateExactly | internal/services/webhookcache/webhook_cache.go:107-121 | At every point of every run, overlaps and failed reads included, the map is the index of a database state later than the last request exactly when its reads agree with such a state, and of the state whose subscriptions were read exactly when each listed trigger was fetched as it was then |
| RefreshHistory.SteadyTriggersGiveOneState | internal/services/webhookcache/webhook_cache.go:145-201 | It suffices that every fetch succeeded and no listed trigger changed, as far as lookups tell, between the read of the subscriptions and the publish |
| RefreshHistory.ServedPairsAreRecent | internal/services/webhookcache/webhook_cache.go:172-187 | In any case each served pair was subscribed and undeleted at that read, and its trigger enabled when fetched before the publish |
| RefreshHistory.DeniedPairLeaves | internal/controllers/metriclistener/signal.go:95-105 | A pair is removed, whatever populate had read it and whichever reads fail: with populates that do not overlap, once the subscriptions have been read again the map served at quiescence does not offer it unless it was subscribed again |
| RefreshProgress.MovesRunOut | internal/services/webhookcache/webhook_cache.go:109-119 | Every move of a refresher lowers a measure, so between requests only finitely many are made |
| RefreshProgress.SomeMove | internal/services/webhookcache/webhook_cache.go:109-119 | While a refresher is left, one can move, and its read fails exactly when its context is over |
| RefreshProgress.ComesToRest | internal/services/webhookcache/webhook_cache.go:107-121 | From any state the refreshers alone can bring the cache to rest, failing in no read but those under contexts that are over, and in none when every context is alive |
| TornRefresh.TornMap | internal/services/webhookcache/webhook_cache.go:148-169 | Two subscribed triggers, the first fetched, a failure of each, the second fetched: under a live context a calm run, without overlap or failed read, ends quiescent with a map that is the index of no state since the request |
| TornRefresh.TornMapHappens | internal/services/webhookcache/webhook_cache.go:148-169 | Such a run exists from the empty database on |
| TornRefresh.OverlapHappens | internal/services/webhookcache/webhook_cache.go:113-114 | So does an overlap that ends serving an unsubscribed vehicle |
| CancelledRefresh.FailuresAreCancellations | internal/services/webhookcache/webhook_cache.go:107-119 | When nothing else goes wrong, a read has failed since the last request exactly if a refresher tried to read under a context that was over |
| CancelledRefresh.CancelledPublish | internal/services/webhookcache/webhook_cache.go:237-252 | A populate whose context ends while it fetches publishes, whatever runs beside it, the index of its rows with nothing but what it had fetched by then |
| CancelledRefresh.OfferedUntilPublish | internal/services/webhookcache/webhook_cache.go:67-88 | A removed pair that no populate under way has read, and that is not subscribed again, stays on offer exactly until the next publish |
| CancelledRefresh.StillOfferedExactly | internal/controllers/metriclistener/signal.go:95-105 | Once no refresher is left it is on offer exactly if it was and no subscriptions have been read; when nothing else goes wrong, exactly if every refresher's context was over before it read them |
| CancelledRefresh.LoneRefresher | internal/services/webhookcache/webhook_cache.go:107-119 | A refresher that nobody joins tries to read the subscriptions once, and when nothing else goes wrong fails exactly if its context ended first |
| CancelledRefresh.DenialExactly | internal/controllers/metriclistener/signal.go:75-105 | A denial's own refresh, with no further request: the denied pair is still on offer at the end exactly if its subscription read failed, which is exactly if the fan-out had returned by then |
| CancelledRefresh.DeniedPairStillServed | internal/controllers/metriclistener/signal.go:95-105 | From any idle state, a denial whose fan-out returns during the debounce ends quiescent, announced, and still offering the pair |
| CancelledRefresh.AnnouncedWriteLost | internal/services/webhookcache/webhook_cache.go:107-111 | Any write announced under a live context while such a refresher waits is lost: the map stays, and is right only if the write changed nothing on offer |
| CancelledRefresh.MapIsEmptied | internal/services/webhookcache/webhook_cache.go:157-200 | From any idle state, whatever is subscribed, a fan-out that returns between the subscription read and the first fetch leaves an empty map |
| CancelledRefresh.DeniedPairHappens | internal/controllers/metriclistener/signal.go:95-105 | A run from the empty database to a denied pair that is still served |
| Evaluator.CooldownIsExact | internal/services/triggerevaluator/trigger_evaluator.go:225-231 | In the column's range neither the 64-bit product nor the saturating difference changes the comparison |
| Evaluator.ReachableCooldownIsExact | internal/services/triggerevaluator/trigger_evaluator.go:225-231 | Every trigger that requests can create or change has a cooldown in that range |
| Evaluator.SignalVerdicts | internal/services/triggerevaluator/trigger_evaluator.go:65-145 | Each verdict on a signal exactly by its guards: refused; granted but the cooldown since the pair's last log not over; granted, rested, and the condition true, or false, after the metric's last signal |
| Evaluator.EventVerdicts | internal/services/triggerevaluator/trigger_evaluator.go:151-221 | The same for an event, its condition taken after the pair's last event |
| FiringRuns.FiringIsReady | internal/services/triggerevaluator/trigger_evaluator.go:82-106 | A verdict to fire means a full cooldown since every earlier log of the pair |
| FiringRuns.LogsAreSpaced | internal/services/triggerevaluator/trigger_evaluator.go:92-106 | In every run any two logs of one pair are at least the cooldown apart |
| FiringRuns.WindowBound | internal/controllers/metriclistener/metric_listener.go:170-184 | Any window of length W holds at most W/c + 1 logs of a pair with cooldown c |
| FiringRuns.LookupIsLast | internal/services/triggersrepo/triggersrepo.go:621-653 | With strictly increasing times the two-query lookup can only return the last log of the vehicle and metric |
| FiringRuns.LogsAreTransitions | internal/services/triggerevaluator/trigger_evaluator.go:108-142 | When every trigger on a metric fires only on a change, neighbouring logs of a vehicle and metric never carry equal readings, whichever triggers wrote them |
| FiringRuns.LogsMetConditions | internal/services/triggerevaluator/trigger_evaluator.go:108-142 | In every run every log of an event trigger is of an event whose condition held after the previous log of its pair, and every log of a signal trigger of a signal whose condition held after a reading that had been the metric's last |
| FiringRuns.FinishLogsDelivery | internal/controllers/metriclistener/metric_listener.go:170-184 | The log of a finished firing is the one the listener writes for its delivery |
| Deliveries.BalancedDelivery | internal/controllers/metriclistener/metric_listener.go:135-168 | One delivery: an endpoint failure tries one increment, a success one reset and one log, any other error neither |
| Deliveries.ActsExactly | internal/controllers/metriclistener/metric_listener.go:135-168 | A delivery is attempted exactly for an enabled trigger below the threshold, and does exactly what its outcome asks for, under its own payload id |
| Deliveries.WritesExactly | internal/controllers/metriclistener/metric_listener.go:142-184 | When no write fails, an endpoint failure adds one to the count and fails the trigger at the threshold, a delivery clears the count, lifts failed and appends its log, and any other error writes nothing |
| Deliveries.EveryRunIsAccounted | internal/controllers/metriclistener/metric_listener.go:135-184 | However deliveries interleave with each other and with other writes: follow-ups never run ahead of their sends, and once all deliveries have ended each endpoint failure tried one increment, each success one reset and one log, other errors neither, and sends are the three kinds together |
| Deliveries.LogsAreDeliveredSends | internal/controllers/metriclistener/metric_listener.go:170-184 | However deliveries interleave, every log written is the log of a delivery whose send succeeded |
| Deliveries.LogsMapInjectively | internal/controllers/metriclistener/metric_listener.go:173 | Two different logs belong to different deliveries with different payload ids, in every interleaving |
| Deliveries.AloneInOrder | internal/controllers/metriclistener/metric_listener.go:135-168 | A delivery nobody interrupts is the sequence of actions and writes the listener's method performs |
| Deliveries.DeliveryAdvances | internal/controllers/metriclistener/metric_listener.go:135-184 | A delivery appends at most its own log, after its delivered send, and changes no trigger but in failure count and status |
| Deliveries.CachedWebhooksAreAttempted | internal/controllers/metriclistener/metric_listener.go:212-224 | A listener with the store's threshold attempts every webhook of every map the cache ever publishes |
| MetricListener.EachCounts | internal/controllers/metriclistener/signal.go:75-85 | Fanning out over a list without repeats evaluates each of its webhooks once and no other |
| MetricListener.MatchingTriggersOnce | internal/controllers/metriclistener/signal.go:70-85 | When the cache is the index of a database, the triggers evaluated for a metric are exactly the offered ones, each once |
| MetricListener.MatchesExactly | internal/controllers/metriclistener/signal.go:70 | On a map that is the index of a database, a signal matches exactly the subscribed, enabled, compiled triggers on signals whose metric is its prefixed name, an event those on events with its own name |
| MetricListener.JudgedIsDecided | internal/services/triggerevaluator/trigger_evaluator.go:65-221 | Every verdict of the listener is, by the exact guards, that of the token exchange's answer for the owner, latest logs of pair and metric, and the condition |
| MetricListener.NeedsAsSubscribed | internal/controllers/metriclistener/signal.go:61 | The permissions a delivery asks for are those that subscribing to the trigger asked for |
| MetricListener.SendsExactly | internal/controllers/metriclistener/signal.go:75-113 | Processing webhooks only adds actions, and a send is among them exactly when some processed webhook was judged to fire, is enabled and below the threshold, and the send is its own |
| MetricListener.DenialsExactly | internal/controllers/metriclistener/signal.go:93-105 | Exactly the denied pairs that could be deleted go, and each asks for one refresh, which sets the flag |
| MetricListener.FiredWritesExactly | internal/controllers/metriclistener/metric_listener.go:135-184 | What a fired webhook's outcome leaves in its row and in the logs when no write fails: the log is of this payload, vehicle, metric and time |
| MetricListener.UndefinedSignalPayload | internal/controllers/metriclistener/signal.go:50-58 | The payload of a signal the schema does not name carries its location if it has one, else its text, else its number |
| MetricListener.FiredHasPayload | internal/controllers/metriclistener/signal.go:114-125 | A signal that fires a trigger always has a payload value: the unsupported-type error cannot follow |
| MetricListener.Listener.constructor | internal/controllers/metriclistener/metric_listener.go:62-79 | The listener works with the configured threshold when it is at least 1, and with 1 otherwise |
| MetricListener.Listener.HandleWebhookFailure | internal/controllers/metriclistener/metric_listener.go:145-147 | One increment is tried, and the logs stay as they are |
| MetricListener.Listener.HandleWebhookSuccess | internal/controllers/metriclistener/metric_listener.go:157-165 | One reset and then one log are tried, and the result is success exactly when the log was added |
| MetricListener.Listener.SendAndRecord | internal/controllers/metriclistener/metric_listener.go:142-168 | An attempt leaves exactly its actions and writes, in order |
| MetricListener.Listener.HandleTriggeredWebhook | internal/controllers/metriclistener/metric_listener.go:135-168 | Does exactly the accounted actions and writes, keeps the accounts balanced, touches no subscription, and reports success only when nothing was attempted or the delivered log was stored |
| MetricListener.Listener.ProcessWebhook | internal/controllers/metriclistener/signal.go:88-113 | The verdict is the evaluator's on latest logs with the metric's permissions; tables, actions, refreshes and flag change by exactly what it asks for. A vehicle the token exchange refuses is unsubscribed and a refresh asked for under the caller's context, unless the delete fails |
| MetricListener.Listener.ProcessSingle | internal/controllers/metriclistener/signal.go:60-86 | In whatever order, every matching webhook is evaluated exactly once, on the tables of its turn and under its own outside, whatever becomes of the others; the new sends are exactly those of the webhooks judged to fire that pass the circuit check; every refused one has lost its pair and the flag is set; nothing else happens; and a refresher started by a denial is left with a context that is over |
| MetricListener.Listener.ProcessParts | internal/controllers/metriclistener/signal.go:34-46 | No part of a message stops another: each usable one has all its webhooks evaluated with the same effects, the others have none, and the errors count exactly those |
| MetricListener.Listener.ProcessSignalMessage | internal/controllers/metriclistener/signal.go:22-47 | An unreadable message or subject evaluates and changes nothing; otherwise every signal that encodes has its webhooks evaluated and their verdicts carried out, and the errors count the others |
| MetricListener.Listener.ProcessEventMessage | internal/controllers/metriclistener/events.go:21-41 | The same for events, each with its own subject |
| Dispatcher.EveryRunKeeps | internal/controllers/metriclistener/metric_listener.go:89-133 | Every schedule keeps each received message in exactly one place and the semaphore's account exact |
| Dispatcher.AtMostMaxRun | internal/controllers/metriclistener/metric_listener.go:91-118 | Never more processors than slots |
| Dispatcher.OnReturn | internal/controllers/metriclistener/metric_listener.go:89-133 | On return nothing runs, every started message was acked exactly once, at most one received message was dropped, and none without cancellation |
| Dispatcher.StepsRunOut | internal/controllers/metriclistener/metric_listener.go:99-132 | Between messages from outside only finitely many steps are possible |
| Dispatcher.Progress | internal/controllers/metriclistener/metric_listener.go:99-132 | The loop stops only on return or on an open, empty, uncancelled channel |
| Dispatcher.FanOutEvaluatesEachOnce | internal/controllers/metriclistener/signal.go:75-85 | Under every schedule of the limited group each webhook is evaluated exactly once |
| PermissionCache.ThreeParts | internal/clients/tokenexchange/cache.go:55 | Keys with four colons in the asset and none in the grantee split one way only |
| PermissionCache.JoinedPermissions | internal/clients/tokenexchange/cache.go:54-55 | Sorted and joined, two permission lists are equal exactly when they are permutations of each other |
| PermissionCache.KeyIdentifiesRequest | internal/clients/tokenexchange/cache.go:53-56 | Equal keys exactly for the same asset, the same grantee and the same permissions up to order |
| PermissionCache.LoadedArePlain | internal/signals/signals.go:111-140 | The permissions of every loaded definition are non-empty and free of commas exactly when the service knows every privilege of the schema |
| PermissionCache.RequestsArePlain | internal/controllers/webhook/vehicle_subscription_controller.go:81-84 | Then so are those of every request, at subscription and at delivery |
| PermissionCache.RemembersAnswers | internal/clients/tokenexchange/cache.go:53-56 | What is remembered under a key is the last answer to the same request, whatever the order of its permissions |
| PermissionCache.Cache.HitsExactly | internal/clients/tokenexchange/cache.go:31-49 | A lookup hits exactly when the last answer under the key is at most the expiration old, or expiration is not positive, and finds that answer |
| SharedSlice.KeptExactly | internal/clients/tokenexchange/cache.go:54 | Any number of sorters of one two-element slice keep its permissions under every schedule exactly when it was sorted before the first of them |
| SharedSlice.RaceLoses | internal/clients/tokenexchange/cache.go:54 | Two sorters of an unsorted slice can double the larger permission and lose the smaller |
| SharedSlice.AloneSorts | internal/clients/tokenexchange/cache.go:54 | A sorter nobody interrupts leaves the slice sorted |
| SharedSlice.DefaultsCanLose | internal/signals/signals.go:48-51 | The shared default permissions start unsorted and can lose one |
| PermissionCache.Cache.SortInPlace | internal/clients/tokenexchange/cache.go:54 | The caller's own slice is left sorted |
| PermissionCache.Cache.HasVehiclePermissions | internal/clients/tokenexchange/cache.go:31-49 | While the last answer to the request is fresh it is given again and nothing changes; otherwise the token exchange decides, its answer is stored, and an error never is |

## Left out

- SQL text, the generated row models and the migrations' mechanics: tables are maps and sets with the same keys, constraints and column ranges. Row order is unspecified, so every enumeration of a result is allowed.
- HTTP sending, endpoint verification, Kafka, routing, authentication, the identity and token-exchange clients: their answers are parameters.
- CEL and the distance function: compiling and evaluating are fixed functions of their inputs, which may fail.
- JSON encoding, UUID generation and DID decoding: encoding is the identity that may fail, ids are supplied, and DIDs and licenses are their strings, the empty string being the zero value.
- Time columns `created_at` and `updated_at`, and the microsecond rounding of stored times.
- Read-only views (`ListWebhooks`, `ListSubscriptions`, `ListVehiclesForWebhook`, signal names) and the other fields of payloads.
- The janitor of the permission cache: expired entries stay in the map here and are never hits, as there.
- Logging, memory statistics, start-up and shutdown wiring, metrics.
- A transaction left open when a locked read fails before its rollback is deferred.
- The semaphore lets any waiter in; its first-come order is not modelled.
- Contexts end at any moment and are otherwise opaque: deadlines and values are not modelled, and requests of handlers and of the ticker run under contexts that the model ends only when a run says so.
- SharedSlice.KeptExactly: slices of two permissions, as the default ones are; memory is sequentially consistent.
- MetricListener.Listener.ProcessSingle: the goroutines of the group run one after another, in any order; overlapping ones are the subject of the runs in `Deliveries`, `Dispatcher`, `RefreshProtocol` and `FiringRuns`.
