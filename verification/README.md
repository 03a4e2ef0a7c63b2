# HBase-on-Mesos scheduler: a Dafny model

This project models the scheduling engine of the HBase framework for Mesos
(`HBaseScheduler`) and the sizing part of its configuration
(`HBaseFrameworkConfig`). The scheduler places two HBase masters and any
number of region servers ("slave nodes") on hosts that the Mesos master offers.
It runs through three acquisition phases: `RECONCILING_TASKS`,
`START_MASTER_NODES` and `SLAVE_NODES`. It keeps a live ledger of staging and
running tasks, and a durable store of node records that survives restarts.

The model is functional. `State.SchedulerState` holds the phase, the staging
task ids, the running tasks (task id to slave id) and the store. Each callback
is a pure transition (`Scheduler.Handle`). A transition returns the new state,
the driver calls made (decline, launch, send messages, reconcile, arm the
timer, exit) and the exception raised, if any. The reconcile timer firing is an
event of its own, delivered in the same serial stream as the driver's callbacks.
The configuration is an immutable record. Each configuration key is an
`Option`, and an absent key falls back to the default the class declares.

Modules, one per component:
- `Outcomes`: `Option`, `Result` and the exceptions (`Fault`).
- `Text`: `indexOf`, `substring`-after and `contains` on `seq<char>`, plus decimal rendering.
- `Constants`: `HBaseConstants` and the two roles.
- `Config`: `HBaseFrameworkConfig`.
- `Mesos`: offers, statuses, task descriptions and driver actions.
- `Store`: `IPersistentStateStore` as an abstract record set.
- `State`: the live state and phase correction.
- `Admission`: the offer resource check.
- `Placement`: ids, task names, `launchNode` and the placement rules.
- `Batch`: `resourceOffers`.
- `Scheduler`: status updates, reconciliation, registration, errors and dispatch.

## How the model reads the code

- **Every launch raises.** `launchNode` asks `getTaskResources` for the sizing
  of task type `masternode` or `slavenode` (HBaseScheduler.java line 309).
  `getTaskCpus` only knows `namenode`, `datanode` and `journalnode`, so it
  throws a `ConfigurationException`. The throw happens before the task is named
  and before anything is recorded in the live state or the store. The model keeps
  this (`Placement.RoleLaunchRaises`). As a result, an offer batch never
  launches. It declines offers until the first one that admission and placement
  let through, and then the callback ends with the exception
  (`Batch.ResourceOffers`). The offer loop itself is proved over an arbitrary
  per-offer evaluator (`Batch.OfferLoop`), so its one-launch-per-batch
  guarantees do not depend on this failure.
- **Slave admission uses master sizing.** The slave path checks admission with
  the master cpu and heap settings (lines 537-538). The model keeps this.
- **Phase correction counts live tasks.** It uses the live state's running master
  count, not the durable count. The live-state class is not part of this model.
  Its master count is taken to be the number of running task ids that contain
  `.masternode.masternode.` (`MASTER_NODE_TASKID`).
- **Registration does not change the phase.** `registered` and `reregistered`
  only persist the framework id and start reconciliation. The initial
  `RECONCILING_TASKS` phase belongs to the live-state class, which is not
  modelled. `Scheduler.OnlyTimerEndsReconciliation` shows that once the phase
  is `RECONCILING_TASKS`, only the timer leaves it.
- **`error` exits only on "re-register".** The code clears the framework id and
  exits only when the message contains `re-register`. For any other message it
  only logs. The comment above that code (HBaseScheduler.java lines 86-88) says
  the framework id is removed for all messages, but the code at lines 89-109
  removes it, and exits, only for `re-register`. The model follows the code.
- **The timer delay wraps.** The delay is `timeout * 1000` in Java `int`
  arithmetic, wrapped into 32 bits (`Scheduler.WrapInt32`). Timeouts from 0 to
  2147483 seconds arm the timer as written. Timeouts from 2147484 to 4294967
  seconds, and from -2147483 to -1, give a negative delay, and `Timer.schedule`
  then throws after the reconcile request has been sent. Larger magnitudes wrap
  again: 4294968 seconds arms a 704 ms timer (`Scheduler.ReconcileTasks`,
  `Scheduler.TimeoutWrapWindows`).
- **Store assumptions.** The store's implementation is not part of this model.
  Its queries are given explicit definitions, listed in the `Store` module
  header. `removeTaskId` drops the records carrying that id. The primary nodes
  are the `masternode` records. A type "runs on" a host when one of its records
  names that host. The dead-host lists are supplied by the store and are not
  changed by the modelled operations. Task ids in the store may be null
  (`None`), which the reconcile timer skips.
- **Task ids.** The code builds task ids as `task.<type>.<nodeName>.<executorName>.<millis>`
  and executor ids as `executor.<nodeName>.<executorName>.<millis>` (lines 303-313).

## Model

| member | source | states |
|---|---|---|
| Config.DefaultsWhenKeysAbsent | hbase-commons/src/main/java/org/apache/mesos/hbase/config/HBaseFrameworkConfig.java:22-37 | With no key set, hadoop heap is 512, executor heap 256, executor cpus 0.5, JVM overhead 1.35, reconciliation timeout 30, and the node heaps and cpus take their declared defaults |
| Config.CramCredentialsEnabled | hbase-commons/src/main/java/org/apache/mesos/hbase/config/HBaseFrameworkConfig.java:72-79 | Credentials are enabled iff both the principal and the secret are set and non-empty |
| Config.JournalNodeHeapSize | hbase-commons/src/main/java/org/apache/mesos/hbase/config/HBaseFrameworkConfig.java:109-111 | The journal node heap is the hadoop heap: the configured value if set, else 512 |
| Config.TaskHeapSize | hbase-commons/src/main/java/org/apache/mesos/hbase/config/HBaseFrameworkConfig.java:121-139 | Succeeds exactly for namenode, datanode and journalnode, with the namenode, datanode and hadoop heaps; any other name is a ConfigurationException |
| Config.TaskCpus | hbase-commons/src/main/java/org/apache/mesos/hbase/config/HBaseFrameworkConfig.java:177-195 | Succeeds exactly for namenode, datanode and journalnode, with their cpu settings; any other name is a ConfigurationException |
| Config.RoleNamesHaveNoSizing | hbase-commons/src/main/java/org/apache/mesos/hbase/config/HBaseFrameworkConfig.java:121-195 | masternode and slavenode are rejected by both sizing getters |
| Store.RemoveTaskId | hbase-scheduler/src/main/java/org/apache/mesos/hbase/state/IPersistentStateStore.java:18 | Exactly the records carrying the id are removed; the id is gone from getAllTaskIds and nothing else changes |
| Store.AddNode | hbase-scheduler/src/main/java/org/apache/mesos/hbase/state/IPersistentStateStore.java:22 | The new record is present, at most one record is added, and the framework id and dead-host lists are unchanged |
| State.CorrectPhase | hbase-scheduler/src/main/java/org/apache/mesos/hbase/scheduler/HBaseScheduler.java:604-610 | START_MASTER_NODES iff the live master count is below TOTAL_MASTER_NODES (2), SLAVE_NODES otherwise, never RECONCILING_TASKS |
| Scheduler.CorrectCurrentPhase | hbase-scheduler/src/main/java/org/apache/mesos/hbase/scheduler/HBaseScheduler.java:604-610 | Only the phase changes, and afterwards it agrees with the running master count |
| Admission.ShortOf | hbase-scheduler/src/main/java/org/apache/mesos/hbase/scheduler/HBaseScheduler.java:612-632 | The resource scan reports a shortfall iff some entry with the given name is below the requirement |
| Admission.AcceptOffer | hbase-scheduler/src/main/java/org/apache/mesos/hbase/scheduler/HBaseScheduler.java:483-502 | An offer is admitted iff every cpus entry is at least node cpus + executor cpus and every mem entry is at least node heap x overhead + executor heap x overhead |
| Admission.NoScalarsAdmitted | hbase-scheduler/src/main/java/org/apache/mesos/hbase/scheduler/HBaseScheduler.java:612-632 | An offer with no cpus and no mem entry passes the check |
| Admission.OfferNotEnoughCpu | hbase-scheduler/src/main/java/org/apache/mesos/hbase/scheduler/HBaseScheduler.java:612-620 | True iff some cpus entry of the offer is below node cpus + executor cpus |
| Admission.OfferNotEnoughMemory | hbase-scheduler/src/main/java/org/apache/mesos/hbase/scheduler/HBaseScheduler.java:622-632 | True iff some mem entry of the offer is below node heap x overhead + executor heap x overhead |
| Placement.SendMessageTo | hbase-scheduler/src/main/java/org/apache/mesos/hbase/scheduler/HBaseScheduler.java:565-576 | The message goes to the slave given, carries the message text, and addresses executor. followed by the task id after its second '.', which is a tail of the task id; a task id with no '.' is kept whole |
| Placement.MessageTargetsLaunchedExecutor | hbase-scheduler/src/main/java/org/apache/mesos/hbase/scheduler/HBaseScheduler.java:565-576 | For a task id task.<type>.<name> with no '.' in the type, sendMessageTo addresses executor.<name> |
| Placement.LaunchIdsRoundTrip | hbase-scheduler/src/main/java/org/apache/mesos/hbase/scheduler/HBaseScheduler.java:303-313 | The executor id that sendMessageTo derives from a launched task id is the executor id the launch created |
| Placement.MasterTaskIdIsCounted | hbase-commons/src/main/java/org/apache/mesos/hbase/util/HBaseConstants.java:21 | A master launch's task id contains MASTER_NODE_TASKID, so the live state counts it as a master |
| Placement.SlotNames | hbase-scheduler/src/main/java/org/apache/mesos/hbase/scheduler/HBaseScheduler.java:339-341 | The master slots are named masternode1 and masternode2 |
| Placement.FirstFreeSlot | hbase-scheduler/src/main/java/org/apache/mesos/hbase/scheduler/HBaseScheduler.java:339-347 | Returns the lowest slot from i to 2 whose name is not taken; SchedulerException iff all of them are taken |
| Placement.NextTaskName | hbase-scheduler/src/main/java/org/apache/mesos/hbase/scheduler/HBaseScheduler.java:335-350 | A master gets masternode1 if free, else masternode2 if free, else a SchedulerException; any other type is named after itself |
| Placement.NextMasterNameKeepsSlotsDistinct | hbase-scheduler/src/main/java/org/apache/mesos/hbase/scheduler/HBaseScheduler.java:335-350 | Storing a master under the chosen name keeps master task names unique |
| Placement.TaskResources | hbase-scheduler/src/main/java/org/apache/mesos/hbase/scheduler/HBaseScheduler.java:465-481 | Fails with the cpu getter's exception when it rejects the type; otherwise a cpus entry and a mem entry of heap x overhead under the framework role |
| Placement.RecordLaunch | hbase-scheduler/src/main/java/org/apache/mesos/hbase/scheduler/HBaseScheduler.java:324-325 | The task becomes staging and its node record is stored; phase and running tasks are unchanged |
| Placement.LaunchNode | hbase-scheduler/src/main/java/org/apache/mesos/hbase/scheduler/HBaseScheduler.java:296-329 | Fails iff the cpu getter or the task naming fails; on success the task and executor ids are built from one task id name and the launch is recorded |
| Placement.RoleLaunchRaises | hbase-scheduler/src/main/java/org/apache/mesos/hbase/scheduler/HBaseScheduler.java:309 | Launching a masternode or slavenode always raises the ConfigurationException from getTaskCpus |
| Placement.MasterPlacement | hbase-scheduler/src/main/java/org/apache/mesos/hbase/scheduler/HBaseScheduler.java:504-534 | Admission must pass. With no dead master host: launch iff fewer or more than 2 primaries and no master or slave is on the host. Otherwise: launch iff the host is dead |
| Placement.SlavePlacement | hbase-scheduler/src/main/java/org/apache/mesos/hbase/scheduler/HBaseScheduler.java:536-563 | Admission, with the master sizing, must pass. With no dead slave host: launch iff neither role is on the host. Otherwise: launch iff the host is dead |
| Placement.FreshPlacementKeepsNoColocation | hbase-scheduler/src/main/java/org/apache/mesos/hbase/scheduler/HBaseScheduler.java:513-522 | A placement with no dead hosts never puts a master and a slave on one host |
| Placement.FreshMasterPlacementKeepsAtMostTwo | hbase-scheduler/src/main/java/org/apache/mesos/hbase/scheduler/HBaseScheduler.java:514-515 | A placement with no dead hosts keeps at most 2 stored masters |
| Placement.DeadHostIsRelaunched | hbase-scheduler/src/main/java/org/apache/mesos/hbase/scheduler/HBaseScheduler.java:523-525 | An admitted offer from a dead host of the role is placed, whatever else the store records |
| Placement.TryToLaunch | hbase-scheduler/src/main/java/org/apache/mesos/hbase/scheduler/HBaseScheduler.java:504-563 | Never launches; raises iff admission and placement let the offer through, declines otherwise |
| Batch.OfferLoop | hbase-scheduler/src/main/java/org/apache/mesos/hbase/scheduler/HBaseScheduler.java:206-237 | Answers come in offer order, one per offer, until an exception. At most one launch, and every offer after it is declined. An exception only comes before any launch. While reconciling every offer is declined. The first offer evaluated is answered as the evaluator decided: a decline is declined, a launch launches that task and takes the evaluator's state, a raise ends the batch with that exception and no answer |
| Batch.FirstNonDecline | hbase-scheduler/src/main/java/org/apache/mesos/hbase/scheduler/HBaseScheduler.java:211-234 | The position of the first offer the evaluator does not decline: every earlier offer is declined by it, and the offer there (if any) is not |
| Batch.FirstAcceptableIsAnswered | hbase-scheduler/src/main/java/org/apache/mesos/hbase/scheduler/HBaseScheduler.java:210-236 | Outside reconciliation, every offer before the first non-declined one is declined; if the evaluator declines all, all are declined with no fault and no state change; if it raises there, the batch stops there with that exception; if it launches there, that offer gets that task, every later offer is declined, and the state is the evaluator's |
| Batch.AcceptedIgnoresEvaluator | hbase-scheduler/src/main/java/org/apache/mesos/hbase/scheduler/HBaseScheduler.java:210-213 | After a launch the remaining offers are declined without evaluation |
| Batch.NoLaunchBatch | hbase-scheduler/src/main/java/org/apache/mesos/hbase/scheduler/HBaseScheduler.java:211-234 | With an evaluator that never launches, the batch declines offers until the first one that raises, and the state is unchanged |
| Batch.ResourceOffers | hbase-scheduler/src/main/java/org/apache/mesos/hbase/scheduler/HBaseScheduler.java:206-237 | A batch never launches or changes state. It raises iff the phase is not RECONCILING_TASKS and some offer passes admission and placement, at the first such offer |
| Scheduler.ReloadConfigs | hbase-scheduler/src/main/java/org/apache/mesos/hbase/scheduler/HBaseScheduler.java:594-602 | No messages with native binaries; otherwise every running task's executor gets reload config on its slave, and nothing else is sent |
| Scheduler.OnStatusUpdate | hbase-scheduler/src/main/java/org/apache/mesos/hbase/scheduler/HBaseScheduler.java:156-203 | A non-STAGING status de-stages the task. A terminal status removes it from the running tasks and the store and re-corrects the phase unless reconciling. A running status records it and reloads as the phase demands |
| Scheduler.RemoveStaleTaskIds | hbase-scheduler/src/main/java/org/apache/mesos/hbase/scheduler/HBaseScheduler.java:686-694 | Afterwards every non-null stored task id is running; records without an id or with a running id are kept; no record is added, and the framework id and dead-host lists are unchanged |
| Scheduler.RemoveStaleTaskIdsInTurn | hbase-scheduler/src/main/java/org/apache/mesos/hbase/scheduler/HBaseScheduler.java:686-694 | Removing the stale ids one at a time, in any order, gives RemoveStaleTaskIds |
| Scheduler.OnReconcileTimer | hbase-scheduler/src/main/java/org/apache/mesos/hbase/scheduler/HBaseScheduler.java:680-696 | The store becomes RemoveStaleTaskIds of the store against the running tasks, so every non-null stored task id is running; the phase is corrected from the live master count; the task ledgers are unchanged and nothing is sent |
| Scheduler.ReconcileTasks | hbase-scheduler/src/main/java/org/apache/mesos/hbase/scheduler/HBaseScheduler.java:634-642 | A reconcile request is always sent first. The timer is armed with the 32-bit wrapped timeout x 1000 ms exactly when that is non-negative; a negative wrapped delay raises IllegalArgumentException instead, and the state never changes |
| Scheduler.WrapInt32 | hbase-scheduler/src/main/java/org/apache/mesos/hbase/scheduler/HBaseScheduler.java:640 | The result is in the int range and congruent to the argument modulo 2^32 |
| Scheduler.TimeoutWrapWindows | hbase-scheduler/src/main/java/org/apache/mesos/hbase/scheduler/HBaseScheduler.java:640-641 | Timeouts 0..2147483 s arm timeout x 1000 ms; 2147484..4294967 s and -2147483..-1 s raise; 4294968 s arms 704 ms |
| Scheduler.OnRegistered | hbase-scheduler/src/main/java/org/apache/mesos/hbase/scheduler/HBaseScheduler.java:132-146 | Only the framework id changes, to the one given; the requests, timer and exception are exactly those of reconcileTasks (line 145), so the timer that ends RECONCILING_TASKS is armed whenever the wrapped delay is non-negative |
| Scheduler.OnError | hbase-scheduler/src/main/java/org/apache/mesos/hbase/scheduler/HBaseScheduler.java:84-110 | A message containing re-register clears the framework id and exits with 9; any other message changes nothing |
| Scheduler.IsTerminalState | hbase-scheduler/src/main/java/org/apache/mesos/hbase/scheduler/HBaseScheduler.java:578-584 | A status is terminal iff it is none of staging, starting and running |
| Scheduler.IsRunningState | hbase-scheduler/src/main/java/org/apache/mesos/hbase/scheduler/HBaseScheduler.java:586-588 | Only TASK_RUNNING is running, and it is never terminal |
| Scheduler.IsStagingState | hbase-scheduler/src/main/java/org/apache/mesos/hbase/scheduler/HBaseScheduler.java:590-592 | Staging is neither running nor terminal; the one state that is none of the three is TASK_STARTING |
| Scheduler.Handle | hbase-scheduler/src/main/java/org/apache/mesos/hbase/scheduler/HBaseScheduler.java:78-242 | The log-only callbacks (disconnected, offerRescinded, slaveLost, executorLost, frameworkMessage, lines 78-81, 112-129, 240-242) change nothing; only arming the timer and launching raise; the process exits only on a re-register error; only status updates and the timer move the phase; an offer batch never changes the state |
| Scheduler.PhaseConsistencyPreserved | hbase-scheduler/src/main/java/org/apache/mesos/hbase/scheduler/HBaseScheduler.java:165-198 | Every event keeps the phase consistent with the running master count, unless it is still reconciling |
| Scheduler.OnlyTimerEndsReconciliation | hbase-scheduler/src/main/java/org/apache/mesos/hbase/scheduler/HBaseScheduler.java:182-184 | Only the reconcile timer leaves RECONCILING_TASKS |
| Scheduler.StoreNeverGrows | hbase-scheduler/src/main/java/org/apache/mesos/hbase/scheduler/HBaseScheduler.java:324-325 | No event adds a stored node, so no colocation is ever introduced and the master count never grows |

## Left out

- Driver creation, registration and credentials (`run`, `registerFramework`, `getCredential`): these only wire up the native Mesos driver.
- The executor's command line, fetch URIs and environment (`createExecutor`, `getJvmOpts`, `getHeapSizeConfig`, `getExecutorResources`, `getCommand`), and `getHdfsFileUrl`, which fetches a JSON page over HTTP: these are string building and I/O. `Mesos.TaskInfo` omits these fields.
- Placement.RoleLaunchRaises: the exact ConfigurationException from getTaskCpus holds only when the executor is built first without failing. `createExecutor` runs at HBaseScheduler.java:306, before getTaskResources at 309; it can throw on its own, since `getFrameworkHostAddress` may raise a ConfigurationException (HBaseFrameworkConfig.java:265) and `getHdfsFileUrl` may return null (HBaseScheduler.java:666) which `setValue` at line 396 rejects. The model assumes executor construction succeeds; a launch raises in every case either way.
- `masterInfo` is not kept, since only `getHdfsFileUrl` reads it.
- The `java.util.Timer` thread: its firing is the explicit `ReconcileTimerFired` event, and arming it is the `ScheduleReconcileTimer` action.
- Logging, and `System.exit` (an `Exit(9)` action). The callbacks that only log (`disconnected`, `offerRescinded`, `slaveLost`, `executorLost`, `frameworkMessage`) are transitions that change nothing.
- Hadoop `Configuration` lookup and parsing, `InetAddress` host resolution, system-property reads and `HBaseConstants.isDevelopmentMode`: these are environment wrappers. Configuration keys are given already parsed.
- The getters `getMasterNodeCpus` and `getMasterNodeHeapSize` are not part of this model. Their values are plain fields of the configuration record and have no default.
- Store failures (`PersistenceException`), including the fatal one in `registered`: the store is an abstract value that cannot fail.
- `getFrameworkId`, `getPrimaryNodes`/`getRegionNodes` as maps, and the store's own dead-node bookkeeping: the dead-host lists are inputs held in the store value.
- IEEE double rounding in the admission check: quantities are Dafny reals.
- The current time is a parameter (`nowMillis`), not a clock read.
- Scheduler.ReloadConfigs: the messages form a set, because the source iterates a hash map whose order is unspecified. Two running tasks that would get identical messages are merged into one.
