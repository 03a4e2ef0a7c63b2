/** The scheduler's callbacks as transitions over an explicit state. Each
    returns the new state, the driver calls it made, and the exception it
    raised, if any. The reconcile timer firing is an event of its own,
    delivered through the same sequence as the driver's callbacks. */
module Scheduler {
  import opened Outcomes
  import opened Text
  import opened Constants
  import opened Config
  import opened Mesos
  import opened Store
  import opened State
  import opened Placement
  import opened Batch

  datatype Transition = Transition(state: SchedulerState, actions: seq<DriverAction>, fault: Option<Fault>)

  datatype Event =
    | Registered(frameworkId: string)
    | Reregistered
    | ResourceOffersEvent(offers: seq<Offer>)
    | StatusUpdate(status: TaskStatus)
    | Error(message: string)
    | ReconcileTimerFired
    | Disconnected
    | OfferRescinded(offerId: string)
    | SlaveLost(slaveId: string)
    | ExecutorLost(executorId: string, slaveId: string, exitStatus: int)
    | FrameworkMessageEvent(executorId: string, slaveId: string, data: string)

  // ---- Task states -------------------------------------------------------

  /** `isTerminalState`: every state except staging, starting and running ends the task. */
  function IsTerminalState(s: TaskState): (r: bool)
    ensures r <==> !(s.TaskStaging? || s.TaskStarting? || s.TaskRunning?)
  {
    s == TaskFailed || s == TaskFinished || s == TaskKilled || s == TaskLost || s == TaskError
  }

  /** `isRunningState`: only running, and never together with terminal. */
  function IsRunningState(s: TaskState): (r: bool)
    ensures r <==> s.TaskRunning?
    ensures r ==> !IsTerminalState(s)
  {
    s == TaskRunning
  }

  /** `isStagingState`: only staging; starting is neither staging, running nor terminal. */
  function IsStagingState(s: TaskState): (r: bool)
    ensures r ==> !IsTerminalState(s) && !IsRunningState(s)
    ensures !r && !IsTerminalState(s) && !IsRunningState(s) <==> s.TaskStarting?
  {
    s == TaskStaging
  }

  // ---- Phase -------------------------------------------------------------

  /** `correctCurrentPhase`. */
  function CorrectCurrentPhase(st: SchedulerState): (r: SchedulerState)
    ensures r.phase == CorrectPhase(MasterNodeSize(st.running))
    ensures PhaseConsistent(r)
    ensures r.staging == st.staging && r.running == st.running && r.store == st.store
  {
    st.(phase := CorrectPhase(MasterNodeSize(st.running)))
  }

  /** `reloadConfigsOnAllRunningTasks`: one reload message per running task, to the
      executor its task id names, on the slave its last status came from; none
      at all when the native hadoop binaries are used. */
  function ReloadConfigs(c: FrameworkConfig, running: map<string, string>): (msgs: set<FrameworkMessage>)
    ensures UsingNativeHadoopBinaries(c) ==> msgs == {}
    ensures !UsingNativeHadoopBinaries(c) ==>
      forall id :: id in running ==> FrameworkMessage(ExecutorIdForTask(id), running[id], RELOAD_CONFIG) in msgs
    ensures forall m :: m in msgs ==> (m.data == RELOAD_CONFIG
      && exists id :: id in running && m.executorId == ExecutorIdForTask(id) && m.slaveId == running[id])
  {
    if UsingNativeHadoopBinaries(c) then {}
    else set id | id in running :: SendMessageTo(id, running[id], RELOAD_CONFIG)
  }

  // ---- Status updates ----------------------------------------------------

  /** `statusUpdate`. */
  function OnStatusUpdate(c: FrameworkConfig, st: SchedulerState, status: TaskStatus): (r: Transition)
    ensures r.fault.None?
    // de-staging
    ensures IsStagingState(status.state) ==> r.state.staging == st.staging
    ensures !IsStagingState(status.state) ==> r.state.staging == st.staging - {status.taskId}
    // terminal: forget the task everywhere, and re-correct the phase unless reconciling
    ensures IsTerminalState(status.state) ==>
      && r.state.running == st.running - {status.taskId}
      && r.state.store == RemoveTaskId(st.store, status.taskId)
      && r.actions == []
      && (st.phase == ReconcilingTasks ==> r.state.phase == ReconcilingTasks)
      && (st.phase != ReconcilingTasks ==> r.state.phase == CorrectPhase(MasterNodeSize(r.state.running)))
    // running: record the task; broadcast a reload as the phase demands
    ensures IsRunningState(status.state) ==>
      && r.state.running == st.running[status.taskId := status.slaveId]
      && r.state.store == st.store
      && (st.phase == ReconcilingTasks ==> r.state.phase == ReconcilingTasks && r.actions == [])
      && (st.phase == SlaveNodes ==>
            r.state.phase == SlaveNodes && r.actions == [SendFrameworkMessages(ReloadConfigs(c, r.state.running))])
      && (st.phase == StartMasterNodes && MasterNodeSize(r.state.running) == TOTAL_MASTER_NODES ==>
            r.state.phase == SlaveNodes && r.actions == [SendFrameworkMessages(ReloadConfigs(c, r.state.running))])
      && (st.phase == StartMasterNodes && MasterNodeSize(r.state.running) != TOTAL_MASTER_NODES ==>
            r.state.phase == StartMasterNodes && r.actions == [])
    // any other state is only logged
    ensures !IsTerminalState(status.state) && !IsRunningState(status.state) ==>
      r.state == st.(staging := r.state.staging) && r.actions == []
  {
    var id := status.taskId;
    var st1 := if !IsStagingState(status.state) then st.(staging := st.staging - {id}) else st;
    if IsTerminalState(status.state) then
      var st2 := st1.(running := st1.running - {id}, store := RemoveTaskId(st1.store, id));
      var st3 := if st2.phase != ReconcilingTasks then CorrectCurrentPhase(st2) else st2;
      Transition(st3, [], None)
    else if IsRunningState(status.state) then
      var st2 := st1.(running := st1.running[id := status.slaveId]);
      match st2.phase
      case ReconcilingTasks => Transition(st2, [], None)
      case StartMasterNodes =>
        if MasterNodeSize(st2.running) == TOTAL_MASTER_NODES then
          Transition(CorrectCurrentPhase(st2), [SendFrameworkMessages(ReloadConfigs(c, st2.running))], None)
        else Transition(st2, [], None)
      case SlaveNodes => Transition(st2, [SendFrameworkMessages(ReloadConfigs(c, st2.running))], None)
    else Transition(st1, [], None)
  }

  // ---- Reconciliation ----------------------------------------------------

  /** The records whose task id the Mesos master no longer reports as running are
      dropped; records without a task id are kept. */
  function RemoveStaleTaskIds(store: PersistentState, running: map<string, string>): (r: PersistentState)
    ensures forall o :: o in AllTaskIds(r) && o.Some? ==> o.value in running
    ensures forall x :: x in store.nodes && (x.taskId.None? || x.taskId.value in running) ==> x in r.nodes
    ensures r.nodes <= store.nodes
    ensures r.frameworkId == store.frameworkId
    ensures r.deadMasterHosts == store.deadMasterHosts && r.deadSlaveHosts == store.deadSlaveHosts
  {
    store.(nodes := set x | x in store.nodes && (x.taskId.None? || x.taskId.value in running))
  }

  /** The timer body as the source writes it: walk the stored task ids one at a
      time and remove each non-null one that is not running. Whatever order the
      ids are visited in, the outcome is `RemoveStaleTaskIds`. */
  method RemoveStaleTaskIdsInTurn(store: PersistentState, running: map<string, string>) returns (r: PersistentState)
    ensures r == RemoveStaleTaskIds(store, running)
  {
    r := store;
    var pending := AllTaskIds(store);
    while pending != {}
      invariant pending <= AllTaskIds(store)
      invariant r.frameworkId == store.frameworkId
      invariant r.deadMasterHosts == store.deadMasterHosts && r.deadSlaveHosts == store.deadSlaveHosts
      invariant forall x :: x in r.nodes <==>
        x in store.nodes && (x.taskId in pending || x.taskId.None? || x.taskId.value in running)
      decreases pending
    {
      var taskId :| taskId in pending;
      if taskId.Some? && taskId.value !in running {
        r := RemoveTaskId(r, taskId.value);
      }
      pending := pending - {taskId};
    }
  }

  /** `ReconcileStateTask.run`: stale records go, then the phase is corrected. */
  function OnReconcileTimer(st: SchedulerState): (r: Transition)
    ensures forall o :: o in AllTaskIds(r.state.store) && o.Some? ==> o.value in r.state.running
    ensures r.state.phase == CorrectPhase(MasterNodeSize(st.running))
    ensures r.state.running == st.running && r.state.staging == st.staging
    ensures r.state.store == RemoveStaleTaskIds(st.store, st.running)
    ensures r.actions == [] && r.fault.None?
  {
    var st1 := st.(store := RemoveStaleTaskIds(st.store, st.running));
    Transition(CorrectCurrentPhase(st1), [], None)
  }

  /** Java `int` arithmetic: the result wraps into 32 bits. */
  function WrapInt32(x: int): (r: Int32)
    ensures (r - x) % 0x1_0000_0000 == 0
  {
    var m := x % 0x1_0000_0000;
    if m >= 0x8000_0000 then m - 0x1_0000_0000 else m
  }

  /** `reconcileTasks`: ask the Mesos master about every task and arm the one-shot timer.
      The delay is computed in `int` arithmetic; a negative delay makes the timer
      throw after the reconcile request has gone out. */
  function ReconcileTasks(c: FrameworkConfig, st: SchedulerState): (r: Transition)
    ensures r.state == st
    ensures |r.actions| >= 1 && r.actions[0] == DriverAction.ReconcileTasks
    ensures 0 <= ReconciliationTimeout(c) * 1000 < 0x8000_0000 ==>
      r.fault.None? && r.actions == [DriverAction.ReconcileTasks, ScheduleReconcileTimer(ReconciliationTimeout(c) * 1000)]
    ensures r.fault.Some? <==> WrapInt32(ReconciliationTimeout(c) * 1000) < 0
    ensures r.fault.None? ==>
      r.actions == [DriverAction.ReconcileTasks, ScheduleReconcileTimer(WrapInt32(ReconciliationTimeout(c) * 1000))]
    ensures r.fault.Some? ==> r.actions == [DriverAction.ReconcileTasks] && r.fault.value.IllegalArgumentException?
  {
    var delay := WrapInt32(ReconciliationTimeout(c) * 1000);
    if delay < 0 then Transition(st, [DriverAction.ReconcileTasks], Some(IllegalArgumentException("Negative delay.")))
    else Transition(st, [DriverAction.ReconcileTasks, ScheduleReconcileTimer(delay)], None)
  }

  /** Where the `int` product lands: timeouts up to 2147483 seconds arm the timer
      as written; from 2147484 to 4294967 seconds, and from -2147483 to -1, the
      delay is negative and the timer refuses it; 4294968 seconds wraps round to
      a 704 millisecond delay. */
  lemma TimeoutWrapWindows(c: FrameworkConfig, st: SchedulerState)
    ensures var t := ReconciliationTimeout(c);
      0 <= t <= 2147483 ==> ReconcileTasks(c, st).actions[1] == ScheduleReconcileTimer(t * 1000)
    ensures var t := ReconciliationTimeout(c);
      (2147484 <= t <= 4294967 || -2147483 <= t < 0) ==> ReconcileTasks(c, st).fault.Some?
    ensures ReconciliationTimeout(c) == 4294968 ==>
      ReconcileTasks(c, st).actions == [DriverAction.ReconcileTasks, ScheduleReconcileTimer(704)]
  {
  }

  // ---- Registration and errors -------------------------------------------

  /** `registered`: persist the framework id, then reconcile. The phase is left alone. */
  function OnRegistered(c: FrameworkConfig, st: SchedulerState, frameworkId: string): (r: Transition)
    ensures r.state.store.frameworkId == Some(frameworkId)
    ensures r.state == st.(store := st.store.(frameworkId := Some(frameworkId)))
    ensures |r.actions| >= 1 && r.actions[0] == DriverAction.ReconcileTasks
    // the reconciliation it starts is the one `reconcileTasks` performs: same requests, same timer, same exception
    ensures r.actions == ReconcileTasks(c, st).actions && r.fault == ReconcileTasks(c, st).fault
  {
    ReconcileTasks(c, st.(store := st.store.(frameworkId := Some(frameworkId))))
  }

  /** `error`: only a message asking to re-register drops the framework id and exits. */
  function OnError(st: SchedulerState, message: string): (r: Transition)
    ensures Contains(message, "re-register") ==>
      r.state == st.(store := st.store.(frameworkId := None)) && r.actions == [Exit(9)]
    ensures !Contains(message, "re-register") ==> r.state == st && r.actions == []
    ensures r.fault.None?
  {
    if Contains(message, "re-register") then
      Transition(st.(store := st.store.(frameworkId := None)), [Exit(9)], None)
    else Transition(st, [], None)
  }

  // ---- Dispatch ----------------------------------------------------------

  function Handle(c: FrameworkConfig, st: SchedulerState, ev: Event, nowMillis: nat): (r: Transition)
    // the callbacks that only log change nothing and ask nothing of the driver
    ensures ev.Disconnected? || ev.OfferRescinded? || ev.SlaveLost? || ev.ExecutorLost? || ev.FrameworkMessageEvent? ==>
      r == Transition(st, [], None)
    // exceptions come only from arming the timer and from launching
    ensures r.fault.Some? ==> ev.Registered? || ev.Reregistered? || ev.ResourceOffersEvent?
    // the process exits only on an error that asks to re-register
    ensures Exit(9) in r.actions <==> ev.Error? && Contains(ev.message, "re-register")
    // only status updates and the timer move the phase; only status updates change the live ledgers
    ensures r.state.phase != st.phase ==> ev.StatusUpdate? || ev.ReconcileTimerFired?
    ensures r.state.running != st.running || r.state.staging != st.staging ==> ev.StatusUpdate?
    // an offer batch never changes the state
    ensures ev.ResourceOffersEvent? ==> r.state == st
  {
    match ev
    case Registered(fid) => OnRegistered(c, st, fid)
    case Reregistered => ReconcileTasks(c, st)
    case ResourceOffersEvent(offers) =>
      var b := ResourceOffers(c, st, offers, nowMillis);
      Transition(b.state, b.actions, b.fault)
    case StatusUpdate(status) => OnStatusUpdate(c, st, status)
    case Error(message) => OnError(st, message)
    case ReconcileTimerFired => OnReconcileTimer(st)
    case _ => Transition(st, [], None)
  }

  /** Every event leaves the phase in agreement with the running master count
      (or still reconciling), whatever state it started from that was. */
  lemma PhaseConsistencyPreserved(c: FrameworkConfig, st: SchedulerState, ev: Event, nowMillis: nat)
    requires PhaseConsistent(st)
    ensures PhaseConsistent(Handle(c, st, ev, nowMillis).state)
  {
    if ev.StatusUpdate? && IsRunningState(ev.status.state) {
      MasterNodeSizeAdd(st.running, ev.status.taskId, ev.status.slaveId);
    }
  }

  /** Launches never succeed, so no event adds a stored node: the store only
      shrinks, and what it never had (two roles on a host, a third master) it
      never gains. */
  lemma StoreNeverGrows(c: FrameworkConfig, st: SchedulerState, ev: Event, nowMillis: nat)
    ensures Handle(c, st, ev, nowMillis).state.store.nodes <= st.store.nodes
    ensures NoColocation(st.store) ==> NoColocation(Handle(c, st, ev, nowMillis).state.store)
    ensures PrimaryNodeCount(Handle(c, st, ev, nowMillis).state.store) <= PrimaryNodeCount(st.store)
  {
    var after := Handle(c, st, ev, nowMillis).state.store;
    assert RecordsOf(after, MASTER_NODE_ID) <= RecordsOf(st.store, MASTER_NODE_ID);
    SubsetCardinality(RecordsOf(after, MASTER_NODE_ID), RecordsOf(st.store, MASTER_NODE_ID));
  }

  lemma SubsetCardinality<T>(a: set<T>, b: set<T>)
    requires a <= b
    ensures |a| <= |b|
  {
    assert b == a + (b - a);
  }

  /** No event other than the reconcile timer leaves the reconciliation phase. */
  lemma OnlyTimerEndsReconciliation(c: FrameworkConfig, st: SchedulerState, ev: Event, nowMillis: nat)
    requires st.phase == ReconcilingTasks
    requires !ev.ReconcileTimerFired?
    ensures Handle(c, st, ev, nowMillis).state.phase == ReconcilingTasks
  {
  }
}
