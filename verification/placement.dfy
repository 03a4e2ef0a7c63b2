/** Per-offer decisions: which offers may host a master or a slave, how a
    launch names its task and executor, and what a launch records. */
module Placement {
  import opened Outcomes
  import opened Text
  import opened Constants
  import opened Config
  import opened Mesos
  import opened Store
  import opened State
  import opened Admission

  // ---- Identifiers -------------------------------------------------------

  /** `<nodeName>.<executorName>.<millis>`: the part shared by task id and executor id. */
  function TaskIdName(nodeName: string, executorName: string, nowMillis: nat): string {
    nodeName + "." + executorName + "." + DecimalString(nowMillis)
  }

  /** The executor id created at launch. */
  function ExecutorIdOf(taskIdName: string): string {
    "executor." + taskIdName
  }

  /** The task id created at launch. */
  function TaskIdOf(taskType: string, taskIdName: string): string {
    "task." + taskType + "." + taskIdName
  }

  /** The executor id `sendMessageTo` addresses for a task id: drop everything up
      to and including the second '.', then prefix "executor.". */
  function ExecutorIdForTask(taskId: string): (r: string)
    ensures |r| >= |"executor."| && r[..9] == "executor."
  {
    "executor." + AfterFirst(AfterFirst(taskId, '.'), '.')
  }

  /** `sendMessageTo`: the framework message a task is sent through its executor. */
  function SendMessageTo(taskId: string, slaveId: string, message: string): (m: FrameworkMessage)
    ensures m.slaveId == slaveId && m.data == message
    ensures m.executorId == ExecutorIdForTask(taskId)
    // the executor id is "executor." followed by a tail of the task id
    ensures |m.executorId| >= 9 && m.executorId[..9] == "executor."
    ensures |m.executorId| - 9 <= |taskId| && m.executorId[9..] == taskId[|taskId| - (|m.executorId| - 9)..]
    // indexOf of a missing '.' is -1, so a task id without one is kept whole
    ensures '.' !in taskId ==> m.executorId == "executor." + taskId
  {
    FrameworkMessage(ExecutorIdForTask(taskId), slaveId, message)
  }

  /** Messages reach the executor the launch created for the task, whatever the
      task id name, as long as the task type has no '.'. */
  lemma {:induction false} MessageTargetsLaunchedExecutor(taskType: string, taskIdName: string)
    requires '.' !in taskType
    ensures ExecutorIdForTask(TaskIdOf(taskType, taskIdName)) == ExecutorIdOf(taskIdName)
  {
    var rest := taskType + "." + taskIdName;
    assert TaskIdOf(taskType, taskIdName) == "task" + ['.'] + rest;
    assert '.' !in "task";
    AfterFirstOfJoin("task", '.', rest);
    assert rest == taskType + ['.'] + taskIdName;
    AfterFirstOfJoin(taskType, '.', taskIdName);
  }

  /** Both launch paths satisfy the round trip. */
  lemma LaunchIdsRoundTrip(role: Role, nowMillis: nat)
    ensures ExecutorIdForTask(TaskIdOf(role.Id(), TaskIdName(role.Id(), NODE_EXECUTOR_ID, nowMillis)))
         == ExecutorIdOf(TaskIdName(role.Id(), NODE_EXECUTOR_ID, nowMillis))
  {
    assert '.' !in role.Id();
    MessageTargetsLaunchedExecutor(role.Id(), TaskIdName(role.Id(), NODE_EXECUTOR_ID, nowMillis));
  }

  /** A launched master's task id is one the live state counts as a master. */
  lemma {:induction false} MasterTaskIdIsCounted(nowMillis: nat)
    ensures IsMasterTaskId(TaskIdOf(MASTER_NODE_ID, TaskIdName(MASTER_NODE_ID, NODE_EXECUTOR_ID, nowMillis)))
  {
    var id := TaskIdOf(MASTER_NODE_ID, TaskIdName(MASTER_NODE_ID, NODE_EXECUTOR_ID, nowMillis));
    assert id == "task" + MASTER_NODE_TASKID + NODE_EXECUTOR_ID + "." + DecimalString(nowMillis);
    assert id[4..4 + |MASTER_NODE_TASKID|] == MASTER_NODE_TASKID;
    ContainsAt(id, MASTER_NODE_TASKID, 4);
  }

  // ---- Task names --------------------------------------------------------

  /** Master slot `i` is called `masternode<i>`. */
  function SlotName(i: nat): string {
    MASTER_NODE_ID + DecimalString(i)
  }

  lemma SlotNames()
    ensures SlotName(1) == "masternode1" && SlotName(2) == "masternode2"
  {
  }

  /** The first slot from `i` to `TOTAL_MASTER_NODES` whose name is not taken. */
  function FirstFreeSlot(taken: set<string>, i: nat): (r: Result<string, Fault>)
    requires 1 <= i
    ensures r.Err? <==> forall j :: i <= j <= TOTAL_MASTER_NODES ==> SlotName(j) in taken
    ensures r.Err? ==> r.error.SchedulerException?
    ensures r.Ok? ==> exists k :: (i <= k <= TOTAL_MASTER_NODES && r.value == SlotName(k)
      && SlotName(k) !in taken && forall j :: i <= j < k ==> SlotName(j) in taken)
    decreases TOTAL_MASTER_NODES + 1 - i
  {
    if i > TOTAL_MASTER_NODES then
      Err(SchedulerException("Cluster is in inconsistent state. "
        + "Trying to launch more masternodes, but they are all already running."))
    else if SlotName(i) !in taken then Ok(SlotName(i))
    else FirstFreeSlot(taken, i + 1)
  }

  /** `getNextTaskName`: the lowest free master slot for a master, the type itself otherwise. */
  function NextTaskName(store: PersistentState, taskType: string): (r: Result<string, Fault>)
    ensures taskType != MASTER_NODE_ID ==> r == Ok(taskType)
    ensures taskType == MASTER_NODE_ID ==>
      (r.Err? <==> SlotName(1) in PrimaryNodeTaskNames(store) && SlotName(2) in PrimaryNodeTaskNames(store))
    ensures taskType == MASTER_NODE_ID && r.Ok? ==>
      r.value !in PrimaryNodeTaskNames(store)
      && (r.value == SlotName(1) || (r.value == SlotName(2) && SlotName(1) in PrimaryNodeTaskNames(store)))
  {
    if taskType == MASTER_NODE_ID then FirstFreeSlot(PrimaryNodeTaskNames(store), 1) else Ok(taskType)
  }

  /** No two stored master records share a task name unless they are the same record. */
  predicate MasterNamesDistinct(store: PersistentState) {
    forall a, b :: (a in RecordsOf(store, MASTER_NODE_ID) && b in RecordsOf(store, MASTER_NODE_ID)
      && a.taskName == b.taskName) ==> a == b
  }

  /** Recording a master under the name `getNextTaskName` picked never duplicates a slot. */
  lemma NextMasterNameKeepsSlotsDistinct(store: PersistentState, taskId: string, host: string)
    requires MasterNamesDistinct(store)
    requires NextTaskName(store, MASTER_NODE_ID).Ok?
    ensures MasterNamesDistinct(AddNode(store, taskId, host, MASTER_NODE_ID, NextTaskName(store, MASTER_NODE_ID).value))
  {
    var n := NextTaskName(store, MASTER_NODE_ID).value;
    var x := NodeRecord(Some(taskId), host, MASTER_NODE_ID, n);
    var s' := AddNode(store, taskId, host, MASTER_NODE_ID, n);
    assert RecordsOf(s', MASTER_NODE_ID) == RecordsOf(store, MASTER_NODE_ID) + {x};
    assert n !in PrimaryNodeTaskNames(store);
  }

  // ---- Launch ------------------------------------------------------------

  /** `getTaskResources`: cpus and mem reservations for the named task type. */
  function TaskResources(c: FrameworkConfig, taskType: string): (r: Result<seq<Resource>, Fault>)
    ensures r.Ok? <==> TaskCpus(c, taskType).Ok?
    ensures r.Err? ==> r == Err(TaskCpus(c, taskType).error)
    ensures r.Ok? ==> r.value == [Resource("cpus", TaskCpus(c, taskType).value, HbaseRole(c)),
                                  Resource("mem", TaskHeapSize(c, taskType).value as real * JvmOverhead(c), HbaseRole(c))]
  {
    match TaskCpus(c, taskType)
    case Err(e) => Err(e)
    case Ok(cpus) =>
      match TaskHeapSize(c, taskType)
      case Err(e) => Err(e)
      case Ok(heap) =>
        var v := [Resource("cpus", cpus, HbaseRole(c)), Resource("mem", heap as real * JvmOverhead(c), HbaseRole(c))];
        assert v[0] == Resource("cpus", TaskCpus(c, taskType).value, HbaseRole(c));
        assert v[1] == Resource("mem", TaskHeapSize(c, taskType).value as real * JvmOverhead(c), HbaseRole(c));
        Ok(v)
  }

  /** What a successful launch records: the task is staging and its node is stored. */
  function RecordLaunch(st: SchedulerState, taskId: string, host: string, taskType: string, taskName: string)
    : (r: SchedulerState)
    ensures r.staging == st.staging + {taskId}
    ensures NodeRecord(Some(taskId), host, taskType, taskName) in r.store.nodes
    ensures st.store.nodes <= r.store.nodes && |r.store.nodes - st.store.nodes| <= 1
    ensures r.phase == st.phase && r.running == st.running
  {
    st.(staging := st.staging + {taskId}, store := AddNode(st.store, taskId, host, taskType, taskName))
  }

  /** `launchNode`: builds the ids, asks the configuration for the task's
      resources, names the task, records it as staging and in the store, and
      hands the task to the driver. Any exception stops it before anything is recorded. */
  function LaunchNode(c: FrameworkConfig, st: SchedulerState, offer: Offer,
                      nodeName: string, taskType: string, executorName: string, nowMillis: nat)
    : (r: Result<(SchedulerState, TaskInfo), Fault>)
    ensures r.Err? <==> TaskCpus(c, taskType).Err? || NextTaskName(st.store, taskType).Err?
    ensures TaskCpus(c, taskType).Err? ==> r == Err(TaskCpus(c, taskType).error)
    ensures r.Ok? ==>
      var taskIdName := TaskIdName(nodeName, executorName, nowMillis);
      var (st', task) := r.value;
      && task.taskId == TaskIdOf(taskType, taskIdName)
      && task.executorId == ExecutorIdOf(taskIdName)
      && task.name == NextTaskName(st.store, taskType).value
      && task.slaveId == offer.slaveId
      && st' == RecordLaunch(st, task.taskId, offer.hostname, taskType, task.name)
  {
    var taskIdName := TaskIdName(nodeName, executorName, nowMillis);
    var executorId := ExecutorIdOf(taskIdName);
    match TaskResources(c, taskType)
    case Err(e) => Err(e)
    case Ok(taskResources) =>
      match NextTaskName(st.store, taskType)
      case Err(e) => Err(e)
      case Ok(taskName) =>
        var taskId := TaskIdOf(taskType, taskIdName);
        var task := TaskInfo(taskId, taskName, executorId, offer.slaveId, taskResources);
        Ok((RecordLaunch(st, taskId, offer.hostname, taskType, taskName), task))
  }

  /** The scheduler launches under its role names, which the sizing getters reject:
      every launch raises a configuration exception, before the task is named
      and before anything is recorded. */
  lemma RoleLaunchRaises(c: FrameworkConfig, st: SchedulerState, offer: Offer, role: Role, nowMillis: nat)
    ensures LaunchNode(c, st, offer, role.Id(), role.Id(), NODE_EXECUTOR_ID, nowMillis)
         == Err(ConfigurationException("Invalid request for CPUs for taskName= " + role.Id()))
  {
    RoleNamesHaveNoSizing(c, role.Id());
  }

  // ---- Placement ---------------------------------------------------------

  /** `tryToLaunchMasterNode` up to the launch: whether this offer should get a master. */
  function MasterPlacement(c: FrameworkConfig, store: PersistentState, offer: Offer): (launch: bool)
    ensures launch ==> AcceptOffer(c, offer, c.masterNodeCpus, c.masterNodeHeapSize)
    ensures AcceptOffer(c, offer, c.masterNodeCpus, c.masterNodeHeapSize) && |DeadHosts(store, MasterNode)| == 0 ==>
      (launch <==> PrimaryNodeCount(store) != TOTAL_MASTER_NODES
                   && !RunningOn(store, MASTER_NODE_ID, offer.hostname)
                   && !RunningOn(store, SLAVE_NODE_ID, offer.hostname))
    ensures AcceptOffer(c, offer, c.masterNodeCpus, c.masterNodeHeapSize) && |DeadHosts(store, MasterNode)| > 0 ==>
      (launch <==> offer.hostname in DeadHosts(store, MasterNode))
  {
    if !AcceptOffer(c, offer, c.masterNodeCpus, c.masterNodeHeapSize) then false
    else
      var dead := DeadHosts(store, MasterNode);
      if |dead| == 0 then
        if PrimaryNodeCount(store) == TOTAL_MASTER_NODES then false
        else if RunningOn(store, MASTER_NODE_ID, offer.hostname) then false
        else if RunningOn(store, SLAVE_NODE_ID, offer.hostname) then false
        else true
      else offer.hostname in dead
  }

  /** `tryToLaunchSlaveNode` up to the launch. Admission uses the MASTER cpu and heap settings. */
  function SlavePlacement(c: FrameworkConfig, store: PersistentState, offer: Offer): (launch: bool)
    ensures launch ==> AcceptOffer(c, offer, c.masterNodeCpus, c.masterNodeHeapSize)
    ensures AcceptOffer(c, offer, c.masterNodeCpus, c.masterNodeHeapSize) && |DeadHosts(store, SlaveNode)| == 0 ==>
      (launch <==> !RunningOn(store, SLAVE_NODE_ID, offer.hostname) && !RunningOn(store, MASTER_NODE_ID, offer.hostname))
    ensures AcceptOffer(c, offer, c.masterNodeCpus, c.masterNodeHeapSize) && |DeadHosts(store, SlaveNode)| > 0 ==>
      (launch <==> offer.hostname in DeadHosts(store, SlaveNode))
  {
    if !AcceptOffer(c, offer, c.masterNodeCpus, c.masterNodeHeapSize) then false
    else
      var dead := DeadHosts(store, SlaveNode);
      if |dead| == 0 then
        if RunningOn(store, SLAVE_NODE_ID, offer.hostname) || RunningOn(store, MASTER_NODE_ID, offer.hostname) then false
        else true
      else offer.hostname in dead
  }

  function PlacementAllows(c: FrameworkConfig, store: PersistentState, role: Role, offer: Offer): bool {
    match role
    case MasterNode => MasterPlacement(c, store, offer)
    case SlaveNode => SlavePlacement(c, store, offer)
  }

  /** A fresh placement (no dead hosts for the role) never puts two roles on one host. */
  lemma FreshPlacementKeepsNoColocation(c: FrameworkConfig, store: PersistentState, role: Role, offer: Offer,
                                        taskId: string, taskName: string)
    requires NoColocation(store)
    requires |DeadHosts(store, role)| == 0
    requires PlacementAllows(c, store, role, offer)
    ensures NoColocation(AddNode(store, taskId, offer.hostname, role.Id(), taskName))
  {
    var s' := AddNode(store, taskId, offer.hostname, role.Id(), taskName);
    var x := NodeRecord(Some(taskId), offer.hostname, role.Id(), taskName);
    assert s'.nodes == store.nodes + {x};
    forall a, b | a in s'.nodes && b in s'.nodes && a.host == b.host && a.taskType == MASTER_NODE_ID
      ensures b.taskType != SLAVE_NODE_ID
    {
      if a == x && b != x {
        assert RunningOn(store, b.taskType, offer.hostname);
      }
    }
  }

  /** A fresh master placement keeps the stored master count at or below the target. */
  lemma FreshMasterPlacementKeepsAtMostTwo(c: FrameworkConfig, store: PersistentState, offer: Offer,
                                           taskId: string, taskName: string)
    requires PrimaryNodeCount(store) <= TOTAL_MASTER_NODES
    requires Some(taskId) !in AllTaskIds(store)
    requires |DeadHosts(store, MasterNode)| == 0
    requires MasterPlacement(c, store, offer)
    ensures PrimaryNodeCount(AddNode(store, taskId, offer.hostname, MASTER_NODE_ID, taskName)) <= TOTAL_MASTER_NODES
  {
    AddNodeCount(store, taskId, offer.hostname, MASTER_NODE_ID, taskName);
  }

  /** A dead host of the role is relaunched on, whatever else the store records. */
  lemma DeadHostIsRelaunched(c: FrameworkConfig, store: PersistentState, role: Role, offer: Offer)
    requires AcceptOffer(c, offer, c.masterNodeCpus, c.masterNodeHeapSize)
    requires offer.hostname in DeadHosts(store, role)
    ensures PlacementAllows(c, store, role, offer)
  {
  }

  // ---- One offer ---------------------------------------------------------

  /** The outcome of evaluating one offer. */
  datatype Decision = Decline | Launch(state: SchedulerState, task: TaskInfo) | Raise(fault: Fault)

  /** `tryToLaunchMasterNode` / `tryToLaunchSlaveNode`. */
  function TryToLaunch(c: FrameworkConfig, st: SchedulerState, role: Role, offer: Offer, nowMillis: nat): (d: Decision)
    ensures !d.Launch?
    ensures d.Raise? <==> PlacementAllows(c, st.store, role, offer)
  {
    if !PlacementAllows(c, st.store, role, offer) then Decline
    else
      RoleLaunchRaises(c, st, offer, role, nowMillis);
      match LaunchNode(c, st, offer, role.Id(), role.Id(), NODE_EXECUTOR_ID, nowMillis)
      case Ok((st', task)) => Launch(st', task)
      case Err(f) => Raise(f)
  }
}
