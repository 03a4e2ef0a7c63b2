/** The durable store, as an abstract value. Its implementation is not part of
    this model; the queries the scheduler makes are given definitions here, and
    each definition is an assumption about that implementation:
    - a node record holds a task id (possibly null), a host, a task type and a task name;
    - `removeTaskId(id)` drops the records carrying that id;
    - the primary nodes are the records of type `masternode`, their task names those records' names;
    - a type "runs on" a host when some record of that type names the host;
    - the dead-host lists are supplied by the store itself and are left unchanged
      by the modelled operations. */
module Store {
  import opened Outcomes
  import opened Constants

  datatype NodeRecord = NodeRecord(taskId: Option<string>, host: string, taskType: string, taskName: string)

  datatype PersistentState = PersistentState(
    frameworkId: Option<string>,
    nodes: set<NodeRecord>,
    deadMasterHosts: seq<string>,
    deadSlaveHosts: seq<string>)

  /** `getAllTaskIds`: may contain null (`None`). */
  function AllTaskIds(s: PersistentState): set<Option<string>> {
    set r | r in s.nodes :: r.taskId
  }

  /** `removeTaskId`: the records with that id go, every other record stays. */
  function RemoveTaskId(s: PersistentState, id: string): (r: PersistentState)
    ensures forall x :: x in r.nodes <==> x in s.nodes && x.taskId != Some(id)
    ensures Some(id) !in AllTaskIds(r)
    ensures r.frameworkId == s.frameworkId
    ensures r.deadMasterHosts == s.deadMasterHosts && r.deadSlaveHosts == s.deadSlaveHosts
  {
    s.(nodes := set x | x in s.nodes && x.taskId != Some(id))
  }

  /** `addHBaseNode`. */
  function AddNode(s: PersistentState, id: string, host: string, taskType: string, taskName: string): (r: PersistentState)
    ensures NodeRecord(Some(id), host, taskType, taskName) in r.nodes
    ensures s.nodes <= r.nodes && |r.nodes - s.nodes| <= 1
    ensures r.frameworkId == s.frameworkId
    ensures r.deadMasterHosts == s.deadMasterHosts && r.deadSlaveHosts == s.deadSlaveHosts
  {
    s.(nodes := s.nodes + {NodeRecord(Some(id), host, taskType, taskName)})
  }

  function RecordsOf(s: PersistentState, taskType: string): set<NodeRecord> {
    set r | r in s.nodes && r.taskType == taskType
  }

  /** `getPrimaryNodes().size()`. */
  function PrimaryNodeCount(s: PersistentState): nat {
    |RecordsOf(s, MASTER_NODE_ID)|
  }

  /** `getPrimaryNodeTaskNames().values()`. */
  function PrimaryNodeTaskNames(s: PersistentState): set<string> {
    set r | r in RecordsOf(s, MASTER_NODE_ID) :: r.taskName
  }

  /** `masterNodeRunningOnSlave` / `slaveNodeRunningOnSlave`. */
  predicate RunningOn(s: PersistentState, taskType: string, host: string) {
    exists r :: r in s.nodes && r.taskType == taskType && r.host == host
  }

  /** `getDeadMasterNodes` / `getDeadDataNodes`. */
  function DeadHosts(s: PersistentState, role: Role): seq<string> {
    match role
    case MasterNode => s.deadMasterHosts
    case SlaveNode => s.deadSlaveHosts
  }

  /** No host carries both a master record and a slave record. */
  predicate NoColocation(s: PersistentState) {
    forall a, b :: a in s.nodes && b in s.nodes && a.host == b.host && a.taskType == MASTER_NODE_ID
      ==> b.taskType != SLAVE_NODE_ID
  }

  /** Adding a record under a new task id adds one to its type's count. */
  lemma AddNodeCount(s: PersistentState, id: string, host: string, taskType: string, taskName: string)
    requires Some(id) !in AllTaskIds(s)
    ensures |RecordsOf(AddNode(s, id, host, taskType, taskName), taskType)| == |RecordsOf(s, taskType)| + 1
  {
    var x := NodeRecord(Some(id), host, taskType, taskName);
    assert x !in s.nodes;
    assert RecordsOf(AddNode(s, id, host, taskType, taskName), taskType) == RecordsOf(s, taskType) + {x};
  }
}
