/** The scheduler's in-memory view (acquisition phase, staging and running
    tasks) together with the durable store it consults. The live-state class is
    not part of this model: its master count is taken to be the number of
    running tasks whose id contains `MASTER_NODE_TASKID`. */
module State {
  import opened Text
  import opened Constants
  import opened Store

  datatype AcquisitionPhase = ReconcilingTasks | StartMasterNodes | SlaveNodes

  datatype SchedulerState = SchedulerState(
    phase: AcquisitionPhase,
    staging: set<string>,
    /** Running tasks: task id to the slave id of its latest status. */
    running: map<string, string>,
    store: PersistentState)

  predicate IsMasterTaskId(taskId: string) {
    Contains(taskId, MASTER_NODE_TASKID)
  }

  /** `getMasterNodeSize`: running master tasks. */
  function MasterNodeSize(running: map<string, string>): nat {
    |set id | id in running && IsMasterTaskId(id)|
  }

  /** `correctCurrentPhase`: masters first until the target is reached, then slaves. */
  function CorrectPhase(masterNodeSize: nat): (p: AcquisitionPhase)
    ensures p == StartMasterNodes <==> masterNodeSize < TOTAL_MASTER_NODES
    ensures p == SlaveNodes <==> masterNodeSize >= TOTAL_MASTER_NODES
    ensures p != ReconcilingTasks
  {
    if masterNodeSize < TOTAL_MASTER_NODES then StartMasterNodes else SlaveNodes
  }

  /** The phase agrees with the running master count, unless reconciliation is still open. */
  predicate PhaseConsistent(st: SchedulerState) {
    st.phase == ReconcilingTasks || st.phase == CorrectPhase(MasterNodeSize(st.running))
  }

  /** Adding a running task changes the master count by at most one. */
  lemma MasterNodeSizeAdd(running: map<string, string>, id: string, slaveId: string)
    ensures MasterNodeSize(running) <= MasterNodeSize(running[id := slaveId]) <= MasterNodeSize(running) + 1
    ensures !IsMasterTaskId(id) ==> MasterNodeSize(running[id := slaveId]) == MasterNodeSize(running)
  {
    var before := set x | x in running && IsMasterTaskId(x);
    var after := set x | x in running[id := slaveId] && IsMasterTaskId(x);
    if IsMasterTaskId(id) {
      assert after == before + {id};
      if id in before {
        assert after == before;
      } else {
        assert |after| == |before| + 1;
      }
    } else {
      assert after == before;
    }
  }
}
