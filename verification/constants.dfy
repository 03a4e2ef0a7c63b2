/** Fixed names and counts shared by the scheduler and its executors. */
module Constants {

  /** Number of HBase master nodes the cluster is meant to run. */
  const TOTAL_MASTER_NODES: nat := 2

  /** Message broadcast to executors so that they re-fetch their configuration. */
  const RELOAD_CONFIG: string := "reload config"

  const MASTER_NODE_ID: string := "masternode"
  const SLAVE_NODE_ID: string := "slavenode"

  /** The piece every master task id contains: `task.masternode.masternode.…`. */
  const MASTER_NODE_TASKID: string := ".masternode.masternode."

  /** Name of the executor class launched for both roles. */
  const NODE_EXECUTOR_ID: string := "NodeExecutor"

  /** The two roles the scheduler places. */
  datatype Role = MasterNode | SlaveNode {

    /** The node id used as task type, node name and store role. */
    function Id(): (r: string)
      ensures r == MASTER_NODE_ID || r == SLAVE_NODE_ID
    {
      match this
      case MasterNode => MASTER_NODE_ID
      case SlaveNode => SLAVE_NODE_ID
    }
  }
}
