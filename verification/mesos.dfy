/** The slice of the Mesos scheduler protocol the scheduler reads and writes: offers,
    status updates, task descriptions and the calls it makes on its driver. */
module Mesos {

  /** A named scalar in an offer or a task description, tagged with a role. */
  datatype Resource = Resource(name: string, value: real, role: string)

  datatype Offer = Offer(id: string, slaveId: string, hostname: string, resources: seq<Resource>)

  datatype TaskState =
    | TaskStaging | TaskStarting | TaskRunning
    | TaskFinished | TaskFailed | TaskKilled | TaskLost | TaskError

  datatype TaskStatus = TaskStatus(taskId: string, state: TaskState, slaveId: string)

  /** What a launch hands to the driver; the command, fetch URIs and environment are omitted. */
  datatype TaskInfo = TaskInfo(
    taskId: string,
    name: string,
    executorId: string,
    slaveId: string,
    resources: seq<Resource>)

  /** One `sendFrameworkMessage` call. */
  datatype FrameworkMessage = FrameworkMessage(executorId: string, slaveId: string, data: string)

  /** The calls the scheduler makes on the driver, and its own process exit. */
  datatype DriverAction =
    | DeclineOffer(offerId: string)
    | LaunchTasks(offerId: string, task: TaskInfo)
      /** Messages sent while iterating a hash map: their order is unspecified. */
    | SendFrameworkMessages(messages: set<FrameworkMessage>)
      /** `reconcileTasks` with an empty status list: ask for every known task. */
    | ReconcileTasks
    | ScheduleReconcileTimer(delayMillis: int)
    | Exit(code: int)
  {
    /** True when this action answers the offer with the given id. */
    predicate Answers(offerId: string) {
      (DeclineOffer? && this.offerId == offerId) || (LaunchTasks? && this.offerId == offerId)
    }
  }
}
