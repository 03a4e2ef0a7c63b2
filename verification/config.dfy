/** The framework configuration as an immutable record. Each optional field is
    one configuration key: `None` means the key is absent and the getter falls
    back to the default the configuration class declares. */
module Config {
  import opened Outcomes

  /** Java `int`. */
  type Int32 = x: int | -0x8000_0000 <= x < 0x8000_0000

  const DEFAULT_HADOOP_HEAP_SIZE: Int32 := 512
  const DEFAULT_EXECUTOR_HEAP_SIZE: Int32 := 256
  const DEFAULT_DATANODE_HEAP_SIZE: Int32 := 1024
  const DEFAULT_NAMENODE_HEAP_SIZE: Int32 := 4096

  const DEFAULT_CPUS: real := 0.5
  const DEFAULT_EXECUTOR_CPUS: real := DEFAULT_CPUS
  const DEFAULT_NAMENODE_CPUS: real := 1.0
  const DEFAULT_JOURNAL_CPUS: real := 1.0
  const DEFAULT_DATANODE_CPUS: real := 1.0

  const DEFAULT_JVM_OVERHEAD: real := 1.35
  const DEFAULT_RECONCILIATION_TIMEOUT: Int32 := 30

  datatype FrameworkConfig = FrameworkConfig(
    principal: Option<string>,             // mesos.hbase.principal
    secret: Option<string>,                // mesos.hbase.secret
    nativeHadoopBinaries: Option<bool>,    // mesos.hbase.native-hadoop-binaries
    hadoopHeapSize: Option<Int32>,         // mesos.hbase.hadoop.heap.size
    dataNodeHeapSize: Option<Int32>,       // mesos.hbase.datanode.heap.size
    nameNodeHeapSize: Option<Int32>,       // mesos.hbase.namenode.heap.size
    executorHeap: Option<Int32>,           // mesos.hbase.executor.heap.size
    jvmOverhead: Option<real>,             // mesos.hbase.jvm.overhead
    executorCpus: Option<real>,            // mesos.hbase.executor.cpus
    nameNodeCpus: Option<real>,            // mesos.hbase.namenode.cpus
    journalNodeCpus: Option<real>,         // mesos.hbase.journalnode.cpus
    dataNodeCpus: Option<real>,            // mesos.hbase.datanode.cpus
    reconciliationTimeout: Option<Int32>,  // mesos.reconciliation.timeout.seconds
    hbaseRole: Option<string>,             // mesos.hbase.role
    // The master sizing the scheduler asks for; its getters are not part of
    // this model, so these carry the effective values directly.
    masterNodeCpus: real,
    masterNodeHeapSize: Int32)

  /** A configuration in which no key is set. */
  function NoKeys(masterNodeCpus: real, masterNodeHeapSize: Int32): FrameworkConfig {
    FrameworkConfig(None, None, None, None, None, None, None, None, None, None, None, None, None, None,
                    masterNodeCpus, masterNodeHeapSize)
  }

  function Principal(c: FrameworkConfig): string { c.principal.GetOr("") }
  function Secret(c: FrameworkConfig): string { c.secret.GetOr("") }
  function UsingNativeHadoopBinaries(c: FrameworkConfig): bool { c.nativeHadoopBinaries.GetOr(false) }
  function HadoopHeapSize(c: FrameworkConfig): Int32 { c.hadoopHeapSize.GetOr(DEFAULT_HADOOP_HEAP_SIZE) }
  function DataNodeHeapSize(c: FrameworkConfig): Int32 { c.dataNodeHeapSize.GetOr(DEFAULT_DATANODE_HEAP_SIZE) }
  function NameNodeHeapSize(c: FrameworkConfig): Int32 { c.nameNodeHeapSize.GetOr(DEFAULT_NAMENODE_HEAP_SIZE) }
  function ExecutorHeap(c: FrameworkConfig): Int32 { c.executorHeap.GetOr(DEFAULT_EXECUTOR_HEAP_SIZE) }
  function JvmOverhead(c: FrameworkConfig): real { c.jvmOverhead.GetOr(DEFAULT_JVM_OVERHEAD) }
  function ExecutorCpus(c: FrameworkConfig): real { c.executorCpus.GetOr(DEFAULT_EXECUTOR_CPUS) }
  function NameNodeCpus(c: FrameworkConfig): real { c.nameNodeCpus.GetOr(DEFAULT_NAMENODE_CPUS) }
  function JournalNodeCpus(c: FrameworkConfig): real { c.journalNodeCpus.GetOr(DEFAULT_JOURNAL_CPUS) }
  function DataNodeCpus(c: FrameworkConfig): real { c.dataNodeCpus.GetOr(DEFAULT_DATANODE_CPUS) }
  function HbaseRole(c: FrameworkConfig): string { c.hbaseRole.GetOr("*") }
  function ReconciliationTimeout(c: FrameworkConfig): Int32 {
    c.reconciliationTimeout.GetOr(DEFAULT_RECONCILIATION_TIMEOUT)
  }

  /** The journal node has no heap key of its own: it shares the hadoop heap. */
  function JournalNodeHeapSize(c: FrameworkConfig): (r: Int32)
    ensures c.hadoopHeapSize.Some? ==> r == c.hadoopHeapSize.value
    ensures c.hadoopHeapSize.None? ==> r == DEFAULT_HADOOP_HEAP_SIZE
  {
    HadoopHeapSize(c)
  }

  /** Credentials are used only when both the principal and the secret are non-empty. */
  function CramCredentialsEnabled(c: FrameworkConfig): (r: bool)
    ensures r <==> c.principal.Some? && c.secret.Some? && c.principal.value != "" && c.secret.value != ""
  {
    Principal(c) != "" && Secret(c) != ""
  }

  /** Heap size by task name; only the three hadoop node names are known. */
  function TaskHeapSize(c: FrameworkConfig, taskName: string): (r: Result<Int32, Fault>)
    ensures r.Ok? <==> taskName in {"namenode", "datanode", "journalnode"}
    ensures taskName == "namenode" ==> r == Ok(NameNodeHeapSize(c))
    ensures taskName == "datanode" ==> r == Ok(DataNodeHeapSize(c))
    ensures taskName == "journalnode" ==> r == Ok(HadoopHeapSize(c))
    ensures r.Err? ==> r.error.ConfigurationException?
  {
    match taskName
    case "namenode" => Ok(NameNodeHeapSize(c))
    case "datanode" => Ok(DataNodeHeapSize(c))
    case "journalnode" => Ok(JournalNodeHeapSize(c))
    case _ => Err(ConfigurationException("Invalid request for heapsize for taskName = " + taskName))
  }

  /** Cpu demand by task name; only the three hadoop node names are known. */
  function TaskCpus(c: FrameworkConfig, taskName: string): (r: Result<real, Fault>)
    ensures r.Ok? <==> taskName in {"namenode", "datanode", "journalnode"}
    ensures taskName == "namenode" ==> r == Ok(NameNodeCpus(c))
    ensures taskName == "datanode" ==> r == Ok(DataNodeCpus(c))
    ensures taskName == "journalnode" ==> r == Ok(JournalNodeCpus(c))
    ensures r.Err? ==> r.error.ConfigurationException?
  {
    match taskName
    case "namenode" => Ok(NameNodeCpus(c))
    case "datanode" => Ok(DataNodeCpus(c))
    case "journalnode" => Ok(JournalNodeCpus(c))
    case _ => Err(ConfigurationException("Invalid request for CPUs for taskName= " + taskName))
  }

  /** The sizing getters reject the scheduler's own role names. */
  lemma RoleNamesHaveNoSizing(c: FrameworkConfig, taskName: string)
    requires taskName == "masternode" || taskName == "slavenode"
    ensures TaskCpus(c, taskName).Err? && TaskHeapSize(c, taskName).Err?
  {
  }

  /** With no key set, every getter returns the declared default. */
  lemma DefaultsWhenKeysAbsent(masterNodeCpus: real, masterNodeHeapSize: Int32)
    ensures var c := NoKeys(masterNodeCpus, masterNodeHeapSize);
      && HadoopHeapSize(c) == 512
      && JournalNodeHeapSize(c) == 512
      && DataNodeHeapSize(c) == 1024
      && NameNodeHeapSize(c) == 4096
      && ExecutorHeap(c) == 256
      && ExecutorCpus(c) == 0.5
      && NameNodeCpus(c) == 1.0 && DataNodeCpus(c) == 1.0 && JournalNodeCpus(c) == 1.0
      && JvmOverhead(c) == 1.35
      && ReconciliationTimeout(c) == 30
      && HbaseRole(c) == "*"
      && !UsingNativeHadoopBinaries(c)
      && !CramCredentialsEnabled(c)
  {
  }
}
