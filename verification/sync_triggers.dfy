/** The three triggers that start a VM sync (ping, connect, re-establish),
    written as one primitive parameterised by how the caller completes. */
module SyncTriggers {
  import opened Wrappers
  import opened VmStates
  import opened VmSync

  /** How a trigger consumes the sync's completion: `Nope` ignores it
      (`NopeCompletion`); `AwaitAndRaise` waits for it and turns a failure
      into an `OperationFailureException` (`FutureCompletion` + `await`). */
  datatype CompletionPolicy = Nope | AwaitAndRaise

  /** The observable effect of one trigger: whether a sync call was issued,
      the state reports handed to the tracer, and the failure raised to the
      trigger's caller, if any. */
  datatype TriggerEffect = TriggerEffect(syncIssued: bool, reports: seq<VmStateReport>, raised: Option<SyncError>)

  /** The effect of a trigger that issues no sync at all. */
  const NoEffect := TriggerEffect(false, [], None)

  /** Issue one sync and complete it under the given policy. */
  function RunSync(policy: CompletionPolicy, table: KvmStateTable, host: HostInventory, outcome: RestOutcome)
    : (e: TriggerEffect)
    ensures e.syncIssued
    ensures e.reports == ReportsOf(SyncVm(table, host, outcome))
    ensures e.raised.Some? <==> policy == AwaitAndRaise && SyncVm(table, host, outcome).SyncFailed?
    ensures e.raised.Some? ==> e.reports == [] && SyncVm(table, host, outcome) == SyncFailed(e.raised.value)
  {
    var result := SyncVm(table, host, outcome);
    var raised := if policy == AwaitAndRaise && result.SyncFailed? then Some(result.error) else None;
    TriggerEffect(true, ReportsOf(result), raised)
  }

  /** `executeTaskAlongWithPingTask`: gated by the VM-sync-on-ping setting,
      fire and forget. */
  function ExecuteTaskAlongWithPingTask(syncOnPing: bool, table: KvmStateTable, host: HostInventory,
                                        outcome: RestOutcome): (e: TriggerEffect)
    ensures !syncOnPing ==> e == NoEffect
    ensures syncOnPing ==> e.syncIssued && e.reports == ReportsOf(SyncVm(table, host, outcome))
    ensures e.raised == None
  {
    if !syncOnPing then NoEffect else RunSync(Nope, table, host, outcome)
  }

  /** `kvmHostConnected`: wait for the sync and fail the connect with its error. */
  function KvmHostConnected(table: KvmStateTable, host: HostInventory, outcome: RestOutcome): (e: TriggerEffect)
    ensures e.syncIssued
    ensures e.reports == ReportsOf(SyncVm(table, host, outcome))
    ensures e.raised.Some? <==> SyncVm(table, host, outcome).SyncFailed?
    ensures e.raised.Some? ==> e.raised == Some(SyncVm(table, host, outcome).error)
  {
    RunSync(AwaitAndRaise, table, host, outcome)
  }

  /** `connectionReestablished`: fire and forget. */
  function ConnectionReestablished(table: KvmStateTable, host: HostInventory, outcome: RestOutcome): (e: TriggerEffect)
    ensures e.syncIssued
    ensures e.reports == ReportsOf(SyncVm(table, host, outcome))
    ensures e.raised == None
  {
    RunSync(Nope, table, host, outcome)
  }

  /** With the ping setting off, a ping issues no sync and reports nothing,
      whatever the host would have answered. */
  lemma PingDisabledIsNoop(table: KvmStateTable, host: HostInventory, outcome: RestOutcome)
    ensures !ExecuteTaskAlongWithPingTask(false, table, host, outcome).syncIssued
    ensures ExecuteTaskAlongWithPingTask(false, table, host, outcome).reports == []
  {
  }

  /** A connect that fails leaves no state reported. */
  lemma FailedConnectReportsNothing(table: KvmStateTable, host: HostInventory, outcome: RestOutcome)
    requires KvmHostConnected(table, host, outcome).raised.Some?
    ensures KvmHostConnected(table, host, outcome).reports == []
  {
  }

  /** The triggers differ only in gating and in raising: all three report the
      same states for the same host answer, and an enabled ping behaves exactly
      like a re-establish. */
  lemma TriggersReportAlike(table: KvmStateTable, host: HostInventory, outcome: RestOutcome)
    ensures ExecuteTaskAlongWithPingTask(true, table, host, outcome) == ConnectionReestablished(table, host, outcome)
    ensures KvmHostConnected(table, host, outcome).reports == ConnectionReestablished(table, host, outcome).reports
  {
  }
}
