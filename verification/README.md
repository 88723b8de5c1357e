# KVM VM-state sync, modelled in Dafny

This project models the decision logic of ZStack's `KvmVmSyncPingTask`, the
component that keeps the control plane's record of VM runtime states in line
with what KVM hosts report. It covers:

- the **sync call** (`syncVm`): a REST round trip to the KVM agent. Its outcome
  is an input here. A transport failure or a reply with `success == false` fails
  the completion. A successful reply is translated token by token. Only the
  entries that become `Running` or `Unknown` are handed to `reportVmState`.
- the **triggers** that start a sync: the ping task, the host-connect extension
  point and the connection-re-established extension point. They are one
  primitive (`RunSync`) parameterised by a completion policy. `Nope` ignores the
  completion. `AwaitAndRaise` waits and turns a failure into an exception.
- the **push handler** registered in `start`: an agent-initiated
  `ReportVmStateCmd`. It becomes exactly one `VmStateChangedOnHostMsg` for a VM
  the database knows, and nothing for one it does not.
- the **after-connect anomaly scan** (`afterHostConnected`). VMs recorded as
  `Unknown` on the host are sent to the host service in a check request. The
  states in a successful reply are reported without filtering.

Modules: `Wrappers` (Option/Result), `VmStates` (the state enumeration and both
translations), `VmSync`, `SyncTriggers`, `VmStatePush`, `AfterConnect`.

Inputs that stand in for I/O:

- The REST outcome (`RestOutcome`), the check reply and the pushed command are
  parameters.
- The database becomes a map from VM uuid to recorded state (push handler) or
  a sequence of VM rows (scan).
- Messages sent on the bus and calls of `reportVmState` are returned values.
- The `VM_SYNC_ON_HOST_PING` setting is a boolean parameter.
- `KvmVmState.valueOf(token).toVmInstanceState()` is a parameter
  `KvmStateTable`, a map from recognised agent tokens to VM states. The
  `KvmVmState` enum is not part of this model. A token missing from the map is
  one for which `valueOf` throws.
- `VmInstanceState` is not part of this model either. It is a closed datatype
  with the constant names ZStack uses. Only `Running` and `Unknown` matter to
  the logic. `VmInstanceState.valueOf`, used by the scan, is `ValueOf`, a parser
  of those names.

Decisions where the code leaves the outcome open:

- **Unrecognised token in a sync reply.** Line 67 throws inside the REST
  callback. Nothing catches it, so neither `reportVmState` nor the completion is
  called. The model makes this a failure of the whole call
  (`UnrecognizedKvmStates`), with no report. The connect trigger raises it like
  any other sync failure, so a connect cannot succeed on a reply it could not
  read. There is no per-VM isolation: one bad token drops the whole reply,
  as in the code.
- **Unrecognised name in a check reply.** The same applies to line 185
  (`StatesUnparseable`): nothing is reported.
- **Which token threw.** The code visits the reply in `HashMap` order, so the
  token that throws first is unspecified. `SyncVm` names the whole set of bad
  tokens. The loop version, `CollectSyncStates`, names one of them.

## Model

| member | source | states |
|---|---|---|
| VmSync.FilterForSync | plugin/kvm/src/main/java/org/zstack/kvm/KvmVmSyncPingTask.java:65-71 | every kept state is Running or Unknown; the kept keys are a subset of the reply's; a reply entry is kept exactly when its token translates to Running or Unknown, and then with exactly that translated state |
| VmSync.CollectSyncStates | plugin/kvm/src/main/java/org/zstack/kvm/KvmVmSyncPingTask.java:65-71 | the translate-and-keep loop, visiting entries in any order, completes exactly when every token is recognised, and then builds the same map as the filter; otherwise it stops on one of the unrecognised tokens |
| VmSync.UnrecognizedTokens | plugin/kvm/src/main/java/org/zstack/kvm/KvmVmSyncPingTask.java:67 | the set holds exactly the reply tokens for which `KvmVmState.valueOf` has no constant |
| VmSync.SyncVm | plugin/kvm/src/main/java/org/zstack/kvm/KvmVmSyncPingTask.java:56-80 | a transport failure fails with that error; a reply with `success == false` fails with an error naming the host uuid, its management IP and the agent's reason; a state report is produced exactly for a successful reply whose tokens are all recognised; that report is for this host, and holds only Running/Unknown entries drawn from the reply, each with its translated state |
| VmSync.FailedSyncReportsNothing | plugin/kvm/src/main/java/org/zstack/kvm/KvmVmSyncPingTask.java:57-59 | a transport failure, or a reply that is not a success, completes with a failure and reports no VM states |
| VmSync.SyncVmByLoop | plugin/kvm/src/main/java/org/zstack/kvm/KvmVmSyncPingTask.java:62-80 | running the callback with the sequential loop gives the same report as the functional model and fails in the same cases; a transport failure or a refusal is the same error, and for unrecognised tokens the loop names exactly one of the tokens the functional model names |
| VmSync.ReportsOf | plugin/kvm/src/main/java/org/zstack/kvm/KvmVmSyncPingTask.java:73-74 | a sync stands for one `reportVmState` call when it succeeded, passing this sync's report (the host uuid and the filtered map), and none when it failed |
| SyncTriggers.RunSync | plugin/kvm/src/main/java/org/zstack/kvm/KvmVmSyncPingTask.java:97-118 | one sync is issued; its reports are passed through; a failure is raised exactly under the await policy when the sync failed, and then it is that sync's error and nothing was reported |
| SyncTriggers.ExecuteTaskAlongWithPingTask | plugin/kvm/src/main/java/org/zstack/kvm/KvmVmSyncPingTask.java:91-98 | with the ping setting off the trigger has no effect at all; with it on, one sync is issued and its reports are handed on; it never raises a failure |
| SyncTriggers.KvmHostConnected | plugin/kvm/src/main/java/org/zstack/kvm/KvmVmSyncPingTask.java:106-113 | one sync is issued and its reports are handed on; the connect raises exactly when the sync completed with an error, and raises that error |
| SyncTriggers.ConnectionReestablished | plugin/kvm/src/main/java/org/zstack/kvm/KvmVmSyncPingTask.java:116-118 | one sync is issued and its reports are handed on; its outcome never surfaces as a failure |
| SyncTriggers.PingDisabledIsNoop | plugin/kvm/src/main/java/org/zstack/kvm/KvmVmSyncPingTask.java:92-94 | with the ping setting off, whatever the host would answer, no sync is issued and nothing is reported |
| SyncTriggers.FailedConnectReportsNothing | plugin/kvm/src/main/java/org/zstack/kvm/KvmVmSyncPingTask.java:107-112 | a connect that fails leaves no VM state reported |
| SyncTriggers.TriggersReportAlike | plugin/kvm/src/main/java/org/zstack/kvm/KvmVmSyncPingTask.java:91-118 | for the same host answer an enabled ping has exactly the effect of a re-establish, and connect reports the same states as both; the triggers differ only in gating and raising |
| VmStates.ValueOf | plugin/kvm/src/main/java/org/zstack/kvm/KvmVmSyncPingTask.java:185 | a parsed name is the name of the constant returned; a name that fails to parse belongs to no constant |
| VmStates.ValueOfName | plugin/kvm/src/main/java/org/zstack/kvm/KvmVmSyncPingTask.java:185 | parsing a constant's own name gives that constant back |
| VmStatePush.HandleReportVmState | plugin/kvm/src/main/java/org/zstack/kvm/KvmVmSyncPingTask.java:129-150 | as written: an unrecognised token fails the push whether or not the VM is known, since translation comes first; otherwise a VM without a database record gets no message and a warning whose VM slot holds the host uuid; a known VM gets exactly one message carrying its database state as the state at the tracing moment, the translated token as the state on host, and the command's VM and host uuids |
| VmStatePush.SentByPushes | plugin/kvm/src/main/java/org/zstack/kvm/KvmVmSyncPingTask.java:129-150 | over a series of pushes (handled as intended) at most one message is sent per push, and each message is for a VM in the database and carries its recorded state |
| VmStatePush.OrphanPushesSendNothing | plugin/kvm/src/main/java/org/zstack/kvm/KvmVmSyncPingTask.java:135-140 | pushes for VMs with no database record send no message, however many and however often repeated |
| VmStatePush.PushesSendOnePerDeliverable | plugin/kvm/src/main/java/org/zstack/kvm/KvmVmSyncPingTask.java:130-148 | the messages sent by a series of pushes number exactly the pushes with a recognised token for a recorded VM |
| VmStatePush.PushAndSyncTranslateAlike | plugin/kvm/src/main/java/org/zstack/kvm/KvmVmSyncPingTask.java:67-69 | the push path (line 130) and the sync path translate alike: for a known VM whose token is the one a successful sync received, the pushed state on host is the state the sync reports, and the sync drops the VM exactly when that state is neither Running nor Unknown |
| VmStatePush.AnonymousVmWarningAsWrittenLosesVm | plugin/kvm/src/main/java/org/zstack/kvm/KvmVmSyncPingTask.java:136-140 | for every orphan push with a recognised token whose VM and host uuids differ, the handler as written logs a warning that does not name the VM |
| VmStatePush.HandleReportVmStateIntended | plugin/kvm/src/main/java/org/zstack/kvm/KvmVmSyncPingTask.java:129-150 | the handler as evidently intended: the same failures and messages as written, and every orphan push warns naming the orphan VM, the reporting host and the translated state |
| VmStatePush.IntendedHandlerDiffersOnlyInWarningVm | plugin/kvm/src/main/java/org/zstack/kvm/KvmVmSyncPingTask.java:136-140 | for every push, the corrected handler fails exactly when the written one does, sends the same messages, and logs a warning exactly when it does, differing at most in the VM uuid |
| AfterConnect.UnknownVmsOnHost | plugin/kvm/src/main/java/org/zstack/kvm/KvmVmSyncPingTask.java:162-166 | a uuid is listed exactly when some row has that uuid, state Unknown and this host |
| AfterConnect.ParseStates | plugin/kvm/src/main/java/org/zstack/kvm/KvmVmSyncPingTask.java:183-186 | every reply entry is kept, under the constant that `VmInstanceState.valueOf` gives for the name in the reply; the parse fails, naming exactly the bad names, when some name is no constant |
| AfterConnect.UnparseableNames | plugin/kvm/src/main/java/org/zstack/kvm/KvmVmSyncPingTask.java:185 | the set holds exactly the reply names for which `VmInstanceState.valueOf` has no constant, that is, where line 185 throws |
| AfterConnect.AfterHostConnected | plugin/kvm/src/main/java/org/zstack/kvm/KvmVmSyncPingTask.java:161-192 | no check request is sent exactly when no VM is Unknown on the host; the request lists exactly those VMs for this host; a failed reply reports nothing; a successful reply with parseable names reports, for this host, every returned entry with the state it names, unfiltered |
| AfterConnect.ScanRequestsOnlyUnknownVmsOfHost | plugin/kvm/src/main/java/org/zstack/kvm/KvmVmSyncPingTask.java:162-171 | every VM in the check request is recorded as Unknown on the host being scanned |
| AfterConnect.FailedCheckReportsNothing | plugin/kvm/src/main/java/org/zstack/kvm/KvmVmSyncPingTask.java:175-180 | a check reply that is not a success leads to no state report |
| AfterConnect.ScanReports | plugin/kvm/src/main/java/org/zstack/kvm/KvmVmSyncPingTask.java:188 | a scan makes one `reportVmState` call, passing its report (the host uuid and the parsed map), exactly when the check succeeded and its names all parsed, and none otherwise |
| AfterConnect.ScanKeepsUntrackedStates | plugin/kvm/src/main/java/org/zstack/kvm/KvmVmSyncPingTask.java:183-188 | a VM the hypervisor reports as Stopped is reported as Stopped, which the sync filter would have dropped |

## Left out

- The REST transport (`asyncJsonPost`, the URL built from `KVM_VM_SYNC_PATH`, the 300-second timeout, handler registration): network I/O. Only the delivered outcome is modelled; a timeout is one kind of `RestFailed`.
- Database queries: they are input maps and row sequences. Row order of the Unknown-VM query is taken as given, since the query has no ordering.
- Message-bus routing and sending (`makeTargetServiceIdByResourceUuid`, `bus.send`): messages are returned values.
- `FutureCompletion.await` and concurrency between triggers: the model is sequential, and waiting means taking the result.
- `VmTracer.reportVmState` internals: a report is the `(hostUuid, states)` pair it receives.
- `getHypervisorType`, `getHypervisorTypeForReestablishExtensionPoint`, `start`/`stop` return values: constants with no decision in them.
- Logging, except the anonymous-VM warning, which is the subject of the finding below. The series of pushes (`SentByPushes`) uses the corrected handler; it sends the same messages as the written one. The warnings for a failed sync or a failed check are not modelled.
- The text of the operation error built from the agent's refusal: it is the structured `AgentRefused(hostUuid, managementIp, reason)`, not the formatted string.
- VmStates.ValueOf: accepts exactly the constant names the model's `VmInstanceState` declares. The enum's source is not part of this model, and ZStack versions differ in their constants (older ones lack `Expunging`, `Pausing`, `Paused`, `Resuming`). A reply name for a constant another version lacks would be parsed here where that version throws.
- VmSync.SyncVm: the reply's state map is always present. A null `states` map makes line 65 throw in the callback; that case is not modelled.
- AfterConnect.AfterHostConnected: the check reply's state map is always present. A null `states` map makes line 184 throw in the callback; that case is not modelled.
- `APICreateDiskOfferingMsg`: a request DTO whose field checks are done by an annotation-driven validator outside this component.

## Findings

| source | as written | input that shows it | evidently intended | confidence | as-written member | corrected member |
|---|---|---|---|---|---|---|
| plugin/kvm/src/main/java/org/zstack/kvm/KvmVmSyncPingTask.java:138 | the anonymous-VM warning passes `cmd.hostUuid` as the VM's uuid | a push from host `host-1` about unknown VM `vm-1` logs `VM[uuid:host-1, ...]` | the warning names `cmd.vmUuid` | high; not executed | VmStatePush.HandleReportVmState (counterexample: VmStatePush.AnonymousVmWarningAsWrittenLosesVm) | VmStatePush.HandleReportVmStateIntended (agreement: VmStatePush.IntendedHandlerDiffersOnlyInWarningVm) |
