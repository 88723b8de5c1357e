/** The handler for unsolicited VM state reports pushed by a KVM agent
    (the `ReportVmStateCmd` HTTP handler registered in `start`). */
module VmStatePush {
  import opened Wrappers
  import opened VmStates
  import opened VmSync

  /** The agent's push: which host, which VM, and the agent's state token. */
  datatype ReportVmStateCmd = ReportVmStateCmd(hostUuid: string, vmUuid: string, vmState: string)

  /** The message sent to the VM service: the state recorded at the moment of
      the push alongside the state the host reports. */
  datatype VmStateChangedOnHostMsg = VmStateChangedOnHostMsg(
    vmInstanceUuid: string,
    hostUuid: string,
    stateOnHost: VmInstanceState,
    vmStateAtTracingMoment: VmInstanceState)

  /** The warning logged for a VM the database does not know. */
  datatype AnonymousVmWarning = AnonymousVmWarning(vmUuid: string, state: VmInstanceState, hostUuid: string)

  /** What one push does when its token translates: the messages sent (none
      or one) and the warning logged, if any. The HTTP answer is always null. */
  datatype PushEffect = PushEffect(sent: seq<VmStateChangedOnHostMsg>, warning: Option<AnonymousVmWarning>)

  /** The push handler fails when `KvmVmState.valueOf` throws on the token. */
  datatype PushError = UnrecognizedKvmState(token: string)

  /** The warning exactly as the handler formats it: the host uuid fills both
      the VM's and the host's place. */
  function AnonymousVmWarningAsWritten(cmd: ReportVmStateCmd, state: VmInstanceState): AnonymousVmWarning
  {
    AnonymousVmWarning(cmd.hostUuid, state, cmd.hostUuid)
  }

  /** Handle one push against the VM states recorded in the database (keyed
      by VM uuid), as the handler is written. The token is translated before
      the lookup, so an unknown token fails the push even for a VM the
      database does not have. */
  function HandleReportVmState(table: KvmStateTable, stateInDb: map<string, VmInstanceState>, cmd: ReportVmStateCmd)
    : (r: Result<PushEffect, PushError>)
    ensures r.Failure? <==> cmd.vmState !in table
    ensures r.Failure? ==> r.error == UnrecognizedKvmState(cmd.vmState)
    ensures r.Success? ==> (r.value.sent == [] <==> cmd.vmUuid !in stateInDb)
    ensures r.Success? ==> |r.value.sent| <= 1
    ensures r.Success? ==> (r.value.warning.Some? <==> cmd.vmUuid !in stateInDb)
    ensures r.Success? && r.value.warning.Some? ==>
              && r.value.warning.value.vmUuid == cmd.hostUuid
              && r.value.warning.value.hostUuid == cmd.hostUuid
              && r.value.warning.value.state == table[cmd.vmState]
    ensures r.Success? && r.value.sent != [] ==>
              var msg := r.value.sent[0];
              && msg.vmStateAtTracingMoment == stateInDb[cmd.vmUuid]
              && msg.stateOnHost == table[cmd.vmState]
              && msg.vmInstanceUuid == cmd.vmUuid
              && msg.hostUuid == cmd.hostUuid
  {
    match TranslateKvm(table, cmd.vmState)
    case None => Failure(UnrecognizedKvmState(cmd.vmState))
    case Some(state) =>
      if cmd.vmUuid !in stateInDb then
        Success(PushEffect([], Some(AnonymousVmWarningAsWritten(cmd, state))))
      else
        var msg := VmStateChangedOnHostMsg(cmd.vmUuid, cmd.hostUuid, state, stateInDb[cmd.vmUuid]);
        Success(PushEffect([msg], None))
  }

  /** As written, an orphan push whose VM and host uuids differ logs a
      warning that does not name the VM. */
  lemma AnonymousVmWarningAsWrittenLosesVm(table: KvmStateTable, stateInDb: map<string, VmInstanceState>,
                                           cmd: ReportVmStateCmd)
    requires cmd.vmState in table && cmd.vmUuid !in stateInDb
    requires cmd.vmUuid != cmd.hostUuid
    ensures HandleReportVmState(table, stateInDb, cmd).Success?
    ensures HandleReportVmState(table, stateInDb, cmd).value.warning.Some?
    ensures HandleReportVmState(table, stateInDb, cmd).value.warning.value.vmUuid != cmd.vmUuid
  {
  }

  /** The handler as evidently intended: every orphan push warns naming the
      orphan VM and the host that reported it; everything else is as written. */
  function HandleReportVmStateIntended(table: KvmStateTable, stateInDb: map<string, VmInstanceState>,
                                       cmd: ReportVmStateCmd)
    : (r: Result<PushEffect, PushError>)
    ensures r.Failure? <==> cmd.vmState !in table
    ensures r.Failure? ==> r.error == UnrecognizedKvmState(cmd.vmState)
    ensures r.Success? ==> (r.value.sent == [] <==> cmd.vmUuid !in stateInDb)
    ensures r.Success? ==> |r.value.sent| <= 1
    ensures r.Success? ==> (r.value.warning.Some? <==> cmd.vmUuid !in stateInDb)
    ensures r.Success? && r.value.warning.Some? ==>
              && r.value.warning.value.vmUuid == cmd.vmUuid
              && r.value.warning.value.hostUuid == cmd.hostUuid
              && r.value.warning.value.state == table[cmd.vmState]
    ensures r.Success? && r.value.sent != [] ==>
              var msg := r.value.sent[0];
              && msg.vmStateAtTracingMoment == stateInDb[cmd.vmUuid]
              && msg.stateOnHost == table[cmd.vmState]
              && msg.vmInstanceUuid == cmd.vmUuid
              && msg.hostUuid == cmd.hostUuid
  {
    match TranslateKvm(table, cmd.vmState)
    case None => Failure(UnrecognizedKvmState(cmd.vmState))
    case Some(state) =>
      if cmd.vmUuid !in stateInDb then
        Success(PushEffect([], Some(AnonymousVmWarning(cmd.vmUuid, state, cmd.hostUuid))))
      else
        var msg := VmStateChangedOnHostMsg(cmd.vmUuid, cmd.hostUuid, state, stateInDb[cmd.vmUuid]);
        Success(PushEffect([msg], None))
  }

  /** The correction touches nothing but the warning's VM slot: both handlers
      fail alike, send the same messages, and log warnings that differ at
      most in the VM uuid. */
  lemma IntendedHandlerDiffersOnlyInWarningVm(table: KvmStateTable, stateInDb: map<string, VmInstanceState>,
                                              cmd: ReportVmStateCmd)
    ensures var asWritten := HandleReportVmState(table, stateInDb, cmd);
            var intended := HandleReportVmStateIntended(table, stateInDb, cmd);
            && asWritten.Failure? == intended.Failure?
            && (asWritten.Failure? ==> asWritten == intended)
            && (asWritten.Success? ==>
                  && asWritten.value.sent == intended.value.sent
                  && asWritten.value.warning.Some? == intended.value.warning.Some?
                  && (asWritten.value.warning.Some? ==>
                        intended.value.warning.value
                        == asWritten.value.warning.value.(vmUuid := cmd.vmUuid)))
  {
  }

  /** The messages sent by a series of independent pushes against an
      unchanged database; a failed push sends nothing and does not stop the
      others. Every message comes from a push for a VM the database knows and
      carries that VM's recorded state. */
  function SentByPushes(table: KvmStateTable, stateInDb: map<string, VmInstanceState>, cmds: seq<ReportVmStateCmd>)
    : (sent: seq<VmStateChangedOnHostMsg>)
    ensures |sent| <= |cmds|
    ensures forall i :: 0 <= i < |sent| ==>
              sent[i].vmInstanceUuid in stateInDb
              && sent[i].vmStateAtTracingMoment == stateInDb[sent[i].vmInstanceUuid]
  {
    if cmds == [] then []
    else
      var first := match HandleReportVmStateIntended(table, stateInDb, cmds[0])
                   case Success(effect) => effect.sent
                   case Failure(_) => [];
      first + SentByPushes(table, stateInDb, cmds[1..])
  }

  /** Pushes for VMs with no database record send nothing, however often they
      are repeated. */
  lemma {:induction false} OrphanPushesSendNothing(table: KvmStateTable, stateInDb: map<string, VmInstanceState>,
                                                   cmds: seq<ReportVmStateCmd>)
    requires forall i :: 0 <= i < |cmds| ==> cmds[i].vmUuid !in stateInDb
    ensures SentByPushes(table, stateInDb, cmds) == []
  {
    if cmds != [] {
      OrphanPushesSendNothing(table, stateInDb, cmds[1..]);
    }
  }

  /** How many of the pushes carry a recognised token for a recorded VM. */
  function CountDeliverable(table: KvmStateTable, stateInDb: map<string, VmInstanceState>,
                            cmds: seq<ReportVmStateCmd>): nat
  {
    if cmds == [] then 0
    else (if cmds[0].vmState in table && cmds[0].vmUuid in stateInDb then 1 else 0)
         + CountDeliverable(table, stateInDb, cmds[1..])
  }

  /** Each push whose token translates and whose VM is recorded sends exactly
      one message; all other pushes send none. */
  lemma {:induction false} PushesSendOnePerDeliverable(table: KvmStateTable, stateInDb: map<string, VmInstanceState>,
                                                       cmds: seq<ReportVmStateCmd>)
    ensures |SentByPushes(table, stateInDb, cmds)| == CountDeliverable(table, stateInDb, cmds)
  {
    if cmds != [] {
      PushesSendOnePerDeliverable(table, stateInDb, cmds[1..]);
    }
  }

  /** The sync path and the push path translate a token the same way: a push
      carrying the token a successful sync received for the same known VM
      reports the state the sync reports, and the sync drops that VM exactly
      when the pushed state is neither Running nor Unknown. */
  lemma PushAndSyncTranslateAlike(table: KvmStateTable, stateInDb: map<string, VmInstanceState>,
                                  host: HostInventory, outcome: RestOutcome, cmd: ReportVmStateCmd)
    requires SyncVm(table, host, outcome).Synced?
    requires cmd.vmUuid in outcome.response.states && outcome.response.states[cmd.vmUuid] == cmd.vmState
    requires cmd.vmUuid in stateInDb
    ensures HandleReportVmState(table, stateInDb, cmd).Success?
    ensures var pushed := HandleReportVmState(table, stateInDb, cmd).value.sent[0].stateOnHost;
            var synced := SyncVm(table, host, outcome).report.states;
            && (cmd.vmUuid in synced <==> Tracked(pushed))
            && (cmd.vmUuid in synced ==> synced[cmd.vmUuid] == pushed)
  {
  }
}
