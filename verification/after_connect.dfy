/** The anomaly scan run after a host connects (`afterHostConnected`): VMs
    the database records as Unknown on that host are checked on the
    hypervisor, and the states it answers are reported as they are. */
module AfterConnect {
  import opened Wrappers
  import opened VmStates
  import opened VmSync

  /** The columns of a VM's database row the scan queries. */
  datatype VmInstanceRecord = VmInstanceRecord(uuid: string, state: VmInstanceState, hostUuid: string)

  /** The request sent to the host service. */
  datatype CheckVmStateOnHypervisorMsg = CheckVmStateOnHypervisorMsg(hostUuid: string, vmInstanceUuids: seq<string>)

  /** The host service's reply: success flag, error text, and state names
      (`VmInstanceState` constant names) keyed by VM uuid. */
  datatype CheckVmStateOnHypervisorReply = CheckVmStateOnHypervisorReply(
    success: bool, error: string, states: map<string, string>)

  /** How the scan ends. */
  datatype ScanOutcome =
    | NothingToCheck
    | CheckFailed(request: CheckVmStateOnHypervisorMsg, error: string)
      /** Some reply names are not `VmInstanceState` constants, so
          `VmInstanceState.valueOf` throws and nothing is reported. */
    | StatesUnparseable(request: CheckVmStateOnHypervisorMsg, names: set<string>)
    | Checked(request: CheckVmStateOnHypervisorMsg, report: VmStateReport)

  /** The query: uuids of the VMs recorded as Unknown on the host, in row order. */
  function UnknownVmsOnHost(hostUuid: string, vms: seq<VmInstanceRecord>): (uuids: seq<string>)
    ensures |uuids| <= |vms|
    ensures forall u :: u in uuids <==>
              exists i :: 0 <= i < |vms| && vms[i].uuid == u && vms[i].state == Unknown && vms[i].hostUuid == hostUuid
  {
    if vms == [] then []
    else
      var rest := UnknownVmsOnHost(hostUuid, vms[1..]);
      assert forall i :: 1 <= i < |vms| ==> vms[i] == vms[1..][i - 1];
      if vms[0].state == Unknown && vms[0].hostUuid == hostUuid then [vms[0].uuid] + rest else rest
  }

  /** The reply names that are no `VmInstanceState` constant. */
  function UnparseableNames(states: map<string, string>): (r: set<string>)
    ensures forall k :: k in states && ValueOf(states[k]).None? ==> states[k] in r
    ensures forall n :: n in r ==> n in states.Values && ValueOf(n).None?
  {
    set k | k in states && ValueOf(states[k]).None? :: states[k]
  }

  /** Parse every reply entry with `VmInstanceState.valueOf`, keeping all of
      them; fails with the offending names when any name is no constant. */
  function ParseStates(states: map<string, string>): (r: Result<map<string, VmInstanceState>, set<string>>)
    ensures r.Failure? <==> exists k :: k in states && ValueOf(states[k]).None?
    ensures r.Failure? ==> r.error == UnparseableNames(states)
    ensures r.Success? ==> r.value.Keys == states.Keys
    ensures r.Success? ==> forall k :: k in r.value ==> ValueOf(states[k]) == Some(r.value[k])
  {
    var bad := UnparseableNames(states);
    if bad != {} then Failure(bad)
    else Success(map k | k in states :: ValueOf(states[k]).value)
  }

  /** `afterHostConnected` given the VM rows and the reply the check request
      would receive (consulted only when the request is sent). */
  function AfterHostConnected(host: HostInventory, vms: seq<VmInstanceRecord>, reply: CheckVmStateOnHypervisorReply)
    : (r: ScanOutcome)
    ensures r.NothingToCheck? <==> UnknownVmsOnHost(host.uuid, vms) == []
    ensures !r.NothingToCheck? ==>
              r.request == CheckVmStateOnHypervisorMsg(host.uuid, UnknownVmsOnHost(host.uuid, vms))
    ensures r.CheckFailed? <==> !r.NothingToCheck? && !reply.success
    ensures r.CheckFailed? ==> r.error == reply.error
    ensures r.Checked? <==> !r.NothingToCheck? && reply.success && UnparseableNames(reply.states) == {}
    ensures r.Checked? ==> r.report.hostUuid == host.uuid
    ensures r.Checked? ==> r.report.states.Keys == reply.states.Keys
    ensures r.Checked? ==> forall k :: k in r.report.states ==> Name(r.report.states[k]) == reply.states[k]
  {
    var uuids := UnknownVmsOnHost(host.uuid, vms);
    if uuids == [] then NothingToCheck
    else
      var msg := CheckVmStateOnHypervisorMsg(host.uuid, uuids);
      if !reply.success then CheckFailed(msg, reply.error)
      else
        match ParseStates(reply.states)
        case Failure(bad) => StatesUnparseable(msg, bad)
        case Success(states) => Checked(msg, VmStateReport(host.uuid, states))
  }

  /** The check request names only VMs recorded as Unknown on this very host. */
  lemma ScanRequestsOnlyUnknownVmsOfHost(host: HostInventory, vms: seq<VmInstanceRecord>,
                                         reply: CheckVmStateOnHypervisorReply, u: string)
    requires !AfterHostConnected(host, vms, reply).NothingToCheck?
    requires u in AfterHostConnected(host, vms, reply).request.vmInstanceUuids
    ensures exists i :: 0 <= i < |vms| && vms[i].uuid == u && vms[i].state == Unknown && vms[i].hostUuid == host.uuid
  {
  }

  /** The `reportVmState` calls a scan makes. */
  function ScanReports(r: ScanOutcome): (reports: seq<VmStateReport>)
    ensures |reports| <= 1
    ensures reports == [] <==> !r.Checked?
    ensures r.Checked? ==> reports == [r.report]
  {
    if r.Checked? then [r.report] else []
  }

  /** A failed check reply reports nothing. */
  lemma FailedCheckReportsNothing(host: HostInventory, vms: seq<VmInstanceRecord>, reply: CheckVmStateOnHypervisorReply)
    requires !reply.success
    ensures ScanReports(AfterHostConnected(host, vms, reply)) == []
  {
  }

  /** Unlike the sync, the scan filters nothing: a VM the hypervisor reports
      as Stopped is reported as Stopped. */
  lemma ScanKeepsUntrackedStates(host: HostInventory, vms: seq<VmInstanceRecord>,
                                 reply: CheckVmStateOnHypervisorReply, vmUuid: string)
    requires AfterHostConnected(host, vms, reply).Checked?
    requires vmUuid in reply.states && reply.states[vmUuid] == "Stopped"
    ensures AfterHostConnected(host, vms, reply).report.states[vmUuid] == Stopped
  {
    var s := AfterHostConnected(host, vms, reply).report.states[vmUuid];
    ValueOfName(s);
  }
}
