/** The host-initiated VM sync call (`syncVm`): what the control plane does
    with the outcome of one REST round trip to a KVM agent. The round trip
    itself is not modelled; its delivered outcome is an input. */
module VmSync {
  import opened Wrappers
  import opened VmStates

  /** The parts of a host's inventory the sync reads. */
  datatype HostInventory = HostInventory(uuid: string, managementIp: string)

  /** An error code produced by the REST transport (timeout, refused
      connection, ...); its contents are opaque here. */
  datatype ErrorCode = ErrorCode(code: string, details: string)

  /** The agent's `VmSyncResponse`: the success flag, its error text and the
      per-VM state tokens keyed by VM uuid. */
  datatype VmSyncResponse = VmSyncResponse(success: bool, error: string, states: map<string, string>)

  /** What the asynchronous REST call delivers to its callback: exactly one of
      `fail(err)` and `success(reply)`. */
  datatype RestOutcome = RestFailed(err: ErrorCode) | RestReplied(response: VmSyncResponse)

  /** Why a sync completed without reporting states. */
  datatype SyncError =
    | TransportFailed(cause: ErrorCode)
      /** The agent answered with `isSuccess() == false`; the operation error
          names the host uuid, its management IP and the agent's reason. */
    | AgentRefused(hostUuid: string, managementIp: string, reason: string)
      /** Some reply tokens are unknown to `KvmVmState.valueOf`, which throws
          and abandons the whole reply. */
    | UnrecognizedKvmStates(tokens: set<string>)

  /** One call of `reportVmState(hostUuid, states)`. */
  datatype VmStateReport = VmStateReport(hostUuid: string, states: map<string, VmInstanceState>)

  /** How a sync ended: a state report handed to the tracer and a successful
      completion, or a failed completion and no report. */
  datatype SyncResult = Synced(report: VmStateReport) | SyncFailed(error: SyncError)

  /** The reply tokens that no KVM state has. */
  function UnrecognizedTokens(table: KvmStateTable, states: map<string, string>): (r: set<string>)
    ensures forall k :: k in states && states[k] !in table ==> states[k] in r
    ensures forall t :: t in r ==> t !in table && t in states.Values
  {
    set k | k in states && TranslateKvm(table, states[k]).None? :: states[k]
  }

  /** The entries of a reply worth reconciling: those whose token translates
      to Running or Unknown, carrying the translated state. */
  function FilterForSync(table: KvmStateTable, states: map<string, string>): (r: map<string, VmInstanceState>)
    ensures r.Keys <= states.Keys
    ensures forall k :: k in r ==> Tracked(r[k])
    ensures forall k :: k in states ==> (k in r <==> states[k] in table && Tracked(table[states[k]]))
    ensures forall k :: k in r ==> r[k] == table[states[k]]
  {
    map k | k in states && TranslateKvm(table, states[k]).Some? && Tracked(TranslateKvm(table, states[k]).value)
      :: TranslateKvm(table, states[k]).value
  }

  /** The loop of the success callback, visiting the reply's entries in an
      arbitrary order (as a `HashMap` does): each token is translated, a
      Running or Unknown state is kept, and an unknown token stops the loop. */
  method CollectSyncStates(table: KvmStateTable, states: map<string, string>)
    returns (r: Result<map<string, VmInstanceState>, string>)
    ensures r.Success? <==> UnrecognizedTokens(table, states) == {}
    ensures r.Success? ==> r.value == FilterForSync(table, states)
    ensures r.Failure? ==> r.error in UnrecognizedTokens(table, states)
  {
    var kept: map<string, VmInstanceState> := map[];
    var todo := states.Keys;
    while todo != {}
      invariant todo <= states.Keys
      invariant forall k :: k in states && k !in todo ==> states[k] in table
      invariant forall k :: k in kept ==>
                  k in states && k !in todo && kept[k] == table[states[k]] && Tracked(kept[k])
      invariant forall k :: k in states && k !in todo && Tracked(table[states[k]]) ==> k in kept
      decreases todo
    {
      var k :| k in todo;
      var token := states[k];
      if token !in table {
        return Failure(token);
      }
      var state := table[token];
      if state == Running || state == Unknown {
        kept := kept[k := state];
      }
      todo := todo - {k};
    }
    var expected := FilterForSync(table, states);
    assert kept.Keys == expected.Keys;
    assert forall k :: k in kept ==> kept[k] == expected[k];
    return Success(kept);
  }

  /** The `syncVm` callback logic: a transport failure and a refused reply
      fail the completion; a successful reply reports the filtered states for
      this host, unless a token cannot be translated. */
  function SyncVm(table: KvmStateTable, host: HostInventory, outcome: RestOutcome): (r: SyncResult)
    ensures outcome.RestFailed? ==> r == SyncFailed(TransportFailed(outcome.err))
    ensures outcome.RestReplied? && !outcome.response.success ==>
              r == SyncFailed(AgentRefused(host.uuid, host.managementIp, outcome.response.error))
    ensures r.Synced? <==>
              outcome.RestReplied? && outcome.response.success
              && UnrecognizedTokens(table, outcome.response.states) == {}
    ensures r.Synced? ==> r.report.hostUuid == host.uuid
    ensures r.Synced? ==> r.report.states.Keys <= outcome.response.states.Keys
    ensures r.Synced? ==> forall k :: k in r.report.states ==> Tracked(r.report.states[k])
    ensures r.Synced? ==> forall k :: k in outcome.response.states ==>
              (k in r.report.states <==> Tracked(table[outcome.response.states[k]]))
    ensures r.Synced? ==> forall k :: k in r.report.states ==>
              r.report.states[k] == table[outcome.response.states[k]]
  {
    match outcome
    case RestFailed(err) => SyncFailed(TransportFailed(err))
    case RestReplied(ret) =>
      if !ret.success then
        SyncFailed(AgentRefused(host.uuid, host.managementIp, ret.error))
      else
        var bad := UnrecognizedTokens(table, ret.states);
        if bad != {} then SyncFailed(UnrecognizedKvmStates(bad))
        else Synced(VmStateReport(host.uuid, FilterForSync(table, ret.states)))
  }

  /** The `reportVmState` calls a sync result stands for. */
  function ReportsOf(r: SyncResult): (reports: seq<VmStateReport>)
    ensures |reports| <= 1
    ensures reports == [] <==> r.SyncFailed?
    ensures r.Synced? ==> reports == [r.report]
  {
    match r
    case Synced(report) => [report]
    case SyncFailed(_) => []
  }

  /** A transport failure or a refused reply ends in a failure that reports
      no VM state at all. */
  lemma FailedSyncReportsNothing(table: KvmStateTable, host: HostInventory, outcome: RestOutcome)
    requires outcome.RestFailed? || !outcome.response.success
    ensures SyncVm(table, host, outcome).SyncFailed?
    ensures ReportsOf(SyncVm(table, host, outcome)) == []
  {
  }

  /** The sequential loop and the functional filter agree: whenever the loop
      completes, its map is the report `SyncVm` hands to the tracer. */
  method SyncVmByLoop(table: KvmStateTable, host: HostInventory, outcome: RestOutcome)
    returns (r: SyncResult)
    ensures r.Synced? <==> SyncVm(table, host, outcome).Synced?
    ensures r.Synced? ==> r == SyncVm(table, host, outcome)
    ensures r.SyncFailed? && !r.error.UnrecognizedKvmStates? ==> r == SyncVm(table, host, outcome)
    ensures r.SyncFailed? ==>
              (r.error.UnrecognizedKvmStates? <==> SyncVm(table, host, outcome).error.UnrecognizedKvmStates?)
    ensures r.SyncFailed? && r.error.UnrecognizedKvmStates? ==>
              |r.error.tokens| == 1 && r.error.tokens <= SyncVm(table, host, outcome).error.tokens
  {
    match outcome
    case RestFailed(err) =>
      r := SyncFailed(TransportFailed(err));
    case RestReplied(ret) =>
      if !ret.success {
        r := SyncFailed(AgentRefused(host.uuid, host.managementIp, ret.error));
      } else {
        var collected := CollectSyncStates(table, ret.states);
        match collected
        case Failure(token) =>
          r := SyncFailed(UnrecognizedKvmStates({token}));
        case Success(states) =>
          r := Synced(VmStateReport(host.uuid, states));
      }
  }
}
