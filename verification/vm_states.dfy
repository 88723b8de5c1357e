/** The canonical VM states of the control plane and the two ways a host's
    textual state becomes one of them. */
module VmStates {
  import opened Wrappers

  /** The control plane's VM state enumeration (`VmInstanceState`). */
  datatype VmInstanceState =
    | Created | Starting | Running | Stopping | Stopped | Rebooting
    | Destroying | Destroyed | Migrating | Expunging | Pausing | Paused
    | Resuming | Error | Unknown

  /** The only states a host-initiated sync may reconcile. */
  predicate Tracked(s: VmInstanceState) {
    s == Running || s == Unknown
  }

  /** The enum constant's name, as `name()` returns it. */
  function Name(s: VmInstanceState): string {
    match s
    case Created => "Created"
    case Starting => "Starting"
    case Running => "Running"
    case Stopping => "Stopping"
    case Stopped => "Stopped"
    case Rebooting => "Rebooting"
    case Destroying => "Destroying"
    case Destroyed => "Destroyed"
    case Migrating => "Migrating"
    case Expunging => "Expunging"
    case Pausing => "Pausing"
    case Paused => "Paused"
    case Resuming => "Resuming"
    case Error => "Error"
    case Unknown => "Unknown"
  }

  /** `VmInstanceState.valueOf(name)`: the constant with exactly that name;
      `None` where Java throws for a name no constant has. */
  function ValueOf(name: string): (r: Option<VmInstanceState>)
    ensures r.Some? ==> Name(r.value) == name
    ensures r.None? ==> forall s :: Name(s) != name
  {
    if name == "Created" then Some(Created)
    else if name == "Starting" then Some(Starting)
    else if name == "Running" then Some(Running)
    else if name == "Stopping" then Some(Stopping)
    else if name == "Stopped" then Some(Stopped)
    else if name == "Rebooting" then Some(Rebooting)
    else if name == "Destroying" then Some(Destroying)
    else if name == "Destroyed" then Some(Destroyed)
    else if name == "Migrating" then Some(Migrating)
    else if name == "Expunging" then Some(Expunging)
    else if name == "Pausing" then Some(Pausing)
    else if name == "Paused" then Some(Paused)
    else if name == "Resuming" then Some(Resuming)
    else if name == "Error" then Some(Error)
    else if name == "Unknown" then Some(Unknown)
    else None
  }

  /** Parsing a constant's own name gives back that constant. */
  lemma ValueOfName(s: VmInstanceState)
    ensures ValueOf(Name(s)) == Some(s)
  {
  }

  /** The KVM agent's state vocabulary: `KvmVmState.valueOf(token)` followed
      by `toVmInstanceState()`. The keys are the recognised tokens; the
      enumeration itself lives outside this model, so it is a parameter. */
  type KvmStateTable = map<string, VmInstanceState>

  /** Translate one agent token; `None` where `KvmVmState.valueOf` throws. */
  function TranslateKvm(table: KvmStateTable, token: string): Option<VmInstanceState>
  {
    if token in table then Some(table[token]) else None
  }
}
