/**
 * States of old-style (tenant-scoped) instances, and the mapping of the nova
 * server status reported by the backend onto them.
 */
module InstanceStates {

  datatype InstanceState =
    | ProvisioningScheduled
    | Provisioning
    | Online
    | Offline
    | StartingScheduled
    | Starting
    | StoppingScheduled
    | Stopping
    | RestartingScheduled
    | Restarting
    | ResizingScheduled
    | Resizing
    | DeletionScheduled
    | Deleting
    | Erred

  /** Instances that may be backed up by a schedule. */
  predicate IsStable(s: InstanceState)
  {
    s == Online || s == Offline
  }

  /**
   * Maps a nova server status onto an instance state. Statuses the table
   * does not list, including the empty string, count as erred.
   */
  function FromNovaStatus(status: string): (r: InstanceState)
    ensures r in {Online, Provisioning, Erred, Stopping, Starting, Offline}
    ensures status in {"ACTIVE", "PASSWORD", "RESCUED"} <==> r == Online
    ensures status == "BUILDING" <==> r == Provisioning
    ensures status in {"HARD_REBOOT", "REBOOT", "REVERT_RESIZE"} <==> r == Stopping
    ensures status == "REBUILD" <==> r == Starting
    ensures status in {"PAUSED", "RESIZED", "SHUTOFF", "STOPPED", "SUSPENDED", "VERIFY_RESIZE"} <==> r == Offline
  {
    if status in {"ACTIVE", "PASSWORD", "RESCUED"} then Online
    else if status == "BUILDING" then Provisioning
    else if status in {"ERROR", "UNKNOWN"} then Erred
    else if status in {"HARD_REBOOT", "REBOOT", "REVERT_RESIZE"} then Stopping
    else if status == "REBUILD" then Starting
    else if status in {"PAUSED", "RESIZED", "SHUTOFF", "STOPPED", "SUSPENDED", "VERIFY_RESIZE"} then Offline
    else Erred
  }

  /** The statuses the table names; everything else falls through to erred. */
  const KnownNovaStatuses: set<string> :=
    {"ACTIVE", "PASSWORD", "RESCUED", "BUILDING", "ERROR", "UNKNOWN", "HARD_REBOOT", "REBOOT",
     "REVERT_RESIZE", "REBUILD", "PAUSED", "RESIZED", "SHUTOFF", "STOPPED", "SUSPENDED", "VERIFY_RESIZE"}

  lemma UnknownNovaStatusIsErred(status: string)
    requires status !in KnownNovaStatuses
    ensures FromNovaStatus(status) == Erred
  {
  }
}
