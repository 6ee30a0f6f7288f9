/**
 * The start, stop and restart tasks of a legacy instance: each runs its
 * backend action under a begin transition, and links a closing transition
 * on success and `set_erred` on failure.
 */
module InstanceTasks {
  import opened InstanceStates

  datatype Action = Start | Stop | Restart

  datatype Transition = BeginStarting | BeginStopping | BeginRestarting | SetOnline | SetOffline | SetErred

  /** The transitions of one action: the one its task runs under, and its success and error links. */
  datatype Wiring = Wiring(begin: Transition, onSuccess: Transition, onError: Transition)

  function WiringOf(a: Action): (w: Wiring)
    ensures w.onError == SetErred
    ensures w.onSuccess == (if a == Stop then SetOffline else SetOnline)
  {
    match a
    case Start => Wiring(BeginStarting, SetOnline, SetErred)
    case Stop => Wiring(BeginStopping, SetOffline, SetErred)
    case Restart => Wiring(BeginRestarting, SetOnline, SetErred)
  }

  /** The state each transition leads to. */
  function Target(t: Transition): InstanceState
  {
    match t
    case BeginStarting => Starting
    case BeginStopping => Stopping
    case BeginRestarting => Restarting
    case SetOnline => Online
    case SetOffline => Offline
    case SetErred => Erred
  }

  /**
   * The transitions an action applies: when the task runs, its begin
   * transition and then the link the outcome selects; when the task fails
   * before the transition applies, only the error link.
   */
  function Run(a: Action, began: bool, succeeded: bool): (ts: seq<Transition>)
    ensures |ts| >= 1 && ts[|ts| - 1] == (if began && succeeded then WiringOf(a).onSuccess else SetErred)
    ensures began <==> |ts| == 2
    ensures began ==> ts[0] == WiringOf(a).begin
  {
    var w := WiringOf(a);
    if !began then [w.onError]
    else [w.begin, if succeeded then w.onSuccess else w.onError]
  }

  /** The state the instance is left in: the target of the last transition applied. */
  function FinalState(a: Action, began: bool, succeeded: bool): InstanceState
  {
    Target(Run(a, began, succeeded)[|Run(a, began, succeeded)| - 1])
  }

  /** Every run ends stable when the action succeeds and erred otherwise; never in a transitional state. */
  lemma RunEndsStableOrErred(a: Action, began: bool, succeeded: bool)
    ensures IsStable(FinalState(a, began, succeeded)) <==> began && succeeded
    ensures !(began && succeeded) <==> FinalState(a, began, succeeded) == Erred
  {
  }

  /** A successful start or restart leaves the instance online, a successful stop offline. */
  lemma SuccessfulRunTarget(a: Action)
    ensures FinalState(a, true, true) == (if a == Stop then Offline else Online)
  {
  }

  /** The begin transition moves the instance into the action's transitional state. */
  lemma BeginIsTransitional(a: Action)
    ensures var s := Target(WiringOf(a).begin);
            && !IsStable(s) && s != Erred
            && s == (match a case Start => Starting case Stop => Stopping case Restart => Restarting)
  {
  }
}
