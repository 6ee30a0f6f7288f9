/**
 * Event logging of resource actions in the settings-scoped application, and
 * of tenant quota limit changes.
 *
 * A resource carries the action it is performing and that action's details;
 * when the action changes, the handler logs the scheduled, succeeded or
 * failed event according to the resource's state.
 */
module ActionLog {
  import opened Wrappers
  import opened Seqs
  import opened States

  /** ASCII case folding; other characters are kept. */
  function LowerChar(c: char): char
  {
    if 'A' <= c <= 'Z' then (c as int + 32) as char else c
  }

  function SlugChar(c: char): char
  {
    LowerChar(if c == ' ' then '_' else c)
  }

  predicate IsUpper(c: char)
  {
    'A' <= c <= 'Z'
  }

  /** The action with spaces turned into underscores, lower-cased. */
  function ActionSlug(action: string): (r: string)
    ensures |r| == |action|
    ensures forall i :: 0 <= i < |r| ==> r[i] != ' ' && !IsUpper(r[i])
    ensures forall i :: 0 <= i < |r| && action[i] != ' ' && !IsUpper(action[i]) ==> r[i] == action[i]
    ensures forall i :: 0 <= i < |r| && IsUpper(action[i]) ==> r[i] as int == action[i] as int + 32
  {
    Map(action, SlugChar)
  }

  /** A slug is its own slug. */
  lemma SlugIdempotent(action: string)
    ensures ActionSlug(ActionSlug(action)) == ActionSlug(action)
  {
  }

  /** `_get_action_event_type`. */
  function EventType(action: string, eventState: string): (r: string)
    ensures |r| == |"resource_"| + |action| + 1 + |eventState|
    ensures r[..9] == "resource_" && r[|r| - |eventState| - 1..] == "_" + eventState
    ensures r[9..9 + |action|] == ActionSlug(action)
  {
    "resource_" + ActionSlug(action) + "_" + eventState
  }

  /** `_get_action_message`: the details' message, else the action; the message is taken out of the details. */
  function ActionMessage(action: string, details: map<string, string>): (r: (string, map<string, string>))
    ensures "message" in details ==> r.0 == details["message"]
    ensures "message" !in details ==> r.0 == action
    ensures "message" !in r.1
    ensures forall k :: k in details && k != "message" ==> k in r.1 && r.1[k] == details[k]
    ensures forall k :: k in r.1 ==> k in details
  {
    (if "message" in details then details["message"] else action, details - {"message"})
  }

  datatype Level = Info | Warning

  datatype Event = Event(level: Level, text: string, eventType: string, details: map<string, string>)

  function Lower(s: string): string
  {
    Map(s, LowerChar)
  }

  function Quoted(s: string): string
  {
    "\"" + s + "\""
  }

  function ScheduledEvent(className: string, name: string, action: string, details: map<string, string>): Event
  {
    var (message, rest) := ActionMessage(action, details);
    Event(Info, "Operation " + Quoted(message) + " has been scheduled for " + Lower(className) + " " + Quoted(name),
          EventType(action, "scheduled"), rest)
  }

  function SucceededEvent(className: string, name: string, action: string, details: map<string, string>): Event
  {
    var (message, rest) := ActionMessage(action, details);
    Event(Info, "Successfully executed " + Quoted(message) + " operation for " + Lower(className) + " " + Quoted(name),
          EventType(action, "succeeded"), rest)
  }

  function FailedEvent(className: string, name: string, action: string, details: map<string, string>): Event
  {
    var (message, rest) := ActionMessage(action, details);
    Event(Warning, "Failed to execute " + Quoted(message) + " operation for " + Lower(className) + " " + Quoted(name),
          EventType(action, "failed"), rest)
  }

  /** A resource as the save handler sees it: its current action and the one before the save. */
  datatype Tracked = Tracked(className: string, name: string, state: State,
                             action: string, actionDetails: map<string, string>,
                             previousAction: string, previousDetails: map<string, string>)

  /**
   * `log_action`: nothing on creation or when the action did not change;
   * otherwise a scheduled event for the new action when the resource is
   * update-scheduled, and a succeeded or failed event for the previous
   * action when it is OK or erred.
   */
  function LogAction(r: Tracked, created: bool): (events: seq<Event>)
    ensures |events| <= 1
    ensures |events| == 1 <==> !created && r.action != r.previousAction && r.state in {UpdateScheduled, Ok, Erred}
    ensures |events| == 1 && r.state == UpdateScheduled ==>
              events[0].eventType == EventType(r.action, "scheduled") && events[0].level == Info
    ensures |events| == 1 && r.state == Ok ==>
              events[0].eventType == EventType(r.previousAction, "succeeded") && events[0].level == Info
    ensures |events| == 1 && r.state == Erred ==>
              events[0].eventType == EventType(r.previousAction, "failed") && events[0].level == Warning
    ensures |events| == 1 ==> "message" !in events[0].details
  {
    if created || r.action == r.previousAction then []
    else
      (if r.state == UpdateScheduled then [ScheduledEvent(r.className, r.name, r.action, r.actionDetails)] else [])
      + (if r.state == Ok then [SucceededEvent(r.className, r.name, r.previousAction, r.previousDetails)]
         else if r.state == Erred then [FailedEvent(r.className, r.name, r.previousAction, r.previousDetails)]
         else [])
  }

  /** A succeeded event reads the message of the previous action's details, not the current ones. */
  lemma SucceededUsesPreviousDetails(r: Tracked)
    requires r.state == Ok && r.action != r.previousAction && "message" in r.previousDetails
    ensures var events := LogAction(r, false);
            |events| == 1 && events[0].text == "Successfully executed " + Quoted(r.previousDetails["message"])
                                                + " operation for " + Lower(r.className) + " " + Quoted(r.name)
  {
  }

  /**
   * A quota as its save handler sees it: its name, the name of the tenant
   * it belongs to (none when its scope is something else), its limit before
   * the save and now, and whether the save created it.
   */
  datatype QuotaSave = QuotaSave(name: string, tenant: Option<string>, previousLimit: int, limit: int, created: bool)

  /** The event logged for a quota limit change, with the context it carries. */
  datatype QuotaEvent = QuotaEvent(level: Level, text: string, eventType: string,
                                   quotaName: string, tenantName: string, limit: int)

  const QuotaLimitUpdated: string := "openstack_tenant_quota_limit_updated"

  /**
   * `log_tenant_quota_update`: one info event when a tenant's existing quota
   * changed its limit, naming the quota and the tenant and carrying the new
   * limit; nothing for a new quota, a quota of another scope, or a save
   * that left the limit alone.
   */
  function LogTenantQuotaUpdate(q: QuotaSave): (events: seq<QuotaEvent>)
    ensures |events| <= 1
    ensures |events| == 1 <==> !q.created && q.tenant.Some? && q.previousLimit != q.limit
    ensures |events| == 1 ==> && events[0].level == Info && events[0].eventType == QuotaLimitUpdated
                              && events[0].quotaName == q.name && events[0].tenantName == q.tenant.value
                              && events[0].limit == q.limit
    ensures |events| == 1 ==> q.name <= events[0].text && |events[0].text| > |q.name| + |q.tenant.value|
    ensures |events| == 1 ==> events[0].text[|events[0].text| - |q.tenant.value| - 1..] == q.tenant.value + "."
  {
    if q.created || q.tenant.None? || q.previousLimit == q.limit then []
    else
      var tenant := q.tenant.value;
      [QuotaEvent(Info, q.name + " quota limit has been updated for tenant " + tenant + ".",
                  QuotaLimitUpdated, q.name, tenant, q.limit)]
  }

  /**
   * A logged limit change is logged once: saving the same quota again
   * without touching its limit logs nothing, and a later change to another
   * limit logs an event carrying that limit.
   */
  lemma QuotaChangeLoggedOnce(q: QuotaSave, next: int)
    requires |LogTenantQuotaUpdate(q)| == 1
    ensures LogTenantQuotaUpdate(q.(previousLimit := q.limit)) == []
    ensures next != q.limit ==>
              var later := LogTenantQuotaUpdate(q.(previousLimit := q.limit, limit := next));
              |later| == 1 && later[0].limit == next && later[0].quotaName == LogTenantQuotaUpdate(q)[0].quotaName
  {
  }
}
