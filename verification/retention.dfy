/**
 * The backup-schedule backend: one execution creates a backup (regular or
 * DR) of a stable instance, records the outcome on the schedule, deletes the
 * oldest OK backups beyond the schedule's maximum and moves the next
 * trigger. Time is in seconds.
 */
module Retention {
  import opened Wrappers
  import opened Seqs
  import opened States
  import IS = InstanceStates

  datatype BackupType = Regular | DR

  const SecondsPerDay: int := 24 * 60 * 60

  /** `kept_until`: `retention_time` days after now, or none when the retention time is 0. */
  function KeptUntil(now: int, retentionDays: int): (k: Option<int>)
    ensures k.None? <==> retentionDays == 0
    ensures k.Some? ==> k.value - now == retentionDays * SecondsPerDay
  {
    if retentionDays != 0 then Some(now + retentionDays * SecondsPerDay) else None
  }

  /* ---------------------------------------------------------------------- */
  /* Deleting the extra backups                                             */

  /** A backup (or DR backup) of the schedule, with its creation time. */
  datatype Backup = Backup(id: string, state: State, created: int)

  predicate SortedByCreated(s: seq<Backup>)
  {
    forall i, j :: 0 <= i < j < |s| ==> s[i].created <= s[j].created
  }

  /** Inserting into a sorted list keeps it sorted and adds exactly the one backup. */
  function Insert(b: Backup, s: seq<Backup>): (r: seq<Backup>)
    requires SortedByCreated(s)
    ensures SortedByCreated(r) && multiset(r) == multiset(s) + multiset{b}
    decreases |s|
  {
    if s == [] then [b]
    else if b.created <= s[0].created then [b] + s
    else
      var rest := Insert(b, s[1..]);
      InsertAfterHead(b, s, rest);
      [s[0]] + rest
  }

  /** The head of a sorted list, older than `b`, may stay in front of the list `b` was inserted into. */
  lemma InsertAfterHead(b: Backup, s: seq<Backup>, rest: seq<Backup>)
    requires SortedByCreated(s) && |s| >= 1 && s[0].created < b.created
    requires SortedByCreated(rest) && multiset(rest) == multiset(s[1..]) + multiset{b}
    ensures SortedByCreated([s[0]] + rest) && multiset([s[0]] + rest) == multiset(s) + multiset{b}
  {
    assert s == [s[0]] + s[1..];
    forall i | 0 <= i < |rest| ensures s[0].created <= rest[i].created {
      assert rest[i] in multiset(rest);
      if rest[i] != b {
        assert rest[i] in multiset(s[1..]);
        var j :| 0 <= j < |s[1..]| && s[1..][j] == rest[i];
        assert s[1 + j] == rest[i];
      }
    }
  }

  /** `order_by` on the creation time. */
  function SortByCreated(s: seq<Backup>): (r: seq<Backup>)
    ensures SortedByCreated(r) && multiset(r) == multiset(s)
    decreases |s|
  {
    if s == [] then []
    else
      assert s == [s[0]] + s[1..];
      Insert(s[0], SortByCreated(s[1..]))
  }

  function IsOk(): Backup -> bool
  {
    (b: Backup) => b.state == Ok
  }

  function Min(a: int, b: int): int
  {
    if a < b then a else b
  }

  /**
   * `_delete_backups`: when the schedule holds more backups than its
   * maximum, counting every state, the oldest OK backups are deleted, as
   * many as the excess but no more than there are OK backups.
   */
  function ExtraBackups(backups: seq<Backup>, maximalNumber: int): (r: seq<Backup>)
    ensures var extra := |backups| - maximalNumber;
            |r| == if extra > 0 then Min(extra, Count(backups, IsOk())) else 0
    ensures multiset(r) <= multiset(Filter(backups, IsOk()))
    ensures forall x :: x in r ==> x in backups && x.state == Ok
    ensures forall x, y :: x in multiset(r) && y in multiset(Filter(backups, IsOk())) - multiset(r) ==>
              x.created <= y.created
  {
    var extra := |backups| - maximalNumber;
    if extra <= 0 then []
    else
      OldestOkFacts(backups, Min(extra, Count(backups, IsOk())));
      OldestOk(backups, Min(extra, Count(backups, IsOk())))
  }

  /** The `n` oldest OK backups. */
  function OldestOk(backups: seq<Backup>, n: nat): seq<Backup>
    requires n <= Count(backups, IsOk())
  {
    var sorted := SortByCreated(Filter(backups, IsOk()));
    SameLength(sorted, Filter(backups, IsOk()));
    sorted[..n]
  }

  lemma SameLength(a: seq<Backup>, b: seq<Backup>)
    requires multiset(a) == multiset(b)
    ensures |a| == |b|
  {
    assert |multiset(a)| == |multiset(b)|;
  }

  lemma OldestOkFacts(backups: seq<Backup>, n: nat)
    requires n <= Count(backups, IsOk())
    ensures var r := OldestOk(backups, n);
            && |r| == n
            && multiset(r) <= multiset(Filter(backups, IsOk()))
            && (forall x :: x in r ==> x in backups && x.state == Ok)
            && (forall x, y :: x in multiset(r) && y in multiset(Filter(backups, IsOk())) - multiset(r) ==>
                  x.created <= y.created)
  {
    var ok := Filter(backups, IsOk());
    var sorted := SortByCreated(ok);
    SameLength(sorted, ok);
    var r := sorted[..n];
    assert r == OldestOk(backups, n);
    PrefixIsOldest(sorted, n);
    forall x | x in r ensures x in backups && x.state == Ok {
      assert x in multiset(r);
      assert x in multiset(ok);
      FilterIn(backups, IsOk(), x);
    }
  }

  /** The first `n` of a sorted list are a part of it, and none is newer than the rest. */
  lemma PrefixIsOldest(s: seq<Backup>, n: int)
    requires SortedByCreated(s) && 0 <= n <= |s|
    ensures multiset(s[..n]) <= multiset(s)
    ensures multiset(s) - multiset(s[..n]) == multiset(s[n..])
    ensures forall x, y :: x in multiset(s[..n]) && y in multiset(s[n..]) ==> x.created <= y.created
  {
    PrefixSplits(s, n);
    forall x, y | x in multiset(s[..n]) && y in multiset(s[n..]) ensures x.created <= y.created {
      PrefixBefore(s, n, x, y);
    }
  }

  lemma PrefixSplits(s: seq<Backup>, n: int)
    requires 0 <= n <= |s|
    ensures multiset(s) == multiset(s[..n]) + multiset(s[n..])
  {
    assert s == s[..n] + s[n..];
  }

  lemma PrefixBefore(s: seq<Backup>, n: int, x: Backup, y: Backup)
    requires SortedByCreated(s) && 0 <= n <= |s|
    requires x in s[..n] && y in s[n..]
    ensures x.created <= y.created
  {
    var i :| 0 <= i < n && s[..n][i] == x;
    var j :| 0 <= j < |s| - n && s[n..][j] == y;
    assert s[i] == x && s[n + j] == y;
  }

  /** When there are enough OK backups, deleting them brings the schedule back to its maximum. */
  lemma EnoughOkBackupsReachTheMaximum(backups: seq<Backup>, maximalNumber: int)
    requires 0 <= maximalNumber < |backups|
    requires Count(backups, IsOk()) >= |backups| - maximalNumber
    ensures |backups| - |ExtraBackups(backups, maximalNumber)| == maximalNumber
  {
  }

  /** At or under the maximum, nothing is deleted. */
  lemma NothingExtraNothingDeleted(backups: seq<Backup>, maximalNumber: int)
    requires |backups| <= maximalNumber
    ensures ExtraBackups(backups, maximalNumber) == []
  {
  }

  /* ---------------------------------------------------------------------- */
  /* Creating a backup                                                      */

  /** Why creating the backup's records failed: a quota violation, or an error of the cloud backend. */
  datatype CreationFailure = QuotaViolation | BackendFailure

  datatype Created = Created(backupType: BackupType, keptUntil: Option<int>)

  /**
   * What `create_backup` did: nothing (the instance is not stable), started
   * a backup, raised the schedule's own error, or let another error escape.
   */
  datatype CreateOutcome = Skipped | Started(created: Created) | Refused(cause: CreationFailure) | Escaped(cause: CreationFailure)

  /**
   * `create_backup`. Only stable instances are backed up. A regular backup
   * turns a quota violation into the schedule's error; a DR backup also
   * turns a backend error into it. `failure` is the error that creating the
   * records would raise, if any.
   */
  function CreateBackup(instanceState: IS.InstanceState, backupType: BackupType, retentionDays: int, now: int,
                        failure: Option<CreationFailure>): (o: CreateOutcome)
    ensures o.Skipped? <==> !IS.IsStable(instanceState)
    ensures o.Started? <==> IS.IsStable(instanceState) && failure.None?
    ensures o.Started? ==> o.created == Created(backupType, KeptUntil(now, retentionDays))
    ensures o.Refused? <==> IS.IsStable(instanceState) && failure.Some?
                            && (failure.value == QuotaViolation || backupType == DR)
    ensures o.Refused? || o.Escaped? ==> failure == Some(o.cause)
    ensures o.Escaped? ==> backupType.Regular?
  {
    if !IS.IsStable(instanceState) then Skipped
    else if failure.None? then Started(Created(backupType, KeptUntil(now, retentionDays)))
    else if failure.value == QuotaViolation || backupType == DR then Refused(failure.value)
    else Escaped(failure.value)
  }

  /* ---------------------------------------------------------------------- */
  /* One execution of a schedule                                            */

  /** What an execution writes to the schedule's runtime state. */
  datatype RuntimeNote = NoNote | FailedToSchedule | StartedAt(time: int)

  datatype Schedule = Schedule(backupType: BackupType, retentionDays: int, maximalNumber: int, isActive: bool,
                               runtime: RuntimeNote, error: Option<CreationFailure>, nextTriggerAt: int)

  datatype Execution = Execution(schedule: Schedule, outcome: CreateOutcome, deleted: seq<Backup>)

  /** The schedule's backups once the new one, if started, is recorded (scheduled for creation at `now`). */
  function WithNew(backups: seq<Backup>, outcome: CreateOutcome, newId: string, now: int): seq<Backup>
  {
    if outcome.Started? then backups + [Backup(newId, CreationScheduled, now)] else backups
  }

  /**
   * `execute`: try the creation; the schedule's own error deactivates the
   * schedule and records the error, anything else that does not escape
   * records the start (also when the instance was not stable and nothing was
   * created); the extra backups are deleted and the next trigger time
   * (`nextTrigger`, computed from the schedule's cron expression) is stored
   * in every case.
   */
  function Execute(s: Schedule, instanceState: IS.InstanceState, backups: seq<Backup>,
                   failure: Option<CreationFailure>, now: int, nextTrigger: int, newId: string): (e: Execution)
    ensures e.outcome == CreateBackup(instanceState, s.backupType, s.retentionDays, now, failure)
    ensures e.schedule.isActive <==> s.isActive && !e.outcome.Refused?
    ensures e.outcome.Refused? ==> e.schedule.runtime == FailedToSchedule && e.schedule.error == Some(e.outcome.cause)
    ensures e.outcome.Started? || e.outcome.Skipped? ==> e.schedule.runtime == StartedAt(now) && e.schedule.error == s.error
    ensures e.outcome.Escaped? ==> e.schedule.runtime == s.runtime && e.schedule.error == s.error
    ensures e.schedule.nextTriggerAt == nextTrigger
    ensures e.schedule.backupType == s.backupType && e.schedule.retentionDays == s.retentionDays
            && e.schedule.maximalNumber == s.maximalNumber
    ensures e.deleted == ExtraBackups(WithNew(backups, e.outcome, newId, now), s.maximalNumber)
  {
    var outcome := CreateBackup(instanceState, s.backupType, s.retentionDays, now, failure);
    var recorded := match outcome
      case Refused(cause) => s.(runtime := FailedToSchedule, error := Some(cause), isActive := false)
      case Escaped(_) => s
      case _ => s.(runtime := StartedAt(now));
    Execution(recorded.(nextTriggerAt := nextTrigger), outcome,
              ExtraBackups(WithNew(backups, outcome, newId, now), s.maximalNumber))
  }

  /** The backup an execution starts is never among the ones it deletes: it is not OK yet. */
  lemma NewBackupIsKept(s: Schedule, instanceState: IS.InstanceState, backups: seq<Backup>,
                        failure: Option<CreationFailure>, now: int, nextTrigger: int, newId: string)
    ensures var e := Execute(s, instanceState, backups, failure, now, nextTrigger, newId);
            e.outcome.Started? ==> Backup(newId, CreationScheduled, now) !in e.deleted
  {
  }

  /** An unstable instance creates nothing, yet the execution still deletes extra backups and moves the trigger. */
  lemma UnstableInstanceOnlyPrunes(s: Schedule, instanceState: IS.InstanceState, backups: seq<Backup>,
                                   failure: Option<CreationFailure>, now: int, nextTrigger: int, newId: string)
    requires !IS.IsStable(instanceState)
    ensures var e := Execute(s, instanceState, backups, failure, now, nextTrigger, newId);
            && e.outcome == Skipped && e.schedule.isActive == s.isActive
            && e.deleted == ExtraBackups(backups, s.maximalNumber)
            && e.schedule.nextTriggerAt == nextTrigger
  {
  }
}
