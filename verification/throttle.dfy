/**
 * Admission of a provisioning step: a resource waits while too many
 * resources of its kind are being created on the same service settings.
 */
module Throttle {
  import opened Seqs
  import opened States

  const DefaultLimit: int := 4

  /** The configured `MAX_CONCURRENT_PROVISION` table. */
  const MaxConcurrentProvision: map<string, int> :=
    map["OpenStack.Instance" := 4, "OpenStack.Volume" := 4, "OpenStack.Snapshot" := 4]

  /** The limit of a kind: its configured value, else the default. */
  function ProvisionLimit(configured: map<string, int>, kind: string): int
  {
    if kind in configured then configured[kind] else DefaultLimit
  }

  /** Every kind gets the same limit under the shipped configuration. */
  lemma ConfiguredLimitsAreDefault(kind: string)
    ensures ProvisionLimit(MaxConcurrentProvision, kind) == DefaultLimit
  {
  }

  datatype Provisioned = Provisioned(kind: string, settings: string, state: State)

  function CreatingLike(kind: string, settings: string): Provisioned -> bool
  {
    (p: Provisioned) => p.kind == kind && p.settings == settings && p.state == Creating
  }

  /** The resources of `kind` on `settings` being created. */
  function CreatingCount(rs: seq<Provisioned>, kind: string, settings: string): nat
  {
    Count(rs, CreatingLike(kind, settings))
  }

  /**
   * `is_available` as written: the count may equal the limit, so admission
   * holds exactly when starting one more creation stays within the limit
   * plus one.
   */
  function IsAvailableAsWritten(rs: seq<Provisioned>, kind: string, settings: string, configured: map<string, int>)
    : (ok: bool)
    ensures ok <==> CreatingCount(rs + [Provisioned(kind, settings, Creating)], kind, settings)
                    <= ProvisionLimit(configured, kind) + 1
  {
    StartingAddsOne(rs, kind, settings);
    CreatingCount(rs, kind, settings) <= ProvisionLimit(configured, kind)
  }

  /**
   * Admission that keeps the number of concurrent creations within the
   * limit: it holds exactly when starting one more creation stays within
   * the limit.
   */
  function IsAvailable(rs: seq<Provisioned>, kind: string, settings: string, configured: map<string, int>): (ok: bool)
    ensures ok <==> CreatingCount(rs + [Provisioned(kind, settings, Creating)], kind, settings)
                    <= ProvisionLimit(configured, kind)
  {
    StartingAddsOne(rs, kind, settings);
    CreatingCount(rs, kind, settings) < ProvisionLimit(configured, kind)
  }

  /** An admitted resource starts being created, which adds one to the count. */
  lemma {:induction false} StartingAddsOne(rs: seq<Provisioned>, kind: string, settings: string)
    ensures CreatingCount(rs + [Provisioned(kind, settings, Creating)], kind, settings) == CreatingCount(rs, kind, settings) + 1
  {
    FilterSnoc(rs, Provisioned(kind, settings, Creating), CreatingLike(kind, settings));
  }

  /** With the corrected admission, creations never exceed the limit. */
  lemma AdmissionKeepsLimit(rs: seq<Provisioned>, kind: string, settings: string, configured: map<string, int>)
    requires IsAvailable(rs, kind, settings, configured)
    ensures CreatingCount(rs + [Provisioned(kind, settings, Creating)], kind, settings) <= ProvisionLimit(configured, kind)
  {
    StartingAddsOne(rs, kind, settings);
  }

  /** As written, admission allows one creation more than the limit. */
  lemma AdmissionAsWrittenExceedsLimit(rs: seq<Provisioned>, kind: string, settings: string, configured: map<string, int>)
    requires IsAvailableAsWritten(rs, kind, settings, configured)
    ensures CreatingCount(rs + [Provisioned(kind, settings, Creating)], kind, settings) <= ProvisionLimit(configured, kind) + 1
  {
    StartingAddsOne(rs, kind, settings);
  }

  /** Four instances being created on one settings: as written a fifth is admitted, corrected it waits. */
  lemma FifthInstanceAdmittedAsWritten()
    ensures var creating := Provisioned("OpenStack.Instance", "s", Creating);
            var rs := [creating, creating, creating, creating];
            && IsAvailableAsWritten(rs, "OpenStack.Instance", "s", MaxConcurrentProvision)
            && CreatingCount(rs + [creating], "OpenStack.Instance", "s") == 5
            && !IsAvailable(rs, "OpenStack.Instance", "s", MaxConcurrentProvision)
  {
    var creating := Provisioned("OpenStack.Instance", "s", Creating);
    var rs := [creating, creating, creating, creating];
    FilterAll(rs, CreatingLike("OpenStack.Instance", "s"));
    StartingAddsOne(rs, "OpenStack.Instance", "s");
  }

  /** Resources of other kinds or other settings do not hold a resource back. */
  lemma OthersDoNotCount(rs: seq<Provisioned>, kind: string, settings: string, p: Provisioned)
    requires p.kind != kind || p.settings != settings
    ensures CreatingCount(rs + [p], kind, settings) == CreatingCount(rs, kind, settings)
  {
    FilterSnoc(rs, p, CreatingLike(kind, settings));
  }
}
