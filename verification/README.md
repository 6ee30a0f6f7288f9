# OpenStack plugin core — a Dafny model

The NodeConductor/Waldur OpenStack plugin manages tenants and what lives in
them: security groups and their rules, networks and subnets, floating IPs,
instances, volumes, snapshots, backups and DR (disaster-recovery) backups. Most
of it is Django and Celery code around the OpenStack clients. Between those
remote calls there is decision logic that can be stated exactly. This project
models that logic as pure Dafny functions and proves what it promises.

The plugin has three generations of the same resources. The model names them
as follows:

- the **legacy application** is `src/nodeconductor_openstack/*.py`. Its
  instances and volumes belong to a tenant, and its instances use the
  ONLINE/OFFLINE state set.
- the **tenant application** is `openstack/`. It holds tenants, their
  networks, security groups and floating IPs.
- the **settings-scoped application** is `openstack_tenant/`. Its resources
  belong to the service settings that a tenant is exposed as.

The model follows the plugin's structure:

- **Security-group rules** (`sg_rules.dfy`, `rule_sync.dfy`, `group_sync.dfy`,
  `default_groups.dfy`, `dedup.dfy`). It covers:
  - the lenient and the strict rule validators;
  - rule normalisation and equality;
  - the push and pull diffs between local and backend rules;
  - the tenant group pull;
  - the default groups and their `icmp_type`/`icmp_code` translation;
  - the migration that removes groups with duplicate backend ids.
- **Reconciliation** (`pulled_fields.dfy`, `tenant_floating_ips.dfy`,
  `keyed_scan.dfy`, `settings_floating_ips.dfy`, `instance_sync.dfy`,
  `resource_pull.dfy`, `internal_ips.dfy`, `subnets.dfy`). Each pull is a
  function over maps keyed by backend id. The files also hold the
  instance–group set differences, import candidates, and the subnet and
  external-network validators.
- **Resource states** (`states.dfy`, `instance_states.dfy`, `polling.dfy`,
  `throttle.dfy`, `periodic.dfy`, `failure_policies.dfy`, `instance_tasks.dfy`). They cover:
  - the state codes and the Nova status map;
  - poll decisions and the provisioning throttle;
  - the periodic sweeps;
  - the failure and clean-up policies of composite operations;
  - the start, stop and restart wiring.
- **Quotas** (`quotas.dfy`, `tenant_quotas.dfy`, `action_log.dfy`,
  `mirrors.dfy`). These model
  the increase/decrease pairs, the floating-IP status handler, the
  security-group quota checks, and the mapping of tenant limits and usage.
  The state-change handlers that log actions and mirror groups and IPs into
  settings sit in `action_log.dfy` and `mirrors.dfy`.
- **Request validators** (`instance_requests.dfy`, `volume_requests.dfy`,
  `group_requests.dfy`, `passwords.dfy`). These cover the checks and quota
  effects of the plugin's serializers.
- **Orchestration plans** (`plans.dfy`, `resource_plans.dfy`,
  `tenant_plans.dfy`, `settings_plans.dfy`). Each executor's task signature is
  a list of steps. A chord becomes a group of branches plus a callback and
  success and failure steps. The properties are about order, guards and which
  transitions apply.
- **Backup retention and cost tracking** (`retention.dfy`,
  `cost_tracking.dfy`).
- **Shared helpers**: `wrappers.dfy` (`Option`, `Outcome`, `Result`),
  `seqs.dfy` (sequence filters, maps and sums) and `text_fields.dfy` (how a
  request's text field trims its value and when the value is blank).

Quota counters from the core platform are modelled as usage/limit pairs.
`is_exceeded(d)` holds when usage + d > limit. The FSM transitions of the
core state mixin are modelled as named transitions with the targets their
names give. Time is an integer number of seconds. The following are function
parameters, because their definitions are not part of this model:

- `validate_cidr` and `mb2gb`;
- the cron schedule's next trigger time.

`gb2mb(x)` is `x * 1024`.

## Model

| member | source | states |
|---|---|---|
| SecurityGroupRules.ValidateIcmp | src/nodeconductor_openstack/openstack_base/models.py:30-36 | An icmp rule passes exactly when each port that is present lies in [-1, 255]; null ports pass |
| SecurityGroupRules.ValidatePort | src/nodeconductor_openstack/openstack_base/models.py:38-47 | A tcp/udp rule passes exactly when every present port is at least 1 and, with both present, from_port <= to_port; an inverted range fails with the ordering error |
| SecurityGroupRules.ValidateCidr | src/nodeconductor_openstack/openstack_base/models.py:49-55 | An empty CIDR always passes; a non-empty one passes exactly when the CIDR routine accepts it |
| SecurityGroupRules.Clean | src/nodeconductor_openstack/openstack_base/models.py:57-65 | Accepts exactly the rules with a protocol among tcp/udp/icmp, ports suited to that protocol and an empty or well-formed CIDR; an unknown protocol (the empty one included) fails as such; the CIDR error is reported only for rules whose protocol and ports are fine; at src/nodeconductor_openstack/models.py:143-178: the legacy rule model repeats the same three validators and the same `clean`, so it accepts and rejects exactly the same rules |
| SecurityGroupRules.StrictClean | src/waldur_openstack/openstack_base/models.py:61-75 | A missing to_port, then a missing from_port, is refused before the protocol is looked at; with both ports, icmp ports must lie in [-1, 255] and tcp/udp ports satisfy 1 <= from_port <= to_port, and the CIDR must be empty or well formed |
| SecurityGroupRules.StrictRefinesLenient | src/waldur_openstack/openstack_base/models.py:61-75 | Every rule the waldur validator accepts is accepted by the nodeconductor one |
| SecurityGroupRules.NullPortsSeparateValidators | src/waldur_openstack/openstack_base/models.py:61-66 | The converse fails: a tcp rule with both ports null passes the nodeconductor validator and is refused by the waldur one |
| SecurityGroupRules.FieldsValid | src/nodeconductor_openstack/openstack_base/models.py:14-25 | The field checks refuse a rule with a null from_port or to_port (the port fields are nullable but not blank), and every rule they accept has both ports at most 65535 |
| SecurityGroupRules.FullClean | src/nodeconductor_openstack/openstack_base/models.py:14-65 | A rule passes the full validation exactly when its fields are valid and the waldur validator accepts it, so the nodeconductor and waldur validators agree once fields are checked; an accepted rule is tcp, udp or icmp |
| SecurityGroupRules.NullPortRejected | src/nodeconductor_openstack/openstack_base/models.py:21-22 | A rule with a null port fails the full validation, although for a sound tcp/udp rule with an empty CIDR the nodeconductor `clean` alone passes it |
| SecurityGroupRules.PortAboveMaxRejected | src/nodeconductor_openstack/openstack_base/models.py:21-22 | A port above 65535 fails a full validation whatever the protocol |
| SecurityGroupRules.BlankProtocolRejected | src/nodeconductor_openstack/openstack_base/models.py:57-64 | The blank protocol is an allowed field value, yet `clean` always refuses it as an unknown protocol |
| RuleSync.Normalize | src/nodeconductor_openstack/openstack/backend.py:97-104 | The result is normal (protocol never null, CIDR always present), keeps the id and ports, and leaves an already normal rule unchanged |
| RuleSync.NormalizeIdempotent | src/nodeconductor_openstack/openstack/backend.py:97-104 | Normalising twice is the same as normalising once |
| RuleSync.ToLocal | src/nodeconductor_openstack/openstack/backend.py:341-348 | A local rule created from a normalised backend rule compares equal to it and carries its id |
| RuleSync.AsRequest | src/nodeconductor_openstack/openstack/backend.py:710-725 | The create request sends null exactly for the empty protocol and copies ports and CIDR |
| RuleSync.PushThenReadBackEqual | src/nodeconductor_openstack/openstack/backend.py:76-85 | A rule pushed to the backend, read back and normalised compares equal to the local rule it came from |
| RuleSync.PulledRuleEqual | src/nodeconductor_openstack/openstack/backend.py:76-85 | A pulled rule compares equal to the backend rule it was copied from |
| RuleSync.NormalizeAll | src/nodeconductor_openstack/openstack/backend.py:665-668 | The backend rules keyed by id keep their keys and are each normalised |
| RuleSync.Classify | src/nodeconductor_openstack/openstack/backend.py:670-684 | Fails exactly when two local rules share a known backend id (the second removal raises); otherwise the unknown-id rules, the differing rules and the referenced ids are exactly the three selections of the local rules |
| RuleSync.BackendIds | src/nodeconductor_openstack/openstack/backend.py:698-707 | The ids deleted in the second round are the unsynchronized rules' backend ids, in order |
| RuleSync.PushRules | src/nodeconductor_openstack/openstack/backend.py:661-731 | The push fails exactly when two local rules share a known backend id; the extra ids it deletes are backend ids |
| RuleSync.PushDeletesExactlyOutOfSync | src/nodeconductor_openstack/openstack/backend.py:686-707 | A backend rule is deleted exactly when no local rule refers to it and agrees with it |
| RuleSync.PushCoversEveryLocalRule | src/nodeconductor_openstack/openstack/backend.py:686-729 | After a push each local rule either keeps an agreeing backend rule that is not deleted, or is sent as a create request |
| RuleSync.PushCreatesOnlyLocalRules | src/nodeconductor_openstack/openstack/backend.py:709-725 | Every create request comes from some local rule |
| RuleSync.ById | src/nodeconductor_openstack/openstack/backend.py:302-305 | The backend listing keyed by id is well keyed and has exactly the listed ids |
| RuleSync.ResyncCopiesBackend | src/nodeconductor_openstack/openstack/backend.py:330-336 | After the update step a kept rule equals the local copy of its backend rule, whether or not it differed |
| RuleSync.Kept | src/nodeconductor_openstack/openstack/backend.py:312-336 | The kept rules are exactly the local rules whose id the backend lists, each equal to the copy of its normalised backend rule |
| RuleSync.PullRules | src/nodeconductor_openstack/openstack/backend.py:295-349 | The pull fails exactly when two local rules share a backend id the backend lists (the lookup by id raises) |
| RuleSync.PullMirrorsBackend | src/nodeconductor_openstack/openstack/backend.py:295-349 | Otherwise the local rules afterwards are keyed by exactly the backend ids, each comparing equal to its normalised backend rule and carrying its id |
| RuleSync.PullDropsStaleRules | src/nodeconductor_openstack/openstack/backend.py:312-326 | A local rule whose id the backend does not list is gone after the pull |
| GroupSync.PairwiseEqualMeansEveryIndex | src/nodeconductor_openstack/openstack/backend.py:91-95 | Walking the two rule lists together agrees with comparing them index by index |
| GroupSync.GroupsEqualCharacterized | src/nodeconductor_openstack/openstack/backend.py:87-95 | Two groups are equal exactly when their names agree, they hold equally many rules and the rules are pairwise equal in order |
| GroupSync.RuleOrderMatters | src/nodeconductor_openstack/openstack/backend.py:91-95 | The same two rules listed in the other order make the groups unequal, because the comparison is positional |
| GroupSync.GroupsById | src/nodeconductor_openstack/openstack/backend.py:253-259 | The backend listing looked up by id: exactly the listed ids, each mapped to a listed group carrying that id |
| GroupSync.PulledRules | src/nodeconductor_openstack/openstack/backend.py:279 | A group's rules after its rules are pulled: one per backend rule, each comparing equal to the normalised backend rule |
| GroupSync.PullTenantGroups | src/nodeconductor_openstack/openstack/backend.py:239-293 | The pull fails exactly when two local groups share a listed backend id, or a group being overwritten holds two rules with one backend id; the two lookups that raise |
| GroupSync.PullNeverDeletesGroupsBeingCreated | src/nodeconductor_openstack/openstack/backend.py:253-254 | A group in CREATION_SCHEDULED or CREATING survives the pull even when the backend does not list it |
| GroupSync.PullLeavesGroupsBeingUpdated | src/nodeconductor_openstack/openstack/backend.py:260-262 | A listed group in UPDATING or UPDATE_SCHEDULED is left exactly as it was |
| GroupSync.PullKeepsKnownGroups | src/nodeconductor_openstack/openstack/backend.py:253-281 | Every group being created or listed by the backend is kept, after its update step |
| GroupSync.PullCoversBackend | src/nodeconductor_openstack/openstack/backend.py:257-291 | After the pull, every backend group has a local group with its id, either kept or newly created |
| GroupSync.PullRemovesStaleGroups | src/nodeconductor_openstack/openstack/backend.py:253-267 | Every group after the pull is listed by the backend or is a local group still being created |
| DefaultGroups.Translate | src/nodeconductor_openstack/handlers.py:51-55 | A configured ICMP type becomes the rule's from_port and an ICMP code its to_port, overriding any port given; without them the ports are taken as written |
| DefaultGroups.CreateSecurityGroup | src/nodeconductor_openstack/handlers.py:33-64 | A missing or empty name is refused first, then a rule list that is not a sequence; otherwise the group is created with its name and description, holding exactly the translated rules that pass full validation; at src/nodeconductor_openstack/openstack/handlers.py:22-66: the tenant application's handler refuses and filters configured groups and rules in the same way |
| DefaultGroups.CreateInitialGroups | src/nodeconductor_openstack/handlers.py:19-30 | Nothing is created unless the tenant row was just created, and at most one group per configured group |
| DefaultGroups.WellFormedGroupsAllCreated | src/nodeconductor_openstack/handlers.py:26-30 | A misconfigured group does not stop the others: every well-formed configured group is created |
| DefaultGroups.CreatedGroupsAreConfigured | src/nodeconductor_openstack/handlers.py:26-30 | Every created group comes from some configured group |
| DefaultGroups.AllValidRulesKept | src/nodeconductor_openstack/handlers.py:51-63 | When every translated rule is valid the group holds all of them, in configured order |
| DefaultGroups.IcmpRuleValid | src/nodeconductor_openstack/openstack/extension.py:8-81 | The configured icmp rule (type and code -1) passes validation once translated |
| DefaultGroups.TcpRuleValid | src/nodeconductor_openstack/openstack/extension.py:8-81 | A configured tcp rule with ports 1 <= from <= to <= 65535 passes validation |
| DefaultGroups.TenantDefaultsWellFormed | src/nodeconductor_openstack/openstack/extension.py:8-81 | The five default groups (allow-all, ssh, ping, rdp, web) have non-empty, pairwise distinct names, and every one of their rules passes validation after translation |
| DefaultGroups.TenantDefaultsAllCreated | src/nodeconductor_openstack/openstack/extension.py:8-81 | A new tenant gets all five default groups, each with all its configured rules |
| DefaultGroups.LegacyDefaultsWellFormed | src/nodeconductor_openstack/extension.py:8-26 | The legacy default group is named ssh and holds a tcp 22-22 rule and an icmp -1/-1 rule on 0.0.0.0/0, both valid |
| GroupDedup.FirstWhere | src/nodeconductor_openstack/openstack/migrations/0036_remove_security_group_duplicates.py:17-19 | The index found is the first row that satisfies the condition; none is found only when no row does |
| GroupDedup.Survivor | src/nodeconductor_openstack/openstack/migrations/0036_remove_security_group_duplicates.py:14-19 | A backend id has a survivor exactly when some row holds it, and the survivor is a row holding it |
| GroupDedup.SurvivorSnoc | src/nodeconductor_openstack/openstack/migrations/0036_remove_security_group_duplicates.py:15-19 | Scanning one more row changes the survivor only when that row holds the id and is the first with it, or is the first OK row with it |
| GroupDedup.ChooseSurvivors | src/nodeconductor_openstack/openstack/migrations/0036_remove_security_group_duplicates.py:12-19 | One pass over the rows picks, for every backend id present, the survivor chosen by the migration |
| GroupDedup.RemoveDuplicates | src/nodeconductor_openstack/openstack/migrations/0036_remove_security_group_duplicates.py:8-21 | The rows left are exactly the survivors, in their original order |
| GroupDedup.NoDuplicatesRemain | src/nodeconductor_openstack/openstack/migrations/0036_remove_security_group_duplicates.py:12-21 | Afterwards no two rows share a backend id, the empty id included |
| GroupDedup.EveryBackendIdSurvives | src/nodeconductor_openstack/openstack/migrations/0036_remove_security_group_duplicates.py:14-21 | Every backend id that was present is still held by some row |
| GroupDedup.SurvivorIsOkWhenPossible | src/nodeconductor_openstack/openstack/migrations/0036_remove_security_group_duplicates.py:15-17 | When any row with the id is in state OK (3), the survivor is in state OK |
| GroupDedup.FirstSurvivesOtherwise | src/nodeconductor_openstack/openstack/migrations/0036_remove_security_group_duplicates.py:18-19 | When no row with the id is OK, the first row with it survives |
| GroupDedup.UniqueGroupsUntouched | src/nodeconductor_openstack/openstack/migrations/0036_remove_security_group_duplicates.py:12-14 | A row whose backend id no other row holds is kept |
| Subnets.OctetAltSpellsOneTo254 | src/nodeconductor_openstack/openstack/extension.py:84 | The third-octet alternation of the subnet pattern matches exactly the decimal spellings, without leading zeros, of 1 to 254 |
| Subnets.FullMatchIsPrivateSlash24 | src/nodeconductor_openstack/openstack/extension.py:84-85 | The whole pattern matches a value exactly when it is 192.168.N.0/24 with N in 1..254, as the explanation shown to users says |
| Subnets.FullMatchPassesSearch | src/nodeconductor_openstack/openstack/serializers.py:405-408 | Every value of the promised form passes the validator |
| Subnets.SearchAcceptsWiderMask | src/nodeconductor_openstack/openstack/serializers.py:405-408 | The validator searches rather than matching the whole value, so 192.168.1.0/240 passes though it is not of the promised form |
| Subnets.CheckCidrAsWritten | src/nodeconductor_openstack/openstack/serializers.py:405-408 | A CIDR passes exactly when some part of it matches the pattern |
| Subnets.CheckCidr | src/nodeconductor_openstack/openstack/extension.py:84-85 | Corrected check: a CIDR passes exactly when it is 192.168.N.0/24 with N in 1..254 |
| Subnets.AsWrittenCidrCheckIsLooser | src/nodeconductor_openstack/openstack/serializers.py:405-408 | The two checks differ on 192.168.1.0/240 |
| Subnets.CheckCidrRefinesAsWritten | src/nodeconductor_openstack/openstack/serializers.py:405-408 | Everything the corrected check passes, the validator as written passes too |
| Subnets.DecimalValueOfDecimal | src/nodeconductor_openstack/openstack/extension.py:84 | Reading back the decimal spelling of a number gives the number |
| Subnets.DecimalOfDecimalValue | src/nodeconductor_openstack/openstack/extension.py:84 | A digit string without a leading zero is the spelling of its value |
| Subnets.SplitNPartsAreFree | src/nodeconductor_openstack/openstack/serializers.py:556 | Splitting at most n times yields at most n+1 parts; every part but the last holds no separator, and so does the last when fewer than n splits were made |
| Subnets.AllocationPool | src/nodeconductor_openstack/openstack/serializers.py:555-562 | The pool fails when the CIDR has fewer than three dots (the unpacking raises); otherwise it is one range whose start and end keep the first three dotted fields and end in .10 and .200 |
| Subnets.PoolOfDottedValue | src/nodeconductor_openstack/openstack/serializers.py:555-562 | For a.b.c.rest the pool is a.b.c.10 to a.b.c.200, whatever rest holds |
| Subnets.PoolKeepsNetwork | src/nodeconductor_openstack/openstack/serializers.py:555-562 | For an accepted subnet 192.168.N.0/24 the pool is 192.168.N.10 to 192.168.N.200 |
| Subnets.PoolStartBelowEnd | src/nodeconductor_openstack/openstack/extension.py:86-87 | The pool's start host is below its end host |
| Subnets.ValidateExternalNetwork | src/nodeconductor_openstack/openstack/serializers.py:189-219 | A present VLAN or VXLAN id that is blank once trimmed is refused first, then an address the IP check refuses; a request with neither id is refused, one with both is refused; it passes exactly when the address is valid, the prefix lies in 0..32, a given count is at least one, exactly one non-blank id is given and, with a count, the network has at least the count minus two addresses |
| Subnets.NoIpsCountAnyPrefix | src/nodeconductor_openstack/openstack/serializers.py:205-207 | Without an IP count a request with one non-blank VLAN id and a valid address is accepted for every prefix in 0..32 |
| Subnets.BlankIdRefused | src/nodeconductor_openstack/openstack/serializers.py:190-191 | A VLAN or VXLAN id that is blank once trimmed is refused, even beside a usable id of the other kind |
| Subnets.NetworkSizeShrinks | src/nodeconductor_openstack/openstack/serializers.py:212-217 | A longer prefix never gives a larger network, so a count accepted for one prefix is accepted for every shorter one |
| Subnets.ValidateSubnet | src/nodeconductor_openstack/openstack/serializers.py:541-546 | Creating a subnet is refused exactly when its network already has one; updates are never refused |
| TextFields.Trim | src/nodeconductor_openstack/openstack/serializers.py:190-191 | A text field keeps the slice of its value between the leading and the trailing whitespace: the result neither starts nor ends with whitespace and only whitespace surrounds it |
| TextFields.BlankIsAllWhitespace | src/nodeconductor_openstack/openstack/serializers.py:190-191 | A value is blank, and refused by a field that does not allow blank values, exactly when all its characters are whitespace |
| TextFields.TrimIdempotent | src/nodeconductor_openstack/openstack/serializers.py:190-191 | Trimming an already trimmed value changes nothing |
| PulledFields.UpdatePulledFields | src/nodeconductor_openstack/openstack_base/backend.py:46-61 | Fails exactly when a listed field is missing from either object; otherwise every listed field takes the imported value, every other field is kept, and the record is saved exactly when some listed field differed; at src/nodeconductor_openstack/backend.py:167-182: the legacy copy of the routine behaves the same way |
| PulledFields.PullIsIdempotent | src/nodeconductor_openstack/openstack_base/backend.py:46-61 | A second update with the same imported object changes nothing and saves nothing |
| PulledFields.NoChangeNoSave | src/nodeconductor_openstack/openstack_base/backend.py:51-61 | When all listed fields already agree, the record is unchanged and not saved |
| PulledFields.DiffersStep | src/nodeconductor_openstack/openstack_base/backend.py:52-59 | Updating one field keeps the rest of the fields present, and some field differs exactly when the first one does or some later one still does |
| TenantFloatingIps.ListedById | src/nodeconductor_openstack/openstack/backend.py:197-201 | The listing keyed by id holds exactly the entries with both an address and a status |
| TenantFloatingIps.PullTenantFloatingIps | src/nodeconductor_openstack/openstack/backend.py:192-236 | After the pull the stored ids are exactly the usable backend ids; each IP carries the backend address and network, and the backend status unless it was BOOKED locally and the backend says DOWN |
| TenantFloatingIps.BookedIpStaysBooked | src/nodeconductor_openstack/openstack/backend.py:230-232 | A booked IP that the backend still reports DOWN stays BOOKED |
| TenantFloatingIps.StaleIpDeleted | src/nodeconductor_openstack/openstack/backend.py:209-212 | An IP the backend does not list, or lists without address or status, is deleted |
| TenantFloatingIps.NewIpImported | src/nodeconductor_openstack/openstack/backend.py:214-222 | An IP only the backend knows is created from the backend entry |
| TenantFloatingIps.TenantPullIdempotent | src/nodeconductor_openstack/openstack/backend.py:192-236 | Pulling again from the same listing changes nothing |
| TenantFloatingIps.IgnoredEntriesChangeNothing | src/nodeconductor_openstack/openstack/backend.py:200 | A backend entry without address or status has no effect on the pull |
| TenantFloatingIps.AssignFloatingIp | src/nodeconductor_openstack/backend.py:1673-1702 | The assignment fails exactly when the backend refuses it; the IP then returns to DOWN and the instance's external IPs are untouched; on success it becomes ACTIVE and the instance's external IPs are its address |
| KeyedScan.Sweep | src/nodeconductor_openstack/openstack_tenant/backend.py:200-201 | The final sweep keeps exactly the stored records whose ids are no longer pending, unchanged |
| KeyedScan.StepLocal | src/nodeconductor_openstack/openstack_tenant/backend.py:174-198 | Handling one backend entry changes only what is held under that entry's id |
| KeyedScan.FoldFixed | src/nodeconductor_openstack/openstack_tenant/backend.py:174-198 | When no entry for an id changes what is held under it, the whole scan leaves that id as it was |
| KeyedScan.FoldOnce | src/nodeconductor_openstack/openstack_tenant/backend.py:174-198 | With distinct backend ids, what the scan leaves under an entry's id is that entry's handling step applied to the starting slot |
| SettingsFloatingIps.StartAt | src/nodeconductor_openstack/openstack_tenant/backend.py:163-168 | Before the scan, an IP with an empty backend id or a booked one is stored but not pending, every other stored IP is pending, and the booked ids are exactly the stored booked IPs |
| SettingsFloatingIps.PullFloatingIpsAsWritten | src/nodeconductor_openstack/openstack_tenant/backend.py:154-201 | As written, no IP appears that is neither stored nor listed by the backend, booked IPs stay exactly as they were, and a stored IP the backend does not list survives exactly when it is booked or has an empty backend id |
| SettingsFloatingIps.PullFloatingIps | src/nodeconductor_openstack/openstack_tenant/backend.py:154-201 | Corrected pull: no IP appears that is neither stored nor listed, and with distinct backend ids every stored IP that the backend lists is still stored afterwards |
| SettingsFloatingIps.NothingInvented | src/nodeconductor_openstack/openstack_tenant/backend.py:173-198 | An IP present after either pull was stored before or is listed by the backend |
| SettingsFloatingIps.ListedIpKept | src/nodeconductor_openstack/openstack_tenant/backend.py:177-182 | Corrected pull: with distinct backend ids, a stored IP the backend lists stays stored, whatever its entry's port |
| SettingsFloatingIps.BookedIpUntouched | src/nodeconductor_openstack/openstack_tenant/backend.py:166-168 | A booked IP is never updated or deleted by the pull |
| SettingsFloatingIps.StaleIpDeleted | src/nodeconductor_openstack/openstack_tenant/backend.py:163-201 | A stored unbooked IP the backend does not list is deleted when it has a backend id; one with an empty backend id was never pending and stays as it was |
| SettingsFloatingIps.UnknownPortNotCreated | src/nodeconductor_openstack/openstack_tenant/backend.py:177-180 | A backend IP whose port refers to an internal IP that is not stored is not created |
| SettingsFloatingIps.NewIpImported | src/nodeconductor_openstack/openstack_tenant/backend.py:182-187 | A new backend IP is created named after its address, with the backend address, status and network, not booked, and linked to the stored internal IP of its port when it has one; at src/nodeconductor_openstack/openstack_tenant/backend.py:203-218: the imported record takes its name and address from the backend address and its runtime state from the backend status |
| SettingsFloatingIps.KnownIpUpdated | src/nodeconductor_openstack/openstack_tenant/backend.py:193-198 | A stored IP with a backend id takes the backend address, status and network; a name the user changed (different from the old address) survives, otherwise the name follows the address |
| SettingsFloatingIps.UnknownPortKeepsStoredIp | src/nodeconductor_openstack/openstack_tenant/backend.py:177-182 | Corrected pull: a stored IP whose backend entry is skipped stays stored unchanged |
| SettingsFloatingIps.UnknownPortDeletesStoredIpAsWritten | src/nodeconductor_openstack/openstack_tenant/backend.py:177-201 | As written, a stored unbooked IP whose backend entry is skipped is still pending at the sweep and is deleted, unless its backend id is empty |
| SettingsFloatingIps.AsWrittenDeletesKnownIp | src/nodeconductor_openstack/openstack_tenant/backend.py:177-201 | The concrete case of the unit test: a known IP on an unknown port is deleted as written and kept by the corrected pull |
| InstanceSync.PushInstanceSecurityGroups | src/nodeconductor_openstack/backend.py:761-797 | The groups removed are on the server but not linked locally, the groups added are linked locally (with a backend id) but not on the server |
| InstanceSync.PushMakesServerMatch | src/nodeconductor_openstack/backend.py:761-797 | After the removals and additions the server holds exactly the locally linked groups that have backend ids |
| InstanceSync.PushOnMatchingServerIsEmpty | src/nodeconductor_openstack/backend.py:761-797 | A server that already matches gets no calls |
| InstanceSync.PullInstanceSecurityGroups | src/nodeconductor_openstack/backend.py:800-829 | The lookup of a missing group fails when the tenant holds two groups with its backend id: the pull fails exactly when such a group exists, naming those ids and the links left after the stale groups were removed; otherwise the instance links exactly the server's groups that were linked or exist in the tenant, and a linked group without backend id stays linked; at src/nodeconductor_openstack/openstack_tenant/backend.py:1019-1047: the settings-scoped pull does the same with the groups of the settings |
| InstanceSync.PullInstanceGroupsIdempotent | src/nodeconductor_openstack/backend.py:800-829 | When a pull succeeds, pulling again from the same server listing succeeds and changes nothing |
| InstanceSync.PullThenPushRemovesOnlyForeignGroups | src/nodeconductor_openstack/backend.py:761-829 | After a successful pull, a push with the same listing adds nothing and removes only the server's groups unknown to the instance and to the tenant |
| InstanceSync.DuplicateTenantGroupFailsPull | src/nodeconductor_openstack/backend.py:816-829 | A server group the tenant holds twice fails the pull, and the stale link removed before the lookup stays removed |
| InstanceSync.InstancesForImport | src/nodeconductor_openstack/backend.py:996-1010 | There are never more candidates than servers |
| InstanceSync.ImportCandidatesAreImportable | src/nodeconductor_openstack/backend.py:996-1010 | Every candidate comes from a server that is not yet known and whose status does not map to ERRED |
| InstanceSync.ImportableServersAreOffered | src/nodeconductor_openstack/backend.py:996-1010 | Every unknown server whose status does not map to ERRED is offered |
| InstanceSync.ErredServersNotOffered | src/nodeconductor_openstack/backend.py:1009-1010 | No candidate's status maps to ERRED |
| InstanceSync.SystemAndDataVolumes | src/nodeconductor_openstack/backend.py:1084-1091 | Instance creation proceeds exactly when there are two volumes, one bootable and one not; the first returned is the bootable system volume, the second the data volume; at src/nodeconductor_openstack/models.py:246-280: the system volume is the instance's bootable volume and the data volume its non-bootable one |
| InstanceSync.RequestedDevice | src/nodeconductor_openstack/openstack_tenant/backend.py:356-357 | An empty device is sent as no device; any other device is sent as given |
| InstanceSync.AttachVolume | src/nodeconductor_openstack/openstack_tenant/backend.py:351-363 | The volume records the instance and device only when the backend accepted the attachment, and is unchanged otherwise |
| ResourcePull.PullOne | src/nodeconductor_openstack/openstack_tenant/tasks.py:235-295 | A resource outside OK/ERRED is not touched; one the backend does not list becomes ERRED with an empty runtime state and the message 'Does not exist at backend.'; a listed one takes every pulled field from the backend, is OK afterwards, has its error cleared if it was ERRED, and for instances takes the backend's security groups |
| ResourcePull.PullResources | src/nodeconductor_openstack/openstack_tenant/tasks.py:235-279 | The pull of all resources succeeds exactly when each resource's pull does, and then handles each resource on its own, keeping order; a failure names the first failing resource, with every earlier one saved as pulled and every later one left as it was |
| ResourcePull.FailedPullKeepsEachResourcePulledOrUntouched | src/nodeconductor_openstack/openstack_tenant/tasks.py:235-279 | After a failed pull every resource is either as it was or as its own pull left it |
| ResourcePull.PullOneIdempotent | src/nodeconductor_openstack/openstack_tenant/tasks.py:288-295 | Pulling a resource again from the same backend record changes nothing |
| ResourcePull.PullResourcesIdempotent | src/nodeconductor_openstack/openstack_tenant/tasks.py:235-279 | Pulling all resources again from the same listing changes nothing |
| InternalIps.SkippedIdUntouched | src/nodeconductor_openstack/openstack_tenant/backend.py:905-922 | An id with no port on a stored subnet is absent after the pull, unless it is the empty backend id of a stored IP, which stays exactly as it was |
| InternalIps.UsablePortPulled | src/nodeconductor_openstack/openstack_tenant/backend.py:911-919 | A port on a stored subnet leaves an IP under its id: the stored IP updated from the port when it has a backend id, a new one from the port otherwise |
| InternalIps.PulledIdsAreUsablePorts | src/nodeconductor_openstack/openstack_tenant/backend.py:905-922 | With distinct port ids, the stored ids after the pull are exactly the ids of the ports on stored subnets, plus the empty id when a stored IP has it |
| InternalIps.KnownIpUpdated | src/nodeconductor_openstack/openstack_tenant/backend.py:911-919 | A stored IP with a backend id takes the port's MAC and IPv4 address and keeps its subnet |
| InternalIps.KnownIpOnUnknownSubnetDeleted | src/nodeconductor_openstack/openstack_tenant/backend.py:905-922 | A stored IP whose port is now on an unknown subnet is skipped before it leaves the pending map, so it is deleted unless its backend id is empty |
| InternalIps.PullInternalIpsIdempotent | src/nodeconductor_openstack/openstack_tenant/backend.py:894-922 | Pulling again from the same ports changes nothing |
| InternalIps.ReadPorts | src/nodeconductor_openstack/openstack_tenant/backend.py:967-980 | Reading the listing succeeds exactly when every port has a fixed IP, and then gives one port per entry, in order, with its id, MAC and the address and subnet of its first fixed IP; otherwise the error names the first port without one |
| InternalIps.PullInstanceInternalIps | src/nodeconductor_openstack/openstack_tenant/backend.py:894-922 | The pull fails exactly when some port has no fixed IP; otherwise no IP appears that is neither stored nor listed, and a stored IP with an empty backend id survives unchanged when no port carries that id |
| InternalIps.StartAt | src/nodeconductor_openstack/openstack_tenant/backend.py:905 | Before the scan, every stored IP with a backend id is pending and one with an empty backend id is stored but not pending |
| InternalIps.NothingInvented | src/nodeconductor_openstack/openstack_tenant/backend.py:905-922 | An IP present after the pull was stored before or is carried by a port |
| Quotas.Set | src/nodeconductor_openstack/models.py:306-316 | Setting one quota leaves every other quota as it was |
| Quotas.AddUsage | src/nodeconductor_openstack/models.py:306-316 | A validated change that would exceed the quota is refused with that quota's name and changes nothing; otherwise only that quota's usage moves, by exactly the delta |
| Quotas.IncreaseInstance | src/nodeconductor_openstack/models.py:306-310 | Creating an instance adds 1 to instances, its RAM to ram and its cores to vcpu, and touches no other quota; at src/nodeconductor_openstack/openstack_tenant/models.py:207-211: the settings-scoped instance adds 1, RAM and cores to the same three quotas, without validation |
| Quotas.DecreaseInstance | src/nodeconductor_openstack/models.py:312-316 | Deleting an instance takes the same amounts back, and touches no other quota |
| Quotas.IncreaseVolume | src/nodeconductor_openstack/models.py:525-531 | A volume adds 1 to volumes and its size to storage, refused when validated and either quota would be exceeded; at src/nodeconductor_openstack/openstack_tenant/models.py:109-117: the settings-scoped volume uses the same two quotas in the same way |
| Quotas.DecreaseVolume | src/nodeconductor_openstack/openstack_tenant/models.py:114-117 | Deleting a volume takes 1 from volumes and its size from storage, and nothing else |
| Quotas.IncreaseSnapshot | src/nodeconductor_openstack/models.py:596-602 | A snapshot adds 1 to snapshots and its size to storage, refused when validated and either would be exceeded; at src/nodeconductor_openstack/openstack_tenant/models.py:139-147: the settings-scoped snapshot uses the same two quotas in the same way |
| Quotas.DecreaseSnapshot | src/nodeconductor_openstack/openstack_tenant/models.py:144-147 | Deleting a snapshot takes 1 from snapshots and its size from storage, and nothing else |
| Quotas.IncreaseVolumeBackup | src/nodeconductor_openstack/models.py:561-565 | A volume backup touches only backup storage, adding its size |
| Quotas.DecreaseVolumeBackup | src/nodeconductor_openstack/models.py:561-565 | Deleting a volume backup takes its size back from backup storage only |
| Quotas.InstanceRoundTrip | src/nodeconductor_openstack/openstack_tenant/models.py:207-217 | Increasing and then decreasing for the same instance restores every quota |
| Quotas.VolumeRoundTrip | src/nodeconductor_openstack/openstack_tenant/models.py:109-117 | An accepted volume increase followed by the decrease restores every quota |
| Quotas.SnapshotRoundTrip | src/nodeconductor_openstack/openstack_tenant/models.py:139-147 | An accepted snapshot increase followed by the decrease restores every quota |
| Quotas.VolumeBackupRoundTrip | src/nodeconductor_openstack/models.py:561-565 | An accepted volume-backup increase followed by the decrease restores every quota |
| Quotas.ValidatedVolumeStaysWithinLimits | src/nodeconductor_openstack/models.py:525-528 | After a validated volume increase, volumes and storage usage are within their limits |
| Quotas.FloatingIpDelta | src/nodeconductor_openstack/handlers.py:67-73 | Every save of a floating IP moves the count by at most one |
| Quotas.FloatingIpCountTracksStatus | src/nodeconductor_openstack/openstack/handlers.py:70-76 | Over the life of an IP, from creation through any status updates, the total change of floating_ip_count is 1 exactly when its current status is not DOWN, and 0 otherwise |
| Quotas.CheckGroupCreate | src/nodeconductor_openstack/openstack/serializers.py:272-282 | Creating a group is refused on the group count first, then on the rule count grown by the number of submitted rules; otherwise accepted |
| Quotas.CheckGroupUpdate | src/nodeconductor_openstack/openstack/serializers.py:283-291 | An update that does not grow the rule count is always accepted; one that does is refused exactly when the growth exceeds the rule quota |
| Quotas.AcceptedGroupFits | src/nodeconductor_openstack/openstack/serializers.py:272-282 | After an accepted creation is counted, both security-group quotas are within their limits |
| Quotas.InstanceSize | src/nodeconductor_openstack/openstack_tenant/models.py:186-188 | An instance without volumes has no size (the sum is null); otherwise its size is defined |
| Quotas.InstanceSizeGrowsByVolume | src/nodeconductor_openstack/openstack_tenant/models.py:186-188 | Adding a volume adds its size to the instance's size, so the size is the sum of the volume sizes |
| Quotas.First | src/nodeconductor_openstack/models.py:246-268 | The first volume satisfying a condition, or none exactly when none does |
| Quotas.VolumeRoles | src/nodeconductor_openstack/models.py:246-268 | The system volume is a bootable volume of the instance and the data volume a non-bootable one; each is absent exactly when no volume of that kind exists |
| TenantQuotas.TenantLimits | src/nodeconductor_openstack/openstack_base/backend.py:270-280 | The limits read from the three services give a value for exactly the nine tenant quotas |
| TenantQuotas.PushTenantQuotas | src/nodeconductor_openstack/openstack/backend.py:153-172 | Each service receives only its own quota names; gigabytes are sent exactly when a storage quota is supplied and non-null, converted from MiB to GiB |
| TenantQuotas.PushedNames | src/nodeconductor_openstack/openstack/backend.py:153-172 | Every other service quota is sent exactly when its tenant quota is supplied and non-null; vcpu is sent as cores and the security-group counts as security_group and security_group_rule, with their values unchanged |
| TenantQuotas.PushNothing | src/nodeconductor_openstack/openstack/backend.py:153-172 | When no quota is supplied nothing is sent to any service |
| TenantQuotas.PushUndoesLimits | src/nodeconductor_openstack/openstack_base/backend.py:256-280 | Pushing back the limits just read sends every service its own quota values, as long as converting GiB to MiB and back is lossless |
| TenantQuotas.TenantUsage | src/nodeconductor_openstack/openstack_base/backend.py:282-320 | Usage gives a value for exactly the nine tenant quotas; volumes, snapshots, instances, security groups and floating IPs are counts of the listings |
| TenantQuotas.SumGb2Mb | src/nodeconductor_openstack/openstack_base/backend.py:313 | Converting each size to MiB and summing equals converting the total |
| TenantQuotas.StorageUsageIsTotalSize | src/nodeconductor_openstack/openstack_base/backend.py:313 | Storage usage is the total size of all volumes and snapshots, in MiB |
| TenantQuotas.UnknownFlavorSkipped | src/nodeconductor_openstack/openstack_base/backend.py:296-301 | A server whose flavor cannot be fetched counts as an instance but adds no RAM or vCPUs (the fetch runs even for listed flavors) |
| TenantQuotas.FoundFlavorCounted | src/nodeconductor_openstack/openstack_base/backend.py:298-304 | A server whose flavor is found adds that flavor's RAM and vCPUs, 0 for a missing attribute, preferring the listed flavor |
| TenantQuotas.RuleCountAddsGroups | src/nodeconductor_openstack/openstack_base/backend.py:317-318 | Each security group adds one to the group count and its number of rules to the rule count |
| Polling.FirstHit | src/nodeconductor_openstack/tasks/base.py:27-36 | The attempt found is the first in the window that satisfies the condition; none is found only when none does |
| Polling.PollRuntimeState | src/nodeconductor_openstack/tasks/base.py:27-36 | The poll finishes at the first attempt that sees the success state, raises at the first attempt that sees the erred state, and fails with retries exhausted exactly when no allowed attempt sees either; at src/nodeconductor_openstack/openstack_tenant/tasks.py:38-48: the tenant-scoped runtime poll decides in the same way |
| Polling.SameStatesNeverFinish | src/nodeconductor_openstack/tasks/base.py:31-35 | When the success and erred states coincide the poll can never finish, because the erred check wins |
| Polling.AlreadySettledFinishesAtOnce | src/nodeconductor_openstack/tasks/base.py:31-36 | A resource already in the success state finishes at the first attempt |
| Polling.PollBackendCheck | src/nodeconductor_openstack/tasks/base.py:39-51 | The check poll succeeds at the first attempt whose check holds, and fails exactly when none of the allowed attempts holds |
| Polling.BackendCheckBounded | src/nodeconductor_openstack/tasks/base.py:40 | With 60 retries the check succeeds, if at all, within 61 attempts |
| Polling.WaitForObjectStatus | src/nodeconductor_openstack/backend.py:397-417 | The wait returns true exactly when some read within the allowed number sees the complete status before any earlier read saw the complete or the error status |
| Throttle.ConfiguredLimitsAreDefault | src/nodeconductor_openstack/extension.py:28-32 | The configured limit of every kind equals the default limit of 4 |
| Throttle.StartingAddsOne | src/nodeconductor_openstack/openstack_tenant/tasks.py:97-103 | A resource that starts being created adds one to its kind's count on its settings |
| Throttle.OthersDoNotCount | src/nodeconductor_openstack/openstack_tenant/tasks.py:97-103 | Resources of another kind, or on other settings, do not count |
| Throttle.IsAvailableAsWritten | src/nodeconductor_openstack/openstack_tenant/tasks.py:92-95 | As written, admission holds exactly when the count after starting one more creation stays within the limit plus one, since the usage may equal the limit |
| Throttle.IsAvailable | src/nodeconductor_openstack/openstack_tenant/tasks.py:83-95 | Corrected admission holds exactly when the count after starting one more creation stays within the limit |
| Throttle.AdmissionKeepsLimit | src/nodeconductor_openstack/openstack_tenant/tasks.py:83-95 | Corrected admission: with the count below the limit, the creations never exceed the limit |
| Throttle.AdmissionAsWrittenExceedsLimit | src/nodeconductor_openstack/openstack_tenant/tasks.py:92-95 | As written, admission bounds the creations only by the limit plus one |
| Throttle.FifthInstanceAdmittedAsWritten | src/nodeconductor_openstack/openstack_tenant/tasks.py:92-109 | With four instances being created a fifth is admitted as written, making five, while the corrected check holds it back |
| Periodic.SetErredStuck | src/nodeconductor_openstack/openstack/tasks/celerybeat.py:100-110 | The sweep keeps every resource, in order |
| Periodic.StuckResourceErred | src/nodeconductor_openstack/openstack/tasks/celerybeat.py:100-110 | A resource in the source state last modified more than 30 minutes ago becomes ERRED with 'Provisioning is timed out.' |
| Periodic.OtherResourcesUntouched | src/nodeconductor_openstack/openstack_tenant/tasks.py:339-349 | Every other resource is left as it was |
| Periodic.SetErredStuckLegacy | src/nodeconductor_openstack/tasks/celerybeat.py:108-122 | Each of the three lists keeps its length, and an entry changes exactly when it is stuck: old-style instances in PROVISIONING, volumes and snapshots in CREATING, modified more than 30 minutes ago |
| Periodic.SetErredStuckResources | src/nodeconductor_openstack/openstack_tenant/tasks.py:339-349 | Each of the three lists keeps its length, and an instance, volume or snapshot changes exactly when it has been CREATING since more than 30 minutes ago |
| Periodic.SweepIdempotent | src/nodeconductor_openstack/openstack_tenant/tasks.py:339-349 | Sweeping twice at the same time is the same as sweeping once |
| Periodic.LegacyInstancesUseProvisioning | src/nodeconductor_openstack/tasks/celerybeat.py:108-122 | Old-style instances are timed out from PROVISIONING, and an instance in any other state is untouched |
| Periodic.BoundaryNotStuck | src/nodeconductor_openstack/tasks/celerybeat.py:118-119 | A resource modified exactly 30 minutes ago is not timed out, since the cutoff is strict |
| Periodic.ScheduleRunsIffDue | src/nodeconductor_openstack/tasks/celerybeat.py:92-96 | A schedule runs exactly when it is active and its next trigger time has passed; at src/nodeconductor_openstack/openstack/tasks/celerybeat.py:84-88: the newer periodic task selects schedules the same way |
| Periodic.SchedulesToRun | src/nodeconductor_openstack/tasks/celerybeat.py:92-96 | The schedules run are drawn from the stored ones, each active with its trigger time passed, and every such stored schedule is run |
| Periodic.BackupExpiresIffOkAndPast | src/nodeconductor_openstack/tasks/celerybeat.py:99-105 | A backup or DR backup is deleted exactly when it is OK and its keep-until time has passed; at src/nodeconductor_openstack/openstack/tasks/celerybeat.py:91-97: the newer periodic task selects expired backups the same way |
| Periodic.ExpiredBackups | src/nodeconductor_openstack/tasks/celerybeat.py:99-105 | Every backup or DR backup deleted is one of the stored ones, OK, with a keep-until time that has passed; at most all of them are deleted |
| Periodic.KeptForeverNeverExpires | src/nodeconductor_openstack/tasks/celerybeat.py:102-104 | A backup without a keep-until time is never deleted as expired |
| Periodic.PulledIffStableWithBackendId | src/nodeconductor_openstack/tasks/celerybeat.py:77-83 | An instance is pulled exactly when it has a backend id and is ERRED, ONLINE or OFFLINE |
| Periodic.InstancesToPull | src/nodeconductor_openstack/tasks/celerybeat.py:77-83 | Every instance pulled is a stored one with a backend id that is ERRED, ONLINE or OFFLINE |
| Periodic.OnPullSuccess | src/nodeconductor_openstack/tasks/celerybeat.py:30-37 | A successful pull clears the error message of an instance that is not ERRED and leaves an ERRED one as it was; at src/nodeconductor_openstack/openstack/tasks/celerybeat.py:30-37: the newer pull task clears the message in the same way |
| States.Code | src/nodeconductor_openstack/openstack/migrations/0002_volume.py:36 | Every resource state is stored as a code from 1 to 8 |
| States.FromCode | src/nodeconductor_openstack/openstack/migrations/0002_volume.py:36 | Exactly the codes 1 to 8 name a state, and reading a code back gives the same code |
| States.CodeRoundTrip | src/nodeconductor_openstack/openstack/migrations/0002_volume.py:36 | Storing a state and reading it back gives the same state |
| States.CodeInjective | src/nodeconductor_openstack/openstack/migrations/0002_volume.py:36 | Distinct states are stored as distinct codes |
| InstanceStates.FromNovaStatus | src/nodeconductor_openstack/backend.py:332-357 | ACTIVE, PASSWORD and RESCUED map to ONLINE; BUILDING to PROVISIONING; HARD_REBOOT, REBOOT and REVERT_RESIZE to STOPPING; REBUILD to STARTING; PAUSED, RESIZED, SHUTOFF, STOPPED, SUSPENDED and VERIFY_RESIZE to OFFLINE; each in both directions |
| InstanceStates.UnknownNovaStatusIsErred | src/nodeconductor_openstack/backend.py:355-357 | Any status outside the table maps to ERRED |
| FailurePolicies.Clean | src/nodeconductor_openstack/openstack_tenant/tasks.py:129-136 | Every sub-resource is either deleted or kept, none lost or duplicated |
| FailurePolicies.CleanIsSelection | src/nodeconductor_openstack/openstack_tenant/tasks.py:129-136 | The deleted sub-resources are exactly those the policy deletes, in order; the kept ones are the others, in order, marked ERRED where the policy says so |
| FailurePolicies.DeletedIffPolicyDeletes | src/nodeconductor_openstack/openstack_tenant/tasks.py:129-136 | A sub-resource is deleted exactly when the policy deletes its state |
| FailurePolicies.SurvivorKept | src/nodeconductor_openstack/openstack_tenant/tasks.py:129-136 | A sub-resource the policy does not delete is kept, marked ERRED when the policy says so and unchanged otherwise |
| FailurePolicies.KeptComesFromSurvivor | src/nodeconductor_openstack/openstack_tenant/tasks.py:129-136 | Every kept sub-resource comes from one the policy does not delete |
| FailurePolicies.KeptStates | src/nodeconductor_openstack/openstack_tenant/tasks.py:129-136 | Every kept sub-resource is ERRED or in a state the policy keeps |
| FailurePolicies.CleanSplitsSizes | src/nodeconductor_openstack/openstack/tasks/backup.py:16-23 | The total size of the sub-resources is the size kept plus the size deleted, so decrementing quotas for the deleted ones keeps usage equal to what remains |
| FailurePolicies.CleanIdempotent | src/nodeconductor_openstack/openstack_tenant/tasks.py:129-136 | Running the cleanup again on what it kept deletes nothing and changes nothing |
| FailurePolicies.SparesOkSettles | src/nodeconductor_openstack/openstack/tasks/backup_restoration.py:17-24 | Under the policy that spares OK resources, everything kept is OK or ERRED |
| FailurePolicies.ErrsAllErrs | src/nodeconductor_openstack/openstack/tasks/backup.py:16-23 | Under the policy that errs everything not deleted, everything kept is ERRED, OK resources included |
| FailurePolicies.SetInstanceErred | src/nodeconductor_openstack/openstack_tenant/tasks.py:120-136 | The instance becomes ERRED; exactly its CREATION_SCHEDULED volumes are deleted; OK volumes are kept unchanged and every other volume is kept as ERRED |
| FailurePolicies.SetBackupRestorationErred | src/nodeconductor_openstack/openstack/tasks/backup_restoration.py:11-24 | The restored instance becomes ERRED; exactly its CREATION_SCHEDULED volumes are deleted, OK volumes are kept unchanged, the rest become ERRED |
| FailurePolicies.InstanceFailureIdempotent | src/nodeconductor_openstack/openstack_tenant/tasks.py:120-136 | Running the instance failure handler again on the volumes it left deletes nothing and changes nothing |
| FailurePolicies.SetBackupErred | src/nodeconductor_openstack/openstack/tasks/backup.py:11-32 | The backup becomes ERRED with its error; exactly its CREATION_SCHEDULED snapshots are released; every other snapshot, OK ones included, becomes ERRED; an owning schedule is deactivated with the error message naming the instance and the runtime state 'Failed to create backup'; at src/nodeconductor_openstack/openstack_tenant/tasks.py:139-159: the tenant-scoped handler does the same but does not set the schedule's runtime state |
| FailurePolicies.BackupFailureKeepsStorageAccounted | src/nodeconductor_openstack/openstack/tasks/backup.py:16-20 | After the released snapshots' storage is given back, the usage still counts exactly the snapshots that remain |
| FailurePolicies.ForceDeleteBackup | src/nodeconductor_openstack/openstack/tasks/backup.py:35-39 | Force delete removes every snapshot of the backup, in order, and then the backup |
| FailurePolicies.TenantCreateError | src/nodeconductor_openstack/openstack/tasks/base.py:15-30 | The tenant becomes ERRED; the subnet and the network are each deleted exactly when CREATION_SCHEDULED and otherwise become ERRED |
| FailurePolicies.TenantErrorFollowsErrsAll | src/nodeconductor_openstack/openstack/tasks/base.py:21-30 | The tenant failure handler treats the subnet and the network by the same policy as the backup failure handler treats snapshots |
| FailurePolicies.TenantCreateSuccess | src/nodeconductor_openstack/openstack/tasks/base.py:33-41 | Success sets the network, the subnet and the tenant OK |
| FailurePolicies.DRCleanSparesOk | src/nodeconductor_openstack/tasks/dr_backup.py:11-25 | Considering only the non-OK resources and erring all of them amounts to the policy that spares OK resources |
| FailurePolicies.SetDRBackupErred | src/nodeconductor_openstack/tasks/dr_backup.py:9-36 | The DR backup becomes ERRED with runtime state 'Erred'; exactly its CREATION_SCHEDULED temporary volumes, snapshots and volume backups are released; OK ones are kept; everything kept is OK or ERRED; an owning schedule is deactivated with the error message and 'Failed to create backup' |
| FailurePolicies.CleanUpDRBackup | src/nodeconductor_openstack/tasks/dr_backup.py:39-53 | Clean-up schedules the deletion of every temporary snapshot and then every temporary volume, in order, and makes the DR backup 'Available' without other changes |
| FailurePolicies.ForceDeleteDRBackup | src/nodeconductor_openstack/tasks/dr_backup.py:56-60 | Force delete removes every volume backup, in order, and then the DR backup |
| FailurePolicies.Related | src/nodeconductor_openstack/tasks/dr_backup_restoration.py:69-72 | Every restored volume and every mirrored backup of the restoration is among the related resources |
| FailurePolicies.SetDRRestorationErredAsWritten | src/nodeconductor_openstack/tasks/dr_backup_restoration.py:62-84 | As written the instance becomes ERRED but, with any volume restoration present, reading the misspelled field raises before any related resource is cleaned |
| FailurePolicies.SetDRRestorationErred | src/nodeconductor_openstack/tasks/dr_backup_restoration.py:62-84 | Corrected: the instance becomes ERRED; exactly the CREATION_SCHEDULED related resources are deleted, OK ones kept unchanged, all others ERRED |
| FailurePolicies.ScheduledVolumeLeftBehindAsWritten | src/nodeconductor_openstack/tasks/dr_backup_restoration.py:72 | A CREATION_SCHEDULED restored volume is left behind as written and deleted by the corrected handler |
| FailurePolicies.RestoreVolumeOriginName | src/nodeconductor_openstack/tasks/dr_backup_restoration.py:15-24 | The restored volume takes the backup's name and description and keeps its identity and size |
| ActionLog.ActionSlug | src/nodeconductor_openstack/openstack_tenant/handlers.py:44 | The action with spaces turned into underscores and ASCII capitals lowered, letter for letter: same length, no spaces, no capitals, other characters kept |
| ActionLog.SlugIdempotent | src/nodeconductor_openstack/openstack_tenant/handlers.py:44 | Slugging a slug changes nothing |
| ActionLog.EventType | src/nodeconductor_openstack/openstack_tenant/handlers.py:43-44 | The event type is 'resource_', then the slugged action, then '_' and the event state |
| ActionLog.ActionMessage | src/nodeconductor_openstack/openstack_tenant/handlers.py:39-40 | The message is the details' 'message' entry when there is one and the action otherwise; the details lose exactly the 'message' key |
| ActionLog.LogAction | src/nodeconductor_openstack/openstack_tenant/handlers.py:47-67 | At most one event, logged exactly when the resource was not just created, its action changed and it is UPDATE_SCHEDULED, OK or ERRED; scheduled events name the new action, succeeded (info) and failed (warning) events the previous one; the event details never hold the message |
| ActionLog.SucceededUsesPreviousDetails | src/nodeconductor_openstack/openstack_tenant/handlers.py:19-26 | A succeeded event's text quotes the previous action's message and names the lower-cased class and the resource |
| ActionLog.LogTenantQuotaUpdate | src/nodeconductor_openstack/openstack/handlers.py:105-121 | At most one event, logged exactly when an existing tenant quota changed its limit; it is an info event of type openstack_tenant_quota_limit_updated carrying the quota name, tenant name and new limit, and its text starts with the quota name and ends with the tenant name and a full stop |
| ActionLog.QuotaChangeLoggedOnce | src/nodeconductor_openstack/openstack/handlers.py:105-111 | After a logged change, saving the quota again without touching its limit logs nothing, and a later change to another limit logs an event carrying that limit |
| Mirrors.Positions | src/nodeconductor_openstack/openstack_tenant/handlers.py:124-139 | The positions filed under a key are exactly those, in increasing order |
| Mirrors.Find | src/nodeconductor_openstack/openstack_tenant/handlers.py:124-139 | A lookup by settings and backend id finds nothing exactly when no mirror is filed there, finds the only one when there is exactly one, and is ambiguous (the lookup raises) exactly when two are |
| Mirrors.FindOnly | src/nodeconductor_openstack/openstack_tenant/handlers.py:124-139 | A mirror that is the only one under its key is what the lookup finds |
| Mirrors.Remove | src/nodeconductor_openstack/openstack_tenant/handlers.py:149 | Removing one mirror keeps all the others in order |
| Mirrors.DeleteMirror | src/nodeconductor_openstack/openstack_tenant/handlers.py:142-159 | Deleting fails exactly when the lookup is ambiguous; otherwise no mirror is left under the key, every other mirror remains, and at most one is removed |
| Mirrors.SourceDeleted | src/nodeconductor_openstack/openstack_tenant/handlers.py:142-159 | Without tenant settings nothing happens; otherwise the source's mirror is deleted when there is one |
| Mirrors.GroupStateChanged | src/nodeconductor_openstack/openstack_tenant/handlers.py:163-182 | Without settings nothing happens; CREATING to OK adds a mirror with the group's backend id, name and description; transitions other than CREATING or UPDATING to OK change nothing; mirrors are never removed |
| Mirrors.GroupStateChangedAsWritten | src/nodeconductor_openstack/openstack_tenant/handlers.py:163-182 | The handler as written, creating mirrors the same way |
| Mirrors.GroupStateChangedCorrected | src/nodeconductor_openstack/openstack_tenant/handlers.py:163-182 | The corrected handler, creating mirrors the same way |
| Mirrors.OneTupleTextDiffers | src/nodeconductor_openstack/openstack_tenant/handlers.py:180 | The stored text of a one-element tuple holding a name is never the name itself |
| Mirrors.AsWrittenUpdateMangledName | src/nodeconductor_openstack/openstack_tenant/handlers.py:176-182 | As written, UPDATING to OK stores the tuple's text as the mirror's name, which differs from the group's name |
| Mirrors.CorrectedUpdateCopiesSource | src/nodeconductor_openstack/openstack_tenant/handlers.py:176-182 | Corrected, UPDATING to OK copies the group's name and description into its mirror and leaves every other mirror alone |
| Mirrors.DeleteUndoesCreate | src/nodeconductor_openstack/openstack_tenant/handlers.py:142-174 | Deleting a group whose mirror was just created restores the mirrors as they were |
| Mirrors.IpStateChanged | src/nodeconductor_openstack/openstack_tenant/handlers.py:185-209 | Without settings nothing happens; CREATING to OK adds a mirror with the IP's name, address, status and network; UPDATING to OK copies those fields into the existing mirror only, does nothing without one and fails when the lookup is ambiguous |
| Mirrors.IpUpdateThenFind | src/nodeconductor_openstack/openstack_tenant/handlers.py:200-209 | After an update the mirror is still found at the same place, now a copy of the source IP |
| Mirrors.IpDeleteUndoesCreate | src/nodeconductor_openstack/openstack_tenant/handlers.py:152-198 | Deleting an IP whose mirror was just created restores the mirrors as they were |
| InstanceRequests.CheckImageFits | src/nodeconductor_openstack/serializers.py:709-720 | The image fits exactly when its minimum RAM is within the flavor's RAM and its minimum disk within both the flavor's disk and the system volume; the flavor's disk is checked before the system volume |
| InstanceRequests.FirstOther | src/nodeconductor_openstack/serializers.py:722-726 | The position of the first security group whose owner differs from the expected one, or none exactly when every group matches |
| InstanceRequests.CheckTenantForExternalIp | src/nodeconductor_openstack/serializers.py:772-781 | An external IP needs a tenant with an external network that is OK |
| InstanceRequests.CheckExternalIp | src/nodeconductor_openstack/serializers.py:737-781 | Without a floating IP and with assignment skipped, nothing is checked; an explicit IP must be DOWN and of the same tenant; allocation needs room in the floating-IP quota; both need an external network and an OK tenant |
| InstanceRequests.ValidateInstance | src/nodeconductor_openstack/serializers.py:691-735 | Updates are not checked; a creation passes exactly when flavor, image and groups are of the request's settings, the tenant is of the same project link and has an internal network, the image fits, and the external IP rules hold; a settings mismatch is reported exactly when flavor or image is from other settings |
| InstanceRequests.AcceptedAllocationFits | src/nodeconductor_openstack/serializers.py:756-765 | An accepted request that allocates a floating IP leaves room for one more in the quota |
| InstanceRequests.BusyFloatingIpRefused | src/nodeconductor_openstack/serializers.py:743-749 | A floating IP that is not DOWN is refused |
| InstanceRequests.ValidateSettingsInstance | src/nodeconductor_openstack/openstack_tenant/serializers.py:412-478 | Updates are not checked; a creation passes exactly when flavor, image and groups are of the settings, the image fits, and an explicit floating IP is DOWN and of the same settings or an allocation has quota room; tenant and network errors never arise here |
| InstanceRequests.NoExternalIpNeedsNoQuota | src/nodeconductor_openstack/openstack_tenant/serializers.py:449-478 | When no floating IP is given or allocated, the floating-IP quota plays no part |
| InstanceRequests.Sanitize | src/nodeconductor_openstack/serializers.py:796 | After replacing every run of characters outside [-a-zA-Z0-9 _] with '_', only allowed characters remain, the text is no longer, and text already allowed is kept |
| InstanceRequests.SanitizeIdempotent | src/nodeconductor_openstack/serializers.py:796 | Sanitising twice is the same as once |
| InstanceRequests.RunBecomesOneUnderscore | src/nodeconductor_openstack/serializers.py:796 | A run of disallowed characters becomes a single underscore |
| InstanceRequests.Prefix | src/nodeconductor_openstack/serializers.py:796 | The name is cut to its first 17 characters |
| InstanceRequests.KeyName | src/nodeconductor_openstack/serializers.py:791-798 | The key name is the UUID hex, a dash, and at most 17 allowed characters from the sanitised name |
| InstanceRequests.CreatedVolumes | src/nodeconductor_openstack/serializers.py:811-835 | Two volumes are created, the bootable system volume and the data volume, with the requested sizes and distinct names of at most 150 characters; the disk is their total |
| InstanceRequests.CreatedInstanceMatchesRequest | src/nodeconductor_openstack/serializers.py:811-835 | The created instance's size is its disk, its system volume is the requested system volume and its data volume the requested data volume |
| InstanceRequests.ValidateRestoration | src/nodeconductor_openstack/openstack_tenant/serializers.py:695-697 | A restoration passes exactly when the flavor is of the backup's settings |
| InstanceRequests.RestoredName | src/nodeconductor_openstack/openstack_tenant/serializers.py:705-707 | The restored instance takes the requested name, else the name in the backup's metadata, else the source instance's name |
| InstanceRequests.Restore | src/nodeconductor_openstack/serializers.py:544-584 | One volume per snapshot, with the snapshot's size and a name of at most 150 characters |
| InstanceRequests.SumOfMappedSizes | src/nodeconductor_openstack/serializers.py:564-578 | The restored volumes' sizes add up to the snapshots' sizes |
| InstanceRequests.RestoredDiskIsVolumeTotal | src/nodeconductor_openstack/openstack_tenant/serializers.py:718-736 | The restored instance's disk is the total size of its volumes |
| VolumeRequests.ValidateVolumeCreate | src/nodeconductor_openstack/serializers.py:1191-1211 | Updates are not checked; a creation passes exactly when an image, if given, is of the tenant's settings, exactly one of a non-zero size and a snapshot is given, and an image's minimum disk fits the size, or the snapshot's size when no size is given |
| VolumeRequests.SizeOnlyVolume | src/nodeconductor_openstack/serializers.py:1199-1211 | Without a snapshot, a volume is accepted exactly when its size is non-zero and at least the image's minimum disk |
| VolumeRequests.ZeroSizeIsNoSize | src/nodeconductor_openstack/serializers.py:1199-1200 | A size of 0 counts as no size |
| VolumeRequests.CheckExtend | src/nodeconductor_openstack/serializers.py:944-967 | An extension passes exactly when the new size reaches the minimum (the old size plus 1024 when that step is enforced), the volume has a backend id, any instance it is attached to is OFFLINE and it is not bootable |
| VolumeRequests.ExtendWith | src/nodeconductor_openstack/serializers.py:944-975 | An accepted extension sets the new size and moves storage usage by exactly the difference, refused when that exceeds the storage quota |
| VolumeRequests.ExtendVolumeAsWritten | src/nodeconductor_openstack/serializers.py:944-951 | As written, the raised minimum never reaches the field's validator, so any size of at least 1 is taken |
| VolumeRequests.ExtendVolume | src/nodeconductor_openstack/serializers.py:944-975 | Corrected: an extension sets a size at least 1024 above the old one, and storage usage grows by at least 1024 |
| VolumeRequests.ShrinkAcceptedAsWritten | src/nodeconductor_openstack/serializers.py:944-975 | As written, a 10240 volume is "extended" to 1, giving 10239 back to the quota; the corrected check refuses it |
| VolumeRequests.ExtendNeverShrinks | src/nodeconductor_openstack/serializers.py:944-975 | A corrected extension always makes the volume larger |
| VolumeRequests.ExtendSettingsVolume | src/nodeconductor_openstack/openstack_tenant/serializers.py:188-204 | The settings-scoped extension accepts exactly a size of at least the old size plus 1024 within the storage quota, and moves storage usage by the difference only |
| VolumeRequests.ValidateAttach | src/nodeconductor_openstack/openstack_tenant/serializers.py:207-250 | Attaching passes exactly when the instance is OK and SHUTOFF, of the volume's project link, and the trimmed device is blank or fits 50 characters, matches /dev/ followed by letters and digits and is not used by another volume of the instance; a device in use is refused only once it matches the pattern; at src/nodeconductor_openstack/openstack_tenant/models.py:93-96: the device column's max_length and RegexValidator |
| VolumeRequests.AttachedDeviceInUse | src/nodeconductor_openstack/openstack_tenant/serializers.py:245-250 | Once a volume is attached at a non-blank device, attaching another at that device is refused as in use |
| VolumeRequests.BareDeviceNameRefused | src/nodeconductor_openstack/openstack_tenant/models.py:93-96 | A bare device name such as vdb, without the /dev/ directory, is refused as malformed |
| VolumeRequests.PaddedDeviceAccepted | src/nodeconductor_openstack/openstack_tenant/models.py:93-96 | A device path with surrounding whitespace is taken once trimmed and accepted |
| VolumeRequests.AssignFloatingIp | src/nodeconductor_openstack/openstack_tenant/serializers.py:572-577 | An explicit IP must be DOWN and of the same settings and changes no quota; without one, the floating-IP quota grows by 1 when there is room |
| VolumeRequests.ValidateFlavorChange | src/nodeconductor_openstack/serializers.py:1026-1041 | A flavor change passes exactly when the name differs, the flavor is of the same settings and its disk is not smaller |
| VolumeRequests.ChangeFlavor | src/nodeconductor_openstack/serializers.py:1026-1055 | Only a valid change is applied; it takes the new flavor's name, RAM, cores and disk, and moves ram and vcpu usage by the differences only, refused when either would exceed its quota |
| VolumeRequests.FlavorChangeRoundTrip | src/nodeconductor_openstack/serializers.py:1044-1055 | Changing to a flavor and back to one with the old RAM and cores restores every quota |
| GroupRequests.CheckRule | src/nodeconductor_openstack/openstack/serializers.py:294-301 | A submitted rule passes exactly when it is fully valid and, if it carries an id, the request updates the group it is stored under; a stored rule on a group being created is refused as such exactly when it is otherwise valid |
| GroupRequests.ValidateRules | src/nodeconductor_openstack/openstack/serializers.py:294-302 | The list passes exactly when every rule passes; otherwise the error is that of the first failing rule |
| GroupRequests.CreateTakesOnlyNewRules | src/nodeconductor_openstack/openstack/serializers.py:294-313 | A group being created accepts only new, valid rules |
| GroupRequests.UpdateRules | src/nodeconductor_openstack/openstack/serializers.py:315-331 | Every stored rule of the group is either kept or deleted |
| GroupRequests.FilterPartition | src/nodeconductor_openstack/openstack/serializers.py:317-324 | Splitting the stored rules by whether their id was submitted loses and duplicates none |
| GroupRequests.UpdateKeepsSubmittedIds | src/nodeconductor_openstack/openstack/serializers.py:318-326 | A stored rule is kept exactly when its id is resubmitted, and deleted exactly when it is not |
| GroupRequests.UpdateTouchesOnlyTheGroup | src/nodeconductor_openstack/openstack/serializers.py:321-326 | Only the group's own stored rules are kept or deleted |
| GroupRequests.UpdateAddsNewRules | src/nodeconductor_openstack/openstack/serializers.py:317-329 | Every submitted rule without an id is added |
| GroupRequests.ResubmittingIsNoChange | src/nodeconductor_openstack/openstack/serializers.py:315-331 | Resubmitting exactly the stored rules by id keeps them all, deletes none and adds none |
| GroupRequests.KeptCount | src/nodeconductor_openstack/openstack/serializers.py:318-324 | With distinct ids, the number of rules kept is the number of stored ids that were resubmitted |
| GroupRequests.UpdatedGroupSize | src/nodeconductor_openstack/openstack/serializers.py:294-331 | After a valid update, the group holds one rule per resubmitted id plus one per new rule |
| Passwords.Check | src/nodeconductor_openstack/openstack/password_validation.py:37-73 | The length validator refuses exactly a password shorter than its minimum; the numeric one refuses exactly a non-empty all-digit password; a refusal is "too short" exactly when it comes from the length validator |
| Passwords.Errors | src/nodeconductor_openstack/openstack/password_validation.py:19-34 | Every validator runs: the errors are empty exactly when all pass, hold the error of every refusing validator, and only theirs |
| Passwords.ValidatePassword | src/nodeconductor_openstack/openstack/password_validation.py:14-34 | The password is refused with all the errors exactly when one validator refuses; the default list is used when none is given |
| Passwords.DefaultPolicy | src/nodeconductor_openstack/openstack/password_validation.py:14-16 | By default, a password passes exactly when it has at least 8 characters and is not entirely digits |
| Passwords.ShortNumericGetsBothErrors | src/nodeconductor_openstack/openstack/password_validation.py:19-34 | A short all-digit password gets both errors, the length error first |
| Passwords.EmptyPasswordIsOnlyTooShort | src/nodeconductor_openstack/openstack/password_validation.py:44-73 | The empty password is too short but does not count as numeric |
| Passwords.NoValidatorsAcceptAll | src/nodeconductor_openstack/openstack/password_validation.py:19-34 | An empty validator list accepts every password, unlike no list at all |
| Plans.DeletePlan | src/nodeconductor_openstack/openstack_tenant/executors.py:39-50 | With a backend id, the plan calls the backend delete first, starting the deletion, and ends with the check polling for its absence; without one, the backend is never called and only the deletion transition applies |
| Plans.UpdatePlan | src/nodeconductor_openstack/openstack_tenant/executors.py:27-36 | The backend is called exactly when the name or description changed; the update transition applies either way |
| Plans.CallWith | src/nodeconductor_openstack/openstack_tenant/executors.py:53-59 | A single backend call that applies exactly its transition to its target |
| ResourcePlans.SecurityGroupCreate | src/nodeconductor_openstack/executors.py:14-19 | Creating a group calls the backend create and starts the group's creation |
| ResourcePlans.SecurityGroupUpdate | src/nodeconductor_openstack/executors.py:22-27 | Updating a group always calls the backend and starts its update |
| ResourcePlans.SecurityGroupDelete | src/nodeconductor_openstack/executors.py:30-38 | The backend is called exactly when the group has a backend id; the deletion starts either way |
| ResourcePlans.TenantUpdate | src/nodeconductor_openstack/executors.py:96-105 | The backend is called exactly when the name or description changed; the update starts either way |
| ResourcePlans.CreateAndWait | src/nodeconductor_openstack/executors.py:211-263 | The backend create starts the creation and comes before the poll that waits for available, which ends the plan with its countdown |
| ResourcePlans.VolumeCreate | src/nodeconductor_openstack/executors.py:211-223 | The volume create comes before the wait for available, polled after 30 seconds |
| ResourcePlans.SnapshotCreate | src/nodeconductor_openstack/executors.py:251-263 | The snapshot create comes before the wait for available, polled after 10 seconds |
| ResourcePlans.VolumeUpdate | src/nodeconductor_openstack/executors.py:226-236 | The backend is called exactly when the name or description changed |
| ResourcePlans.SnapshotUpdate | src/nodeconductor_openstack/executors.py:266-277 | The backend is called exactly when the name or description changed |
| ResourcePlans.VolumeDelete | src/nodeconductor_openstack/executors.py:238-249 | The backend is called exactly when the volume has a backend id; then the delete comes first and the plan ends polling for the volume's absence |
| ResourcePlans.SnapshotDelete | src/nodeconductor_openstack/executors.py:279-290 | The backend is called exactly when the snapshot has a backend id; then the delete comes first and the plan ends polling for the snapshot's absence |
| ResourcePlans.InstanceDelete | src/nodeconductor_openstack/executors.py:517-533 | The instance is scheduled for deletion; the backend is called exactly when it has a backend id, and then the plan ends polling for its absence |
| ResourcePlans.VolumeBranch | src/nodeconductor_openstack/executors.py:474-492 | A volume branch creates the volume, waits for available, pulls it and only then marks it OK |
| ResourcePlans.VolumeBranchReady | src/nodeconductor_openstack/executors.py:474-492 | The volume branch marks the volume OK only after a poll saw it available |
| ResourcePlans.VolumeGroup | src/nodeconductor_openstack/executors.py:472-492 | The group holds the instance's provisioning transition and one branch per volume |
| ResourcePlans.VolumeGroupReadies | src/nodeconductor_openstack/executors.py:468-515 | Every volume of the group is marked OK before the callback runs |
| ResourcePlans.CreateInstanceArgs | src/nodeconductor_openstack/executors.py:494-509 | The backend create gets the flavor id and the external-IP flag, the public key exactly when there is an SSH key, and a floating IP exactly when one was chosen |
| ResourcePlans.InstanceCreate | src/nodeconductor_openstack/executors.py:468-515 | Every volume is ready before the instance is created; success marks the instance online |
| ResourcePlans.BackupRestorationCreate | src/nodeconductor_openstack/executors.py:724-769 | Every restored volume is ready before the instance is created; success marks it online; failure marks the restoration erred |
| ResourcePlans.InstanceFlavorChange | src/nodeconductor_openstack/executors.py:535-583 | The instance is scheduled for resizing; the resize comes before the wait for VERIFY_RESIZE, that before the confirmation, and that before the wait for SHUTOFF; every poll fails on ERRED; success marks it resized |
| ResourcePlans.FlavorChangeOrder | src/nodeconductor_openstack/executors.py:535-583 | Resize, wait for VERIFY_RESIZE, confirm and wait for SHUTOFF come in that order |
| ResourcePlans.VolumeExtend | src/nodeconductor_openstack/executors.py:585-666 | The volume is scheduled for updating and each attached instance for resizing; each instance is detached before the extend and attached after it; the plan ends waiting for in-use, and success logs and marks the volume OK |
| ResourcePlans.ExtendSchedulesEveryInstance | src/nodeconductor_openstack/executors.py:587-603 | Every attached instance is scheduled for resizing |
| ResourcePlans.ExtendTouchesEveryInstance | src/nodeconductor_openstack/executors.py:605-655 | Every attached instance is detached and attached again |
| ResourcePlans.ExtendOrder | src/nodeconductor_openstack/executors.py:605-655 | Detaches come before the extend, and attaches after it |
| ResourcePlans.SnapshotBranch | src/nodeconductor_openstack/executors.py:673-685 | A snapshot branch creates the snapshot, waits for available and only then marks it OK |
| ResourcePlans.BackupCreate | src/nodeconductor_openstack/executors.py:668-691 | One branch starts the backup's creation and one per snapshot readies it before the callback; failure marks the backup erred |
| ResourcePlans.SnapshotDeletionBranch | src/nodeconductor_openstack/executors.py:706-712 | A snapshot is deleted on the backend, checked gone, and only then its record deleted |
| ResourcePlans.BackupDelete | src/nodeconductor_openstack/executors.py:693-722 | Every snapshot is scheduled for deletion and gets its deletion branch; failure force-deletes when forced, else marks the backup erred |
| ResourcePlans.DRVolumeChain | src/nodeconductor_openstack/executors.py:292-354 | Per volume: temporary snapshot, then temporary volume, then volume backup, then its record, each marked OK only after a poll saw it available |
| ResourcePlans.DRChainOk | src/nodeconductor_openstack/executors.py:301-342 | The temporary snapshot, temporary volume and volume backup are each marked OK only after a poll |
| ResourcePlans.DRChainOrder | src/nodeconductor_openstack/executors.py:301-342 | Snapshot, volume, backup and record pull come in that order |
| ResourcePlans.DRBackupCreate | src/nodeconductor_openstack/executors.py:292-354 | Every volume backup and temporary volume is ready before the callback; success cleans up and marks the DR backup OK; failure marks it erred |
| ResourcePlans.DRGroup | src/nodeconductor_openstack/executors.py:292-354 | The group starts the DR backup's creation in its first branch, holds one more setup branch, and one chain per volume in order |
| ResourcePlans.DRChains | src/nodeconductor_openstack/executors.py:292-354 | One chain per volume, in order |
| ResourcePlans.DRGroupReadies | src/nodeconductor_openstack/executors.py:292-354 | Every volume's backup and temporary volume are marked OK before the callback |
| ResourcePlans.DRBackupDelete | src/nodeconductor_openstack/executors.py:356-390 | Every volume backup is scheduled for deletion and gets its deletion branch, next to the clean-up; failure force-deletes when forced, else marks the DR backup erred |
| ResourcePlans.DRRestoreChain | src/nodeconductor_openstack/executors.py:392-466 | Per volume: the backup is imported before it is restored, and restored before the volume's origin name comes back; the volume and its mirror are marked OK only after polls |
| ResourcePlans.DRRestoreOk | src/nodeconductor_openstack/executors.py:402-450 | The restored volume and its mirrored backup are marked OK only after polls |
| ResourcePlans.DRRestoreOrder | src/nodeconductor_openstack/executors.py:402-450 | Import, restore and origin name come in that order |
| ResourcePlans.DRBackupRestorationCreate | src/nodeconductor_openstack/executors.py:392-466 | Every restored volume is ready before the instance is created from the volumes; success marks it online; failure marks the restoration erred |
| SettingsPlans.ThrottledCreate | src/nodeconductor_openstack/openstack_tenant/executors.py:8-24 | The create goes through the throttle, starting the creation, and comes before the final poll for available |
| SettingsPlans.VolumeCreate | src/nodeconductor_openstack/openstack_tenant/executors.py:8-24 | The throttled volume create comes before the wait for available, polled after 30 seconds |
| SettingsPlans.SnapshotCreate | src/nodeconductor_openstack/openstack_tenant/executors.py:133-149 | The throttled snapshot create comes before the wait for available, polled after 10 seconds |
| SettingsPlans.VolumeUpdate | src/nodeconductor_openstack/openstack_tenant/executors.py:27-36 | The backend is called exactly when the name or description changed; the update starts either way |
| SettingsPlans.SnapshotUpdate | src/nodeconductor_openstack/openstack_tenant/executors.py:152-162 | The backend is called exactly when the name or description changed; the update starts either way |
| SettingsPlans.VolumeDelete | src/nodeconductor_openstack/openstack_tenant/executors.py:39-50 | The backend is called exactly when the volume has a backend id; then the delete comes first and the plan ends polling for its absence |
| SettingsPlans.SnapshotDelete | src/nodeconductor_openstack/openstack_tenant/executors.py:165-176 | The backend is called exactly when the snapshot has a backend id; then the delete comes first and the plan ends polling for its absence |
| SettingsPlans.VolumePull | src/nodeconductor_openstack/openstack_tenant/executors.py:53-59 | The volume is pulled under its update transition |
| SettingsPlans.SnapshotPull | src/nodeconductor_openstack/openstack_tenant/executors.py:179-185 | The snapshot is pulled under its update transition |
| SettingsPlans.ExtendSchedule | src/nodeconductor_openstack/openstack_tenant/executors.py:64-69 | The volume is scheduled for updating, and its instance too exactly when it has one |
| SettingsPlans.VolumeExtend | src/nodeconductor_openstack/openstack_tenant/executors.py:62-130 | The volume is extended to the new size; a detached one ends waiting for available and is never detached; an attached one starts its instance's resize, is detached before and attached after the extend, at the same instance and device, waits for available around the extend and ends waiting for in-use |
| SettingsPlans.DetachedFacts | src/nodeconductor_openstack/openstack_tenant/executors.py:75-89 | A detached volume's plan extends it, never detaches, and ends waiting for available |
| SettingsPlans.AttachedFacts | src/nodeconductor_openstack/openstack_tenant/executors.py:91-130 | An attached volume is detached, extended and attached back in that order, with a wait for available around the extend |
| SettingsPlans.AttachedTransitions | src/nodeconductor_openstack/openstack_tenant/executors.py:91-100 | The volume only starts updating and its instance only starts resizing |
| ResourcePlans.VolumeBranchTransitions | src/nodeconductor_openstack/executors.py:477-491 | The volume branch applies to the volume only the creation start and then OK |
| ResourcePlans.FlavorChangeTransitions | src/nodeconductor_openstack/executors.py:550-573 | The flavor change chain applies to the instance only the resize start |
| TenantPlans.TenantCreate | src/nodeconductor_openstack/openstack/executors.py:40-93 | The chain opens with tenant create, admin user, tenant user, network create, subnet create and quota push, in that order and on the tenant's network and subnet; these come before every later step; one security-group executor runs per group of the tenant, before the group pull and the external-network connection; the pull happens exactly when asked, the connection exactly when the settings name an external network and with that id; success marks subnet, network and tenant OK, failure runs the tenant's error task |
| TenantPlans.CreationStages | src/nodeconductor_openstack/openstack/executors.py:50-77 | The fixed opening steps come before all others, the group executors before the pull and the connection, and the pull before the connection |
| TenantPlans.CreationContents | src/nodeconductor_openstack/openstack/executors.py:50-77 | The opening steps are present in order, with one executor per group, the pull exactly when asked and the connection exactly when an external network is set |
| TenantPlans.CreationPrefix | src/nodeconductor_openstack/openstack/executors.py:50-59 | The first six steps are the fixed opening calls in order, the network and subnet steps on the network and subnet |
| TenantPlans.CreationRuns | src/nodeconductor_openstack/openstack/executors.py:62-65 | A security-group executor runs for exactly the tenant's groups |
| TenantPlans.CreationOptions | src/nodeconductor_openstack/openstack/executors.py:67-75 | The group pull is present exactly when asked; the connection exactly when an external network id is set, and it carries that id |
| TenantPlans.TenantDelete | src/nodeconductor_openstack/openstack/executors.py:108-166 | The deletion starts first; without a backend id nothing else happens; with one, floating IPs, ports, routers and networks are removed before groups, instances, snapshots and volumes, those before the tenant user, and the user before the tenant, which is deleted last |
| TenantPlans.DeletionOrder | src/nodeconductor_openstack/openstack/executors.py:116-120 | Network clean-up precedes instance clean-up, which precedes the user's deletion, which precedes the tenant's |
| TenantPlans.DeletionContents | src/nodeconductor_openstack/openstack/executors.py:122-166 | Every clean-up call is present, and the tenant's deletion is the last step |
| TenantPlans.TenantActionPlan | src/nodeconductor_openstack/openstack/executors.py:169-248 | Each action is a single backend call on the tenant that starts its update; creating an external network without its data is refused, and with it passes that data; a quota push passes the quota limits |
| TenantPlans.ActionMethodsDistinct | src/nodeconductor_openstack/openstack/executors.py:169-248 | No two different actions call the same backend method |
| TenantPlans.NetworkCreate | src/nodeconductor_openstack/openstack/executors.py:251-256 | Creating a network calls the backend create and starts the creation |
| TenantPlans.NetworkUpdate | src/nodeconductor_openstack/openstack/executors.py:259-264 | Updating a network calls the backend and starts the update |
| TenantPlans.NetworkPull | src/nodeconductor_openstack/openstack/executors.py:278-284 | Pulling a network calls the backend under the update transition |
| TenantPlans.NetworkDelete | src/nodeconductor_openstack/openstack/executors.py:267-275 | The backend delete runs exactly when the network has a backend id, and is then the whole plan; the deletion starts either way |
| TenantPlans.SubnetCreate | src/nodeconductor_openstack/openstack/executors.py:287-291 | Creating a subnet calls the backend create and starts the creation |
| TenantPlans.SubnetUpdate | src/nodeconductor_openstack/openstack/executors.py:294-299 | Updating a subnet calls the backend and starts the update |
| TenantPlans.SubnetPull | src/nodeconductor_openstack/openstack/executors.py:313-319 | Pulling a subnet calls the backend under the update transition |
| TenantPlans.SubnetDelete | src/nodeconductor_openstack/openstack/executors.py:302-310 | The backend delete runs exactly when the subnet has a backend id, and is then the whole plan; the deletion starts either way |
| InstanceTasks.WiringOf | src/nodeconductor_openstack/tasks/instance.py:13-34 | Every action links set_erred on error; stop links set_offline on success, start and restart set_online |
| InstanceTasks.Run | src/nodeconductor_openstack/tasks/instance.py:13-34 | A run that begins applies the action's begin transition and then the link its outcome selects; one that fails before beginning applies only set_erred |
| InstanceTasks.RunEndsStableOrErred | src/nodeconductor_openstack/tasks/instance.py:13-59 | A run leaves the instance in a stable state exactly when it began and succeeded, and erred otherwise, never in a transitional state |
| InstanceTasks.SuccessfulRunTarget | src/nodeconductor_openstack/tasks/instance.py:13-34 | A successful stop leaves the instance offline; a successful start or restart leaves it online |
| InstanceTasks.BeginIsTransitional | src/nodeconductor_openstack/tasks/instance.py:37-59 | Each action's begin transition moves the instance into its own transitional state: starting, stopping or restarting |
| Retention.KeptUntil | src/nodeconductor_openstack/backup.py:46-47 | A backup is kept until exactly the retention period in days after now, and forever exactly when the retention is 0 |
| Retention.Insert | src/nodeconductor_openstack/backup.py:106-107 | Inserting a backup into a list ordered by creation time keeps the order and adds exactly that backup |
| Retention.SortByCreated | src/nodeconductor_openstack/backup.py:106-107 | The backups ordered by creation time: the same backups, oldest first |
| Retention.ExtraBackups | src/nodeconductor_openstack/backup.py:101-108 | When the backups exceed the maximum, the backups deleted are as many of the OK ones as the excess, or all OK ones when fewer, taken oldest first; nothing is deleted otherwise, and nothing that is not OK |
| Retention.OldestOkFacts | src/nodeconductor_openstack/backup.py:103-107 | The first n OK backups by creation time are OK backups of the list, and none is younger than an OK backup left out |
| Retention.PrefixIsOldest | src/nodeconductor_openstack/backup.py:106-107 | In a list ordered by creation time, every backup of a prefix is no younger than every backup after it |
| Retention.EnoughOkBackupsReachTheMaximum | src/nodeconductor_openstack/backup.py:101-108 | When enough backups are OK, deleting the extra ones leaves exactly the maximum |
| Retention.NothingExtraNothingDeleted | src/nodeconductor_openstack/backup.py:104-105 | At or below the maximum, nothing is deleted |
| Retention.CreateBackup | src/nodeconductor_openstack/backup.py:21-89 | An instance in an unstable state is skipped; in a stable one the backup starts, with its retention, unless its creation fails; a quota failure, or any failure of a DR backup, is refused as a schedule error; a regular backup's other failures escape |
| Retention.Execute | src/nodeconductor_openstack/backup.py:110-126 | A refusal marks the schedule failed with the error and deactivates it; a start or a skip records the start time; an escaped failure leaves the runtime state; the extra backups are pruned, including a new one, and the next trigger is set either way; the schedule's settings are unchanged |
| Retention.NewBackupIsKept | src/nodeconductor_openstack/backup.py:101-116 | A backup just started is never pruned by the same run, since it is not OK yet |
| Retention.UnstableInstanceOnlyPrunes | src/nodeconductor_openstack/backup.py:21-37 | For an instance in an unstable state, no backup is created, the schedule stays active or inactive as it was, and only pruning and the next trigger happen |
| CostTracking.Split | src/nodeconductor_openstack/cost_tracking.py:28 | Splitting on a separator yields at least one field, none containing the separator, and more than one exactly when the text contains it |
| CostTracking.JoinSplit | src/nodeconductor_openstack/cost_tracking.py:28 | Joining the fields of a split with the separator gives back the text |
| CostTracking.SplitJoin | src/nodeconductor_openstack/cost_tracking.py:28 | Splitting fields joined with a separator gives back the fields, when none contains it |
| CostTracking.FirstTagged | src/nodeconductor_openstack/cost_tracking.py:26-31 | The position of the first tag with the type's prefix, or none exactly when no tag has it |
| CostTracking.TagKey | src/nodeconductor_openstack/cost_tracking.py:26-31 | The key of a type is the field after the first colon of the first tag with the type's prefix, and there is none exactly when no tag has that prefix |
| CostTracking.TagKeyRoundTrip | src/nodeconductor_openstack/cost_tracking.py:28 | A tag written as the type, a colon and a key without colons gives back that key |
| CostTracking.WithTag | src/nodeconductor_openstack/cost_tracking.py:26-31 | Adding a type's tag item adds exactly the item with that type and the tagged key, with count 1 |
| CostTracking.LicenseItems | src/nodeconductor_openstack/cost_tracking.py:26-31 | The license and support items are exactly those of the three types whose key a tag gives, each counted once |
| CostTracking.LegacyConfiguration | src/nodeconductor_openstack/cost_tracking.py:18-35 | An erred instance has no items; otherwise an item is present exactly when a tag gives its license or support key, or it is the flavor and the instance is online; each counts 1 |
| CostTracking.TenantConfiguration | src/nodeconductor_openstack/openstack_tenant/cost_tracking.py:30-46 | An item is present exactly when a tag gives its license or support key, or it is the flavor and the instance is OK and ACTIVE; each counts 1 |
| CostTracking.LicensesAgree | src/nodeconductor_openstack/openstack_tenant/cost_tracking.py:36-42 | For an instance that is not erred, both strategies bill the same license and support items |
| CostTracking.Block | src/nodeconductor_openstack/cost_tracking.py:38-48 | One item of the type per key, in order |
| CostTracking.Unique | src/nodeconductor_openstack/cost_tracking.py:50 | The flavor names without duplicates: the same names, each once |
| CostTracking.FixedItems | src/nodeconductor_openstack/cost_tracking.py:38-48 | Sixteen distinct license and support items, eight OS, five application and three support, each named by its type's prefix and key |
| CostTracking.ConsumableItems | src/nodeconductor_openstack/cost_tracking.py:38-51 | The fixed items plus one flavor item per distinct flavor name: all distinct, all named by prefix and key, every flavor present |

## Left out

- All remote calls (Nova, Neutron, Cinder, Keystone, Glance) are left out. The model takes what they return as input.
- The ORM and database transactions are left out.
- Celery retries, countdowns and chord mechanics are left out. Plans record a countdown as a number; polls are sequences of observed states.
- Event-log message texts are left out, apart from the action messages and event types that the handlers build.
- The core platform's quota counters are not part of this model. `is_exceeded(d)` is assumed to mean usage + d > limit. The -1 "unlimited" limit is not modelled.
- The core state machine is not part of this model. Its transitions are assumed to lead to the states their names give.
- The core executors' default `pre_apply` and success/failure signatures are not part of this model. Plans state only the steps the plugin's executors build themselves.
- `validate_cidr` and `mb2gb` are parameters, because their definitions are not part of this model. The same holds for the cron expression's next trigger time in the backup schedule.
- Cost tracking stores floating-point amounts. Volume and snapshot storage strategies divide the size by 1024 as a float, and are not modelled.
- The settings-scoped consumable items read their OS, application and support choices from constants that are not part of this model. Only their configuration function is modelled.
- Python's set iteration order for flavor names is not modelled. `CostTracking.ConsumableItems` fixes one order of the distinct names.
- Text checks treat characters individually and assume ASCII. Python's `isdigit` and `lower` also accept or map non-ASCII characters.
- The CRM hook of the legacy backup restoration is left out (`create_instance_crm`).
- The same holds for copying image metadata onto restored volumes.
- `SecurityGroupSerializer.validate_rules` formats its error with `self.isntance`, which would raise. The model reports that case as the error `ForeignRule`.
- The legacy volume validator reads `snapshot` where the field is `source_snapshot`. The model follows the value it reads.
- Deleting a floating IP does not decrement the floating-IP quota in either handler. The model follows that.
- `Retention.CreateBackup`: a regular backup whose creation fails other than by quota violation ends as `Escaped`. Pruning and the next trigger still happen, as the `finally` block runs. Nothing else about the propagated exception is modelled.
- `Retention.Execute`: the "started" runtime note is recorded even when the instance was unstable and nothing was created, as the code does.
- `Mirrors.OneTupleTextDiffers`: Python's representation of a one-element tuple is modelled without quote escaping. The lemma only uses that the text starts with `(`.
- `TenantQuotas.TenantLimits`: its contract states which limits are present. Their values are stated by `TenantQuotas.PushUndoesLimits` and the per-service rows.
- `InstanceSync.InstancesForImport`: its own contract only bounds the number of candidates. Which servers are offered is stated by `InstanceSync.ImportCandidatesAreImportable` and `InstanceSync.ImportableServersAreOffered`.
- `ResourcePlans.TenantUpdate` also stands for the tenant application's identical plan (openstack/executors.py:96-105).
- Runtime-state notes that plans set for display (`RuntimeChange` steps) are recorded, but no property is stated about their text.
- Instance start, stop and restart are modelled by the transitions they apply. The backend actions and saved error messages are left out.
- `SettingsFloatingIps.PullFloatingIps` and `InternalIps.PullInstanceInternalIps` hold one IP per backend id. The source saves a second row when a backend entry repeats an id or has an empty one. In the model such an entry replaces the unbooked stored IP of that id instead, so no lemma states anything about those rows.
- `SettingsFloatingIps.KnownIpUpdated`, `SettingsFloatingIps.ListedIpKept`, `InternalIps.KnownIpUpdated` and `InternalIps.UsablePortPulled` describe IPs with a backend id. A stored IP with an empty backend id is never pending in the source, and the model states only that it survives a pull unchanged when no entry carries the empty id.
- `TextFields.Trim` removes only ASCII whitespace. Python's `strip` also removes other Unicode whitespace.
- `Subnets.ValidateExternalNetwork` takes the network address and prefix as given. A missing address or prefix is refused by the serializer's required fields and is not modelled. Whether the address is an IP address is decided by a library and is the parameter `ipOk`.
- `Subnets.ValidateExternalNetwork` and `VolumeRequests.ValidateAttach` report only the first error, in field order. The serializers collect every field error before `validate` runs.
- `InstanceSync.PullInstanceSecurityGroups`: on failure, the source may already have linked some missing groups, depending on set iteration order. The failure records only the stale groups' removal, which always happens first.

## Findings

| source | as written | input that shows it | evidently intended | confidence | as-written member | corrected member |
|---|---|---|---|---|---|---|
| src/nodeconductor_openstack/openstack_tenant/backend.py:177-201 | A backend IP whose port refers to an unknown internal IP is skipped before its id is taken out of the stored mapping. The stale sweep then deletes the stored IP. | A stored, non-booked IP whose backend entry's port is unknown | The stored IP is kept unchanged, as the repository's unit test for this case expects (openstack_tenant/tests/unittests/test_backend.py:44-65) | high; not executed | SettingsFloatingIps.UnknownPortDeletesStoredIpAsWritten | SettingsFloatingIps.UnknownPortKeepsStoredIp |
| src/nodeconductor_openstack/tasks/dr_backup_restoration.py:72 | Reads `mirrored_volume_backup`, but the field is `mirorred_volume_backup`. The handler fails after marking the instance ERRED and before touching related resources. | A failed DR restoration with at least one volume restoration | CREATION_SCHEDULED related resources are deleted and the non-OK ones set ERRED | high; not executed | FailurePolicies.SetDRRestorationErredAsWritten | FailurePolicies.SetDRRestorationErred |
| src/nodeconductor_openstack/openstack_tenant/handlers.py:180 | The trailing comma assigns a one-element tuple to the mirror's name | A tenant group renamed to "web", going UPDATING to OK | The mirror's name becomes "web" | high; not executed | Mirrors.AsWrittenUpdateMangledName | Mirrors.CorrectedUpdateCopiesSource |
| src/nodeconductor_openstack/openstack/serializers.py:405-408 | The CIDR pattern is applied with a search, which accepts any value that has a matching part | 192.168.1.0/240 | Exactly 192.168.N.0/24 for N in 1..254 | medium; not executed | Subnets.SearchAcceptsWiderMask | Subnets.CheckCidr |
| src/nodeconductor_openstack/openstack_tenant/tasks.py:92-95 | Admits a creation when the count of creations in progress is at most the limit | Four instances being created on one settings, limit 4: a fifth is admitted | At most the limit in progress at once | medium; not executed | Throttle.FifthInstanceAdmittedAsWritten | Throttle.AdmissionKeepsLimit |
| src/nodeconductor_openstack/serializers.py:944-951 | The raised minimum size + 1024 is set on the field after it was built, so only its original minimum of 1 is checked | A 10240 MB volume "extended" to 1 MB | The new size is at least the old size plus 1024 | medium; not executed | VolumeRequests.ShrinkAcceptedAsWritten | VolumeRequests.ExtendNeverShrinks |
