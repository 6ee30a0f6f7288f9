/**
 * Cost tracking of instances: the consumables an instance is charged for
 * (its license and support tags and, while it runs, its flavor), and the
 * list of consumable items the legacy strategy offers for pricing.
 */
module CostTracking {
  import opened Wrappers
  import opened Seqs
  import States
  import InstanceStates

  /* ---------------------------------------------------------------------- */
  /* Splitting a tag on ':'                                                 */

  /** The fields of `t` between the occurrences of `c`, as Python's `str.split(c)` returns them. */
  function Split(t: string, c: char): (r: seq<string>)
    ensures |r| >= 1
    ensures forall i :: 0 <= i < |r| ==> c !in r[i]
    ensures |r| >= 2 <==> c in t
    decreases |t|
  {
    if t == [] then [[]]
    else
      var rest := Split(t[1..], c);
      assert t == [t[0]] + t[1..];
      if t[0] == c then [[]] + rest
      else [[t[0]] + rest[0]] + rest[1..]
  }

  /** The fields joined back with `c` between them. */
  function Join(fields: seq<string>, c: char): string
    requires |fields| >= 1
    decreases |fields|
  {
    if |fields| == 1 then fields[0] else fields[0] + [c] + Join(fields[1..], c)
  }

  /** Joining the fields of a split gives back the string. */
  lemma {:induction false} JoinSplit(t: string, c: char)
    ensures Join(Split(t, c), c) == t
    decreases |t|
  {
    if t != [] {
      JoinSplit(t[1..], c);
      assert t == [t[0]] + t[1..];
      var rest := Split(t[1..], c);
      if t[0] != c {
        if |rest| == 1 {
        } else {
          assert Join(rest, c) == rest[0] + [c] + Join(rest[1..], c);
          assert ([[t[0]] + rest[0]] + rest[1..])[1..] == rest[1..];
        }
      } else {
        assert ([[]] + rest)[1..] == rest;
      }
    }
  }

  /** A prefix without `c` becomes part of the first field. */
  lemma {:induction false} SplitPrefix(a: string, t: string, c: char)
    requires c !in a
    ensures Split(a + t, c) == [a + Split(t, c)[0]] + Split(t, c)[1..]
    decreases |a|
  {
    if a != [] {
      SplitPrefix(a[1..], t, c);
      assert (a + t)[1..] == a[1..] + t;
      assert a + t == [a[0]] + (a[1..] + t);
      assert [a[0]] + (a[1..] + Split(t, c)[0]) == a + Split(t, c)[0];
    } else {
      assert a + t == t;
      assert a + Split(t, c)[0] == Split(t, c)[0];
      assert Split(t, c) == [Split(t, c)[0]] + Split(t, c)[1..];
    }
  }

  /** Splitting fields joined with a separator none of them contains gives back the fields. */
  lemma {:induction false} SplitJoin(fields: seq<string>, c: char)
    requires |fields| >= 1 && forall i :: 0 <= i < |fields| ==> c !in fields[i]
    ensures Split(Join(fields, c), c) == fields
    decreases |fields|
  {
    if |fields| == 1 {
      SplitPrefix(fields[0], [], c);
      assert fields[0] + [] == fields[0];
    } else {
      var tail := Join(fields[1..], c);
      SplitJoin(fields[1..], c);
      SplitPrefix(fields[0], [c] + tail, c);
      assert fields[0] + [c] + tail == fields[0] + ([c] + tail);
      assert ([c] + tail)[1..] == tail;
      assert Split([c] + tail, c) == [[]] + fields[1..];
      assert fields[0] + [] == fields[0];
      assert fields == [fields[0]] + fields[1..];
    }
  }

  /* ---------------------------------------------------------------------- */
  /* Consumables of an instance                                             */

  datatype ItemType = Flavor | LicenseApplication | LicenseOs | Support

  function TypeName(ty: ItemType): string
  {
    match ty
    case Flavor => "flavor"
    case LicenseApplication => "license-application"
    case LicenseOs => "license-os"
    case Support => "support"
  }

  /** A consumable, identified by its type and key. */
  datatype Item = Item(itemType: ItemType, key: string)

  /** A tag that names a consumable of type `ty`: it starts with the type's name and a colon. */
  predicate Tagged(tag: string, ty: ItemType)
  {
    TypeName(ty) + ":" <= tag
  }

  /** The position of the first tag of type `ty`. */
  function FirstTagged(tags: seq<string>, ty: ItemType): (k: Option<nat>)
    ensures k.None? <==> forall i :: 0 <= i < |tags| ==> !Tagged(tags[i], ty)
    ensures k.Some? ==> k.value < |tags| && Tagged(tags[k.value], ty)
                        && forall j :: 0 <= j < k.value ==> !Tagged(tags[j], ty)
    decreases |tags|
  {
    if tags == [] then None
    else if Tagged(tags[0], ty) then Some(0)
    else
      var rest := FirstTagged(tags[1..], ty);
      assert forall i :: 1 <= i < |tags| ==> tags[i] == tags[1..][i - 1];
      if rest.None? then None else Some(rest.value + 1)
  }

  /** The field after the first colon of a tag of type `ty`. */
  function TagField(tag: string, ty: ItemType): (f: string)
    requires Tagged(tag, ty)
    ensures ':' !in f
  {
    assert tag[|TypeName(ty)|] == ':';
    Split(tag, ':')[1]
  }

  /** The key of type `ty` the tags carry: the second field of the first tag of that type. */
  function TagKey(tags: seq<string>, ty: ItemType): (k: Option<string>)
    ensures k.None? <==> forall i :: 0 <= i < |tags| ==> !Tagged(tags[i], ty)
    ensures k.Some? ==> exists i :: 0 <= i < |tags| && Tagged(tags[i], ty) && k.value == TagField(tags[i], ty)
  {
    var first := FirstTagged(tags, ty);
    if first.None? then None else Some(TagField(tags[first.value], ty))
  }

  /** The tag `type:key` gives back its key, and so does every tag list it comes first in. */
  lemma TagKeyRoundTrip(ty: ItemType, key: string, more: seq<string>)
    requires ':' !in key
    ensures TagKey([TypeName(ty) + ":" + key] + more, ty) == Some(key)
  {
    var tag := TypeName(ty) + ":" + key;
    assert ':' !in TypeName(ty);
    assert tag == Join([TypeName(ty), key], ':');
    SplitJoin([TypeName(ty), key], ':');
    assert Tagged(tag, ty);
  }

  /** The three tag-driven types the strategies charge for. */
  predicate IsLicenseType(ty: ItemType)
  {
    ty != Flavor
  }

  function WithTag(c: map<Item, int>, tags: seq<string>, ty: ItemType): (r: map<Item, int>)
    requires forall it :: it in c ==> c[it] == 1
    ensures forall it :: it in r <==> it in c || (it.itemType == ty && TagKey(tags, ty) == Some(it.key))
    ensures forall it :: it in r ==> r[it] == 1
  {
    var k := TagKey(tags, ty);
    if k.Some? then c[Item(ty, k.value) := 1] else c
  }

  /** One consumable, of quantity 1, per license type some tag names. */
  function LicenseItems(tags: seq<string>): (c: map<Item, int>)
    ensures forall it :: it in c <==> IsLicenseType(it.itemType) && TagKey(tags, it.itemType) == Some(it.key)
    ensures forall it :: it in c ==> c[it] == 1
  {
    var a := WithTag(map[], tags, LicenseApplication);
    var b := WithTag(a, tags, LicenseOs);
    WithTag(b, tags, Support)
  }

  /**
   * The legacy configuration: nothing for an erred instance; otherwise its
   * licenses, and its flavor while it is online.
   */
  function LegacyConfiguration(state: InstanceStates.InstanceState, tags: seq<string>, flavorName: string)
    : (c: map<Item, int>)
    ensures forall it :: it in c <==>
              && state != InstanceStates.Erred
              && if it.itemType == Flavor then state == InstanceStates.Online && it.key == flavorName
                 else TagKey(tags, it.itemType) == Some(it.key)
    ensures forall it :: it in c ==> c[it] == 1
  {
    if state == InstanceStates.Erred then map[]
    else
      var licenses := LicenseItems(tags);
      if state == InstanceStates.Online then licenses[Item(Flavor, flavorName) := 1] else licenses
  }

  /** The runtime state of a running tenant-scoped instance. */
  const Active: string := "ACTIVE"

  /**
   * The tenant-scoped configuration: its licenses in every state, and its
   * flavor while it is OK and active.
   */
  function TenantConfiguration(state: States.State, runtimeState: string, tags: seq<string>, flavorName: string)
    : (c: map<Item, int>)
    ensures forall it :: it in c <==>
              if it.itemType == Flavor then state == States.Ok && runtimeState == Active && it.key == flavorName
              else TagKey(tags, it.itemType) == Some(it.key)
    ensures forall it :: it in c ==> c[it] == 1
  {
    var licenses := LicenseItems(tags);
    if state == States.Ok && runtimeState == Active then licenses[Item(Flavor, flavorName) := 1] else licenses
  }

  /** The two strategies charge the same licenses whenever the legacy instance is not erred. */
  lemma LicensesAgree(legacy: InstanceStates.InstanceState, state: States.State, runtimeState: string,
                      tags: seq<string>, flavorName: string, it: Item)
    requires legacy != InstanceStates.Erred && it.itemType != Flavor
    ensures it in LegacyConfiguration(legacy, tags, flavorName) <==>
            it in TenantConfiguration(state, runtimeState, tags, flavorName)
  {
  }

  /* ---------------------------------------------------------------------- */
  /* Consumable items offered for pricing (legacy strategy)                 */

  const OsKeys: seq<string> := ["centos6", "centos7", "ubuntu", "rhel6", "rhel7", "freebsd", "windows", "other"]
  const ApplicationKeys: seq<string> := ["wordpress", "postgresql", "zabbix", "zimbra", "sugar"]
  const SupportKeys: seq<string> := ["basic", "premium", "advanced"]

  /** A consumable item with its display name. */
  datatype Consumable = Consumable(item: Item, name: string)

  function NamePrefix(ty: ItemType): string
  {
    match ty
    case Flavor => "Flavor: "
    case LicenseApplication => "Application: "
    case LicenseOs => "OS: "
    case Support => "Support: "
  }

  /** No item is offered twice. */
  predicate DistinctItems(r: seq<Consumable>)
  {
    forall i, j :: 0 <= i < j < |r| ==> r[i].item != r[j].item
  }

  /** Every consumable is of type `ty` and named after its key. */
  predicate OfType(r: seq<Consumable>, ty: ItemType)
  {
    forall i :: 0 <= i < |r| ==> r[i].item.itemType == ty && r[i].name == NamePrefix(ty) + r[i].item.key
  }

  function Block(ty: ItemType, keys: seq<string>): (r: seq<Consumable>)
    ensures |r| == |keys| && OfType(r, ty)
    ensures forall i :: 0 <= i < |r| ==> r[i].item.key == keys[i]
  {
    Map(keys, (k: string) => Consumable(Item(ty, k), NamePrefix(ty) + k))
  }

  lemma BlockDistinct(ty: ItemType, keys: seq<string>)
    requires Distinct(keys)
    ensures DistinctItems(Block(ty, keys))
  {
  }

  /** The flavor names without repetitions, each kept at its last occurrence. */
  function Unique(names: seq<string>): (r: seq<string>)
    ensures Distinct(r)
    ensures forall n :: n in r <==> n in names
    decreases |names|
  {
    if names == [] then []
    else
      var rest := Unique(names[1..]);
      assert names == [names[0]] + names[1..];
      if names[0] in rest then rest
      else
        DistinctCons(names[0], rest);
        [names[0]] + rest
  }

  /** The keys offered for each type. */
  predicate Offered(it: Item, flavorNames: seq<string>)
  {
    match it.itemType
    case LicenseOs => it.key in OsKeys
    case LicenseApplication => it.key in ApplicationKeys
    case Support => it.key in SupportKeys
    case Flavor => it.key in flavorNames
  }

  /** The operating systems, applications and support levels, in that order. */
  function FixedItems(): (r: seq<Consumable>)
    ensures |r| == 16 && DistinctItems(r)
    ensures forall i :: 0 <= i < |r| ==> r[i].item.itemType != Flavor && Offered(r[i].item, [])
    ensures forall i :: 0 <= i < |r| ==> r[i].name == NamePrefix(r[i].item.itemType) + r[i].item.key
  {
    var os := Block(LicenseOs, OsKeys);
    var apps := Block(LicenseApplication, ApplicationKeys);
    var support := Block(Support, SupportKeys);
    FixedItemsDistinct();
    DistinctApart(os, apps);
    TypesBeforeSupport(os, apps, support);
    os + apps + support
  }

  /**
   * `get_consumable_items`: the eight operating systems, the five
   * applications and the three support levels, then one item per distinct
   * flavor name. `flavorNames` is the name of every flavor in the database.
   */
  function ConsumableItems(flavorNames: seq<string>): (r: seq<Consumable>)
    ensures |r| == 16 + |Unique(flavorNames)|
    ensures DistinctItems(r)
    ensures forall i :: 0 <= i < |r| ==> r[i].name == NamePrefix(r[i].item.itemType) + r[i].item.key
    ensures forall i :: 0 <= i < |r| ==> Offered(r[i].item, flavorNames)
    ensures forall n :: n in flavorNames ==> exists i :: 0 <= i < |r| && r[i].item == Item(Flavor, n)
  {
    var fixed := FixedItems();
    var flavors := Block(Flavor, Unique(flavorNames));
    BlockDistinct(Flavor, Unique(flavorNames));
    TypesBeforeFlavors(fixed, flavors);
    ConsumableFacts(fixed, flavors, flavorNames);
    fixed + flavors
  }

  lemma ConsumableFacts(fixed: seq<Consumable>, flavors: seq<Consumable>, flavorNames: seq<string>)
    requires fixed == FixedItems() && flavors == Block(Flavor, Unique(flavorNames))
    ensures var r := fixed + flavors;
            && (forall i :: 0 <= i < |r| ==> r[i].name == NamePrefix(r[i].item.itemType) + r[i].item.key)
            && (forall i :: 0 <= i < |r| ==> Offered(r[i].item, flavorNames))
            && (forall n :: n in flavorNames ==> exists i :: 0 <= i < |r| && r[i].item == Item(Flavor, n))
  {
    var r := fixed + flavors;
    forall i | 0 <= i < |r|
      ensures r[i].name == NamePrefix(r[i].item.itemType) + r[i].item.key && Offered(r[i].item, flavorNames)
    {
      if i < 16 {
        assert r[i] == fixed[i];
      } else {
        assert r[i] == flavors[i - 16];
        assert Unique(flavorNames)[i - 16] in Unique(flavorNames);
      }
    }
    forall n | n in flavorNames ensures exists i :: 0 <= i < |r| && r[i].item == Item(Flavor, n) {
      var k :| 0 <= k < |Unique(flavorNames)| && Unique(flavorNames)[k] == n;
      assert r[16 + k] == flavors[k];
    }
  }

  lemma FixedItemsDistinct()
    ensures DistinctItems(Block(LicenseOs, OsKeys))
    ensures DistinctItems(Block(LicenseApplication, ApplicationKeys))
    ensures DistinctItems(Block(Support, SupportKeys))
  {
    assert Distinct(OsKeys);
    assert Distinct(ApplicationKeys);
    assert Distinct(SupportKeys);
    BlockDistinct(LicenseOs, OsKeys);
    BlockDistinct(LicenseApplication, ApplicationKeys);
    BlockDistinct(Support, SupportKeys);
  }

  /** Items whose types differ are different items. */
  predicate TypesApart(a: seq<Consumable>, b: seq<Consumable>)
  {
    forall i, j :: 0 <= i < |a| && 0 <= j < |b| ==> a[i].item.itemType != b[j].item.itemType
  }

  lemma {:induction false} DistinctApart(a: seq<Consumable>, b: seq<Consumable>)
    requires DistinctItems(a) && DistinctItems(b) && TypesApart(a, b)
    ensures DistinctItems(a + b)
  {
    var r := a + b;
    forall i, j | 0 <= i < j < |r| ensures r[i].item != r[j].item {
      if j < |a| {
        assert r[i] == a[i] && r[j] == a[j];
      } else if i >= |a| {
        assert r[i] == b[i - |a|] && r[j] == b[j - |a|];
      } else {
        assert r[i] == a[i] && r[j] == b[j - |a|];
      }
    }
  }

  lemma TypesBeforeSupport(os: seq<Consumable>, apps: seq<Consumable>, support: seq<Consumable>)
    requires DistinctItems(os + apps) && DistinctItems(support)
    requires OfType(os, LicenseOs) && OfType(apps, LicenseApplication) && OfType(support, Support)
    ensures DistinctItems(os + apps + support)
  {
    var a := os + apps;
    forall i, j | 0 <= i < |a| && 0 <= j < |support| ensures a[i].item.itemType != support[j].item.itemType {
      if i < |os| { assert a[i] == os[i]; } else { assert a[i] == apps[i - |os|]; }
    }
    DistinctApart(a, support);
  }

  lemma TypesBeforeFlavors(a: seq<Consumable>, flavors: seq<Consumable>)
    requires DistinctItems(a) && DistinctItems(flavors) && OfType(flavors, Flavor)
    requires forall i :: 0 <= i < |a| ==> a[i].item.itemType != Flavor
    ensures DistinctItems(a + flavors)
  {
    DistinctApart(a, flavors);
  }
}
