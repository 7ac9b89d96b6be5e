/** The backend's JSON body (`NetboxJSONMarshal`), as a map from field name to value. A record
    flattens field by field: a reference to another record becomes that record's ID, a list of
    records (tags, tagged VLANs) the list of their IDs in order, a choice its value string, and
    every empty field (zero, "", false, nil, empty list) is left out, the top-level ID included. */
module Marshal {
  import opened Wrappers
  import opened Objects

  /** The JSON values the flattened body can hold. */
  datatype Json = JInt(n: int) | JString(s: string) | JBool(b: bool) | JArray(items: seq<Json>)

  /** A JSON object: one value per field name (key order is the encoder's business). */
  type FieldMap = map<string, Json>

  /** A record field as the serialiser sees it. */
  datatype Field =
    | Text(s: string)
    | Number(n: int)
    | Flag(b: bool)
    | Reference(id: Option<int>)
    | References(ids: seq<int>)
    | Selection(choice: Option<Choice>)

  /** `omitempty`: the field is left out of the body. */
  predicate Omitted(f: Field) {
    match f
    case Text(s) => s == ""
    case Number(n) => n == 0
    case Flag(b) => !b
    case Reference(id) => id.None?
    case References(ids) => ids == []
    case Selection(c) => c.None? || c.value.value == ""
  }

  function Ints(ids: seq<int>): (js: seq<Json>)
    ensures |js| == |ids| && forall i :: 0 <= i < |ids| ==> js[i] == JInt(ids[i])
  {
    if ids == [] then [] else [JInt(ids[0])] + Ints(ids[1..])
  }

  /** The value a present field is written as. */
  function Value(f: Field): Json
    requires !Omitted(f)
  {
    match f
    case Text(s) => JString(s)
    case Number(n) => JInt(n)
    case Flag(b) => JBool(b)
    case Reference(id) => JInt(id.value)
    case References(ids) => JArray(Ints(ids))
    case Selection(c) => JString(c.value.value)
  }

  /** The body of a record given as its named fields. */
  function Flatten(fs: seq<(string, Field)>): FieldMap {
    if fs == [] then map[]
    else
      var rest := Flatten(fs[1..]);
      if Omitted(fs[0].1) then rest else rest[fs[0].0 := Value(fs[0].1)]
  }

  /** Every key of the body is the name of a non-empty field, written as that field's value. */
  lemma {:induction false} FlattenSound(fs: seq<(string, Field)>)
    ensures forall k :: k in Flatten(fs) ==>
      exists i :: 0 <= i < |fs| && fs[i].0 == k && !Omitted(fs[i].1) && Flatten(fs)[k] == Value(fs[i].1)
  {
    if fs != [] {
      FlattenSound(fs[1..]);
      assert forall j :: 0 <= j < |fs[1..]| ==> fs[1..][j] == fs[j + 1];
    }
  }

  predicate DistinctKeys(fs: seq<(string, Field)>) {
    forall i, j :: 0 <= i < j < |fs| ==> fs[i].0 != fs[j].0
  }

  /** The body's keys are exactly the names of the present fields. */
  lemma {:induction false} FlattenKeys(fs: seq<(string, Field)>)
    ensures Flatten(fs).Keys == set i | 0 <= i < |fs| && !Omitted(fs[i].1) :: fs[i].0
  {
    if fs != [] {
      FlattenKeys(fs[1..]);
      var tail := set i | 0 <= i < |fs[1..]| && !Omitted(fs[1..][i].1) :: fs[1..][i].0;
      var whole := set i | 0 <= i < |fs| && !Omitted(fs[i].1) :: fs[i].0;
      assert whole == tail + (if Omitted(fs[0].1) then {} else {fs[0].0}) by {
        forall k | k in whole ensures k in tail + (if Omitted(fs[0].1) then {} else {fs[0].0}) {
          var i :| 0 <= i < |fs| && !Omitted(fs[i].1) && fs[i].0 == k;
          if i > 0 {
            assert fs[1..][i - 1] == fs[i];
          }
        }
        forall k | k in tail ensures k in whole {
          var i :| 0 <= i < |fs[1..]| && !Omitted(fs[1..][i].1) && fs[1..][i].0 == k;
          assert fs[i + 1] == fs[1..][i];
        }
      }
    }
  }

  /** With distinct names each present field is written as its own value, and an omitted field
      leaves no key. */
  lemma {:induction false} FlattenField(fs: seq<(string, Field)>, i: int)
    requires DistinctKeys(fs) && 0 <= i < |fs|
    ensures fs[i].0 in Flatten(fs) <==> !Omitted(fs[i].1)
    ensures !Omitted(fs[i].1) ==> Flatten(fs)[fs[i].0] == Value(fs[i].1)
  {
    if i > 0 {
      assert fs[1..][i - 1] == fs[i];
      FlattenField(fs[1..], i - 1);
    } else {
      FlattenKeys(fs[1..]);
      forall j | 0 <= j < |fs[1..]|
        ensures fs[1..][j].0 != fs[0].0
      {
        assert fs[1..][j] == fs[j + 1];
      }
    }
  }

  // ---- field lists, in the order the Go structs declare them ----

  function TagIds(tags: seq<Tag>): (ids: seq<int>)
    ensures |ids| == |tags| && forall i :: 0 <= i < |tags| ==> ids[i] == tags[i].id
  {
    if tags == [] then [] else [tags[0].id] + TagIds(tags[1..])
  }

  /** The embedded `NetboxObject`. */
  function BaseFields(b: NetboxObject): seq<(string, Field)> {
    [("id", Number(b.id)), ("tags", References(TagIds(b.tags))), ("description", Text(b.description))]
  }

  function RefTo<T>(r: Option<T>, id: T -> int): Field {
    Reference(if r.Some? then Some(id(r.value)) else None)
  }

  function ChoiceOf<T>(r: Option<T>, choice: T -> Choice): Field {
    Selection(if r.Some? then Some(choice(r.value)) else None)
  }

  function ClusterGroupFields(g: ClusterGroup): seq<(string, Field)> {
    BaseFields(g.base) + [("name", Text(g.name)), ("slug", Text(g.slug))]
  }

  function ClusterTypeFields(t: ClusterType): seq<(string, Field)> {
    BaseFields(t.base) + [("name", Text(t.name)), ("slug", Text(t.slug))]
  }

  function ClusterFields(c: Cluster): seq<(string, Field)> {
    BaseFields(c.base) + ClusterOwnFields(c)
  }

  /** The fields `Cluster` declares itself. */
  function ClusterOwnFields(c: Cluster): seq<(string, Field)> {
    [
      ("name", Text(c.name)),
      ("type", RefTo(c.clusterType, (x: ClusterType) => x.base.id)),
      ("group", RefTo(c.group, (x: ClusterGroup) => x.base.id)),
      ("site", RefTo(c.site, (x: Site) => x.base.id)),
      ("status", Selection(Some(c.status.choice))),
      ("tenant_group", RefTo(c.tenantGroup, (x: TenantGroup) => x.base.id)),
      ("tenant", RefTo(c.tenant, (x: Tenant) => x.base.id))]
  }

  function VMFields(vm: VM): seq<(string, Field)> {
    BaseFields(vm.base) + [
      ("name", Text(vm.name)),
      ("status", ChoiceOf(vm.status, (x: VMStatus) => x.choice)),
      ("site", RefTo(vm.site, (x: Site) => x.base.id)),
      ("cluster", RefTo(vm.cluster, (x: Cluster) => x.base.id)),
      ("device", RefTo(vm.host, (x: Device) => x.base.id)),
      ("tenant_group", RefTo(vm.tenantGroup, (x: TenantGroup) => x.base.id)),
      ("tenant", RefTo(vm.tenant, (x: Tenant) => x.base.id)),
      ("platform", RefTo(vm.platform, (x: Platform) => x.base.id)),
      ("primary_ip4", RefTo(vm.primaryIPv4, (x: IPAddress) => x.base.id)),
      ("primary_ip6", RefTo(vm.primaryIPv6, (x: IPAddress) => x.base.id)),
      ("memory", Number(vm.memory)),
      ("disk", Number(vm.disk)),
      ("comments", Text(vm.comments))]
  }

  function VlanIds(vlans: seq<Vlan>): (ids: seq<int>)
    ensures |ids| == |vlans| && forall i :: 0 <= i < |vlans| ==> ids[i] == vlans[i].base.id
  {
    if vlans == [] then [] else [vlans[0].base.id] + VlanIds(vlans[1..])
  }

  function VMInterfaceFields(i: VMInterface): seq<(string, Field)> {
    BaseFields(i.base) + [
      ("virtual_machine", RefTo(i.vm, (x: VM) => x.base.id)),
      ("name", Text(i.name)),
      ("mac_address", Text(i.macAddress)),
      ("mtu", Number(i.mtu)),
      ("enabled", Flag(i.enabled)),
      ("parent", RefTo(i.parentInterface, (x: VMInterface) => x.base.id)),
      ("bridge", RefTo(i.bridgedInterface, (x: VMInterface) => x.base.id)),
      ("mode", ChoiceOf(i.mode, (x: VMInterfaceMode) => x.choice)),
      ("tagged_vlans", References(VlanIds(i.taggedVlans))),
      ("untagged_vlan", RefTo(i.untaggedVlan, (x: Vlan) => x.base.id))]
  }

  /** The device fields the serialiser's examples use (the rest of `Device` is not modelled). */
  function DeviceFields(d: Device): seq<(string, Field)> {
    BaseFields(d.base) + DeviceOwnFields(d)
  }

  function DeviceOwnFields(d: Device): seq<(string, Field)> {
    [
      ("name", Text(d.name)),
      ("role", RefTo(d.role, (x: DeviceRole) => x.base.id)),
      ("device_type", RefTo(d.deviceType, (x: DeviceType) => x.base.id)),
      ("airflow", Selection(d.airflow)),
      ("status", Selection(d.status)),
      ("site", RefTo(d.site, (x: Site) => x.base.id))]
  }

  /** The bodies of the records: no key beyond the record's declared fields. */
  function MarshalCluster(c: Cluster): (m: FieldMap)
    ensures m.Keys <= {"id", "tags", "description", "name", "type", "group", "site", "status", "tenant_group", "tenant"}
  {
    FlattenSound(ClusterFields(c));
    Flatten(ClusterFields(c))
  }

  function MarshalClusterGroup(g: ClusterGroup): (m: FieldMap)
    ensures m.Keys <= {"id", "tags", "description", "name", "slug"}
  {
    FlattenSound(ClusterGroupFields(g));
    Flatten(ClusterGroupFields(g))
  }

  function MarshalClusterType(t: ClusterType): (m: FieldMap)
    ensures m.Keys <= {"id", "tags", "description", "name", "slug"}
  {
    FlattenSound(ClusterTypeFields(t));
    Flatten(ClusterTypeFields(t))
  }

  function MarshalVM(vm: VM): (m: FieldMap)
    ensures m.Keys <= {"id", "tags", "description", "name", "status", "site", "cluster", "device", "tenant_group",
                       "tenant", "platform", "primary_ip4", "primary_ip6", "memory", "disk", "comments"}
  {
    FlattenSound(VMFields(vm));
    Flatten(VMFields(vm))
  }

  function MarshalVMInterface(i: VMInterface): (m: FieldMap)
    ensures m.Keys <= {"id", "tags", "description", "virtual_machine", "name", "mac_address", "mtu", "enabled",
                       "parent", "bridge", "mode", "tagged_vlans", "untagged_vlan"}
  {
    FlattenSound(VMInterfaceFields(i));
    Flatten(VMInterfaceFields(i))
  }

  function MarshalDevice(d: Device): (m: FieldMap)
    ensures m.Keys <= {"id", "tags", "description", "name", "role", "device_type", "airflow", "status", "site"}
  {
    FlattenSound(DeviceFields(d));
    Flatten(DeviceFields(d))
  }

  /** The embedded part of any record body: the ID only when non-zero, the tags as their IDs in
      order (duplicated names kept) only when there are tags, the description only when set. */
  lemma BaseOfBody(b: NetboxObject, rest: seq<(string, Field)>)
    requires DistinctKeys(BaseFields(b) + rest)
    ensures var m := Flatten(BaseFields(b) + rest);
      && ("id" in m <==> b.id != 0) && (b.id != 0 ==> m["id"] == JInt(b.id))
      && ("tags" in m <==> b.tags != [])
      && (b.tags != [] ==> m["tags"] == JArray(seq(|b.tags|, k requires 0 <= k < |b.tags| => JInt(b.tags[k].id))))
      && ("description" in m <==> b.description != "") && (b.description != "" ==> m["description"] == JString(b.description))
  {
    var fs := BaseFields(b) + rest;
    FlattenField(fs, 0);
    FlattenField(fs, 1);
    FlattenField(fs, 2);
    if b.tags != [] {
      assert Ints(TagIds(b.tags)) == seq(|b.tags|, k requires 0 <= k < |b.tags| => JInt(b.tags[k].id));
    }
  }

  /** The cluster's field names are distinct. */
  lemma ClusterKeysDistinct(c: Cluster)
    ensures DistinctKeys(ClusterFields(c))
  {
  }

  /** The references of a cluster's body: each present exactly when set, as the referenced
      record's ID. */
  lemma ClusterBodyReferences(c: Cluster)
    ensures var m := MarshalCluster(c);
      && ("type" in m <==> c.clusterType.Some?) && (c.clusterType.Some? ==> m["type"] == JInt(c.clusterType.value.base.id))
      && ("group" in m <==> c.group.Some?) && (c.group.Some? ==> m["group"] == JInt(c.group.value.base.id))
      && ("site" in m <==> c.site.Some?) && (c.site.Some? ==> m["site"] == JInt(c.site.value.base.id))
      && ("tenant" in m <==> c.tenant.Some?) && (c.tenant.Some? ==> m["tenant"] == JInt(c.tenant.value.base.id))
  {
    var fs := ClusterFields(c);
    ClusterKeysDistinct(c);
    FlattenField(fs, 4);
    FlattenField(fs, 5);
    FlattenField(fs, 6);
    FlattenField(fs, 9);
  }

  /** A cluster's body: its keys are exactly its non-empty fields, each reference as the
      referenced record's ID and the status as its value. */
  lemma ClusterBody(c: Cluster)
    ensures var m := MarshalCluster(c);
      && ("type" in m <==> c.clusterType.Some?) && (c.clusterType.Some? ==> m["type"] == JInt(c.clusterType.value.base.id))
      && ("group" in m <==> c.group.Some?) && (c.group.Some? ==> m["group"] == JInt(c.group.value.base.id))
      && ("site" in m <==> c.site.Some?) && (c.site.Some? ==> m["site"] == JInt(c.site.value.base.id))
      && ("tenant" in m <==> c.tenant.Some?) && (c.tenant.Some? ==> m["tenant"] == JInt(c.tenant.value.base.id))
      && ("status" in m <==> c.status.choice.value != "") && (c.status.choice.value != "" ==> m["status"] == JString(c.status.choice.value))
      && ("name" in m <==> c.name != "") && (c.name != "" ==> m["name"] == JString(c.name))
      && m.Keys <= {"id", "tags", "description", "name", "type", "group", "site", "status", "tenant_group", "tenant"}
  {
    var fs := ClusterFields(c);
    ClusterBodyReferences(c);
    ClusterKeysDistinct(c);
    FlattenField(fs, 3);
    FlattenField(fs, 7);
    FlattenKeys(fs);
  }

  /** Only the IDs of referenced records reach the body: two clusters that agree on their own
      fields and on the IDs they point to have the same body, whatever the referenced records'
      names, slugs, tags or descriptions. */
  lemma ClusterBodyIgnoresReferencedDetails(a: Cluster, b: Cluster)
    requires a.base.id == b.base.id && TagIds(a.base.tags) == TagIds(b.base.tags) && a.base.description == b.base.description
    requires a.name == b.name && a.status.choice.value == b.status.choice.value
    requires RefTo(a.clusterType, (x: ClusterType) => x.base.id) == RefTo(b.clusterType, (x: ClusterType) => x.base.id)
    requires RefTo(a.group, (x: ClusterGroup) => x.base.id) == RefTo(b.group, (x: ClusterGroup) => x.base.id)
    requires RefTo(a.site, (x: Site) => x.base.id) == RefTo(b.site, (x: Site) => x.base.id)
    requires RefTo(a.tenantGroup, (x: TenantGroup) => x.base.id) == RefTo(b.tenantGroup, (x: TenantGroup) => x.base.id)
    requires RefTo(a.tenant, (x: Tenant) => x.base.id) == RefTo(b.tenant, (x: Tenant) => x.base.id)
    ensures MarshalCluster(a) == MarshalCluster(b)
  {
    var fa, fb := ClusterFields(a), ClusterFields(b);
    assert |fa| == |fb|;
    assert forall i :: 0 <= i < |fa| && i != 7 ==> fa[i] == fb[i];
    assert fa[7].0 == fb[7].0 && Omitted(fa[7].1) == Omitted(fb[7].1);
    assert !Omitted(fa[7].1) ==> Value(fa[7].1) == Value(fb[7].1);
    FlattenAgrees(fa, fb);
  }

  /** Lists whose fields have the same names, presence and values flatten to the same body. */
  lemma {:induction false} FlattenAgrees(fa: seq<(string, Field)>, fb: seq<(string, Field)>)
    requires |fa| == |fb|
    requires forall i :: 0 <= i < |fa| ==> fa[i].0 == fb[i].0 && Omitted(fa[i].1) == Omitted(fb[i].1)
    requires forall i :: 0 <= i < |fa| && !Omitted(fa[i].1) ==> Value(fa[i].1) == Value(fb[i].1)
    ensures Flatten(fa) == Flatten(fb)
  {
    if fa != [] {
      FlattenAgrees(fa[1..], fb[1..]);
    }
  }

  // ---- the serialiser's two examples ----

  function TestTags(): seq<Tag> {
    [Tag(1, "Test", "test", "000000", "Test tag"),
     Tag(3, "Test3", "test3", "000000", "Test tag 3"),
     Tag(4, "Test3", "test3", "000000", "Test tag 3")]
  }

  function TestCluster(): Cluster {
    Cluster(
      NetboxObject(0, TestTags(), "Test Description"),
      "Test",
      Some(ClusterType(NetboxObject(2, TestTags()[..2], ""), "oVirt", "ovirt")),
      Some(ClusterGroup(NetboxObject(4, TestTags()[..2], "New cluster group"), "New Cluster Group", "new-cluster-group")),
      Some(Site(NetboxObject(2, TestTags()[..2], ""), "New York", "new-york", Some(Choice("active", "Active")))),
      ClusterStatusActive,
      None,
      Some(Tenant(NetboxObject(1, TestTags(), ""), "Default", "default")))
  }

  /** The body of two lists joined: where both set a key, the earlier list's field wins. */
  lemma {:induction false} FlattenConcat(a: seq<(string, Field)>, b: seq<(string, Field)>)
    ensures Flatten(a + b) == Flatten(b) + Flatten(a)
  {
    if a == [] {
      assert a + b == b;
    } else {
      assert (a + b)[1..] == a[1..] + b;
      FlattenConcat(a[1..], b);
    }
  }

  /** The embedded part shared by both examples: no ID, three tag IDs in order and a description. */
  lemma ExampleBase()
    ensures Flatten(BaseFields(NetboxObject(0, TestTags(), "Test Description"))) == map[
      "description" := JString("Test Description"),
      "tags" := JArray([JInt(1), JInt(3), JInt(4)])]
  {
    assert TagIds(TestTags()) == [1, 3, 4];
    assert Ints([1, 3, 4]) == [JInt(1), JInt(3), JInt(4)];
  }

  /** The cluster's own fields in the first example: the unset tenant group is left out. */
  lemma ClusterExampleOwn()
    ensures Flatten(ClusterOwnFields(TestCluster())) == map[
      "tenant" := JInt(1),
      "status" := JString("active"),
      "site" := JInt(2),
      "group" := JInt(4),
      "type" := JInt(2),
      "name" := JString("Test")]
  {
  }

  /** `TestNetboxMarshal`. */
  lemma ClusterExample()
    ensures MarshalCluster(TestCluster()) == map[
      "tenant" := JInt(1),
      "status" := JString("active"),
      "site" := JInt(2),
      "group" := JInt(4),
      "type" := JInt(2),
      "name" := JString("Test"),
      "description" := JString("Test Description"),
      "tags" := JArray([JInt(1), JInt(3), JInt(4)])]
  {
    var c := TestCluster();
    FlattenConcat(BaseFields(c.base), ClusterOwnFields(c));
    ExampleBase();
    ClusterExampleOwn();
  }

  function TestDevice(): Device {
    Device(
      NetboxObject(0, TestTags(), "Test Description"),
      "Test device",
      Some(DeviceRole(NetboxObject(1, TestTags()[..1], "Test device role"), "Test device role", "test-device-role", "000000")),
      Some(DeviceType(NetboxObject(1, TestTags()[..1], "Test device type"), "", "")),
      Some(Choice("front-to-rear", "Front to rear")),
      Some(Choice("active", "Active")),
      Some(Site(NetboxObject(1, TestTags()[..1], "Test site"), "Test site", "test-site", Some(Choice("active", "Active")))))
  }

  /** The device's own fields in the second example. */
  lemma DeviceExampleOwn()
    ensures Flatten(DeviceOwnFields(TestDevice())) == map[
      "site" := JInt(1),
      "status" := JString("active"),
      "airflow" := JString("front-to-rear"),
      "device_type" := JInt(1),
      "role" := JInt(1),
      "name" := JString("Test device")]
  {
  }

  /** `TestNetboxJsonMarshalWithChoiceAttr`. */
  lemma DeviceExample()
    ensures MarshalDevice(TestDevice()) == map[
      "site" := JInt(1),
      "status" := JString("active"),
      "airflow" := JString("front-to-rear"),
      "device_type" := JInt(1),
      "role" := JInt(1),
      "name" := JString("Test device"),
      "description" := JString("Test Description"),
      "tags" := JArray([JInt(1), JInt(3), JInt(4)])]
  {
    var d := TestDevice();
    FlattenConcat(BaseFields(d.base), DeviceOwnFields(d));
    ExampleBase();
    DeviceExampleOwn();
  }
}
