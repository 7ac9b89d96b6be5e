/** The backend's records (package `objects`). Every record embeds the common `NetboxObject`
    part; references between records are Go pointers, hence `Option`s. The virtualization
    records (cluster groups, cluster types, clusters, virtual machines and their interfaces)
    are given in full; the other kinds keep only the fields the inventory's natural keys and the
    serialiser's examples use. */
module Objects {
  import opened Wrappers
  import opened Format

  /** A tag as the backend knows it (it carries its ID directly). */
  datatype Tag = Tag(id: int, name: string, slug: string, color: string, description: string)

  /** The part every record embeds: the backend ID (0 until created), tags and description. */
  datatype NetboxObject = NetboxObject(id: int, tags: seq<Tag>, description: string)

  /** A choice attribute: the value the backend stores and the label it shows (Go `Label`; `label` is a Dafny keyword). */
  datatype Choice = Choice(value: string, display: string)

  // ---- Kinds defined outside virtualization.go (reduced to what the model uses) ----

  datatype Site = Site(base: NetboxObject, name: string, slug: string, status: Option<Choice>)
  datatype Tenant = Tenant(base: NetboxObject, name: string, slug: string)
  datatype TenantGroup = TenantGroup(base: NetboxObject, name: string, slug: string)
  datatype ContactRole = ContactRole(base: NetboxObject, name: string, slug: string)
  datatype ContactGroup = ContactGroup(base: NetboxObject, name: string, slug: string)
  datatype Contact = Contact(base: NetboxObject, name: string)
  datatype ContactAssignment = ContactAssignment(
    base: NetboxObject,
    contentType: string,
    objectID: int,
    contact: Option<Contact>,
    role: Option<ContactRole>)
  datatype CustomField = CustomField(base: NetboxObject, name: string)
  datatype DeviceRole = DeviceRole(base: NetboxObject, name: string, slug: string, color: string)
  datatype Manufacturer = Manufacturer(base: NetboxObject, name: string, slug: string)
  datatype DeviceType = DeviceType(base: NetboxObject, model: string, slug: string)
  datatype Platform = Platform(base: NetboxObject, name: string, slug: string)
  datatype Device = Device(
    base: NetboxObject,
    name: string,
    role: Option<DeviceRole>,
    deviceType: Option<DeviceType>,
    airflow: Option<Choice>,
    status: Option<Choice>,
    site: Option<Site>)
  datatype VlanGroup = VlanGroup(base: NetboxObject, name: string, slug: string)
  datatype Vlan = Vlan(base: NetboxObject, name: string, vid: int, group: Option<VlanGroup>)
  datatype Interface = Interface(base: NetboxObject, name: string, device: Option<Device>)
  datatype IPAddress = IPAddress(base: NetboxObject, address: string)
  datatype Prefix = Prefix(base: NetboxObject, prefix: string)

  // ---- virtualization.go ----

  datatype ClusterGroup = ClusterGroup(base: NetboxObject, name: string, slug: string)

  datatype ClusterType = ClusterType(base: NetboxObject, name: string, slug: string)

  datatype ClusterStatus = ClusterStatus(choice: Choice)

  const ClusterStatusActive := ClusterStatus(Choice("active", "Active"))
  const ClusterStatusOffline := ClusterStatus(Choice("offline", "Offline"))

  /** The Go field `Type` is `clusterType` here (`type` is a Dafny keyword). */
  datatype Cluster = Cluster(
    base: NetboxObject,
    name: string,
    clusterType: Option<ClusterType>,
    group: Option<ClusterGroup>,
    site: Option<Site>,
    status: ClusterStatus,
    tenantGroup: Option<TenantGroup>,
    tenant: Option<Tenant>)

  datatype VMStatus = VMStatus(choice: Choice)

  const VMStatusActive := VMStatus(Choice("active", "Active"))
  const VMStatusOffline := VMStatus(Choice("offline", "Offline"))

  /** A virtual machine. The `VCPUs` field (a float32) is not modelled. */
  datatype VM = VM(
    base: NetboxObject,
    name: string,
    status: Option<VMStatus>,
    site: Option<Site>,
    cluster: Option<Cluster>,
    host: Option<Device>,
    tenantGroup: Option<TenantGroup>,
    tenant: Option<Tenant>,
    platform: Option<Platform>,
    primaryIPv4: Option<IPAddress>,
    primaryIPv6: Option<IPAddress>,
    memory: int,
    disk: int,
    comments: string)

  /** 802.1Q tagging mode of a VM interface. */
  datatype VMInterfaceMode = VMInterfaceMode(choice: Choice)

  const VMInterfaceModeAccess := VMInterfaceMode(Choice("access", "Access"))
  const VMInterfaceModeTagged := VMInterfaceMode(Choice("tagged", "Tagged"))
  const VMInterfaceModeTaggedAll := VMInterfaceMode(Choice("tagged-all", "Tagged All"))

  datatype VMInterface = VMInterface(
    base: NetboxObject,
    vm: Option<VM>,
    name: string,
    macAddress: string,
    mtu: int,
    enabled: bool,
    parentInterface: Option<VMInterface>,
    bridgedInterface: Option<VMInterface>,
    mode: Option<VMInterfaceMode>,
    taggedVlans: seq<Vlan>,
    untaggedVlan: Option<Vlan>)

  /** The declared choices of each choice type, in declaration order. */
  function ClusterStatuses(): seq<ClusterStatus> {
    [ClusterStatusActive, ClusterStatusOffline]
  }

  function VMStatuses(): seq<VMStatus> {
    [VMStatusActive, VMStatusOffline]
  }

  function VMInterfaceModes(): seq<VMInterfaceMode> {
    [VMInterfaceModeAccess, VMInterfaceModeTagged, VMInterfaceModeTaggedAll]
  }

  /** No two declared choices share a value or a label: the value alone (what the backend
      stores) identifies the choice, and so does the label shown to users. */
  predicate ChoicesDistinct(cs: seq<Choice>) {
    forall i, j :: 0 <= i < j < |cs| ==> cs[i].value != cs[j].value && cs[i].display != cs[j].display
  }

  /** Cluster statuses: active and offline, told apart by value and by label. */
  lemma ClusterStatusChoices()
    ensures ClusterStatuses() == [ClusterStatus(Choice("active", "Active")), ClusterStatus(Choice("offline", "Offline"))]
    ensures ChoicesDistinct(seq(|ClusterStatuses()|, i requires 0 <= i < |ClusterStatuses()| => ClusterStatuses()[i].choice))
  {
  }

  /** VM statuses: active and offline, told apart by value and by label. */
  lemma VMStatusChoices()
    ensures VMStatuses() == [VMStatus(Choice("active", "Active")), VMStatus(Choice("offline", "Offline"))]
    ensures ChoicesDistinct(seq(|VMStatuses()|, i requires 0 <= i < |VMStatuses()| => VMStatuses()[i].choice))
  {
  }

  /** VM interface modes: access, tagged and tagged-all, told apart by value and by label. */
  lemma VMInterfaceModeChoices()
    ensures VMInterfaceModes() == [VMInterfaceMode(Choice("access", "Access")), VMInterfaceMode(Choice("tagged", "Tagged")),
                                   VMInterfaceMode(Choice("tagged-all", "Tagged All"))]
    ensures ChoicesDistinct(seq(|VMInterfaceModes()|, i requires 0 <= i < |VMInterfaceModes()| => VMInterfaceModes()[i].choice))
  {
  }

  // ---- String methods ----

  /** `ClusterType.String()`: the name between `ClusterType{Name: ` and `}`. */
  function ClusterTypeString(ct: ClusterType): (r: string)
    ensures |r| > 18 && r[..18] == "ClusterType{Name: " && r[18..] == ct.name + "}"
  {
    "ClusterType{Name: " + ct.name + "}"
  }

  /** `Cluster.String()`: after `Cluster{ID: ` the ID in decimal, then the name and the type's
      name. Go dereferences `Type`, so a cluster without one cannot be printed. */
  function ClusterString(c: Cluster): (r: string)
    requires c.clusterType.Some?
    ensures |r| > 12 && r[..12] == "Cluster{ID: "
    ensures r[12..] == IntToDecimal(c.base.id) + (", Name: " + c.name + ", Type: " + c.clusterType.value.name + "}")
  {
    var x := ", Name: " + c.name + ", Type: " + c.clusterType.value.name + "}";
    assert "Cluster{ID: " + IntToDecimal(c.base.id) + x == "Cluster{ID: " + (IntToDecimal(c.base.id) + x);
    "Cluster{ID: " + IntToDecimal(c.base.id) + x
  }

  /** `VM.String()`: after `VM{Id: ` the ID in decimal, then the name. */
  function VMString(vm: VM): (r: string)
    ensures |r| > 7 && r[..7] == "VM{Id: "
    ensures r[7..] == IntToDecimal(vm.base.id) + (", Name: " + vm.name + "}")
  {
    var x := ", Name: " + vm.name + "}";
    assert "VM{Id: " + IntToDecimal(vm.base.id) + x == "VM{Id: " + (IntToDecimal(vm.base.id) + x);
    "VM{Id: " + IntToDecimal(vm.base.id) + x
  }

  /** `VMInterface.String()`: the interface's name, then its VM's name. Go dereferences `VM`. */
  function VMInterfaceString(vmi: VMInterface): (r: string)
    requires vmi.vm.Some?
    ensures |r| > 18 && r[..18] == "VMInterface{Name: " && r[18..] == vmi.name + ", VM: " + vmi.vm.value.name + "}"
  {
    "VMInterface{Name: " + vmi.name + ", VM: " + vmi.vm.value.name + "}"
  }

  /** A cluster type's rendering gives back its name. */
  lemma ClusterTypeStringInjective(a: ClusterType, b: ClusterType)
    requires ClusterTypeString(a) == ClusterTypeString(b)
    ensures a.name == b.name
  {
    var s := ClusterTypeString(a);
    assert a.name == s[18..][..|s| - 19];
    assert b.name == ClusterTypeString(b)[18..][..|s| - 19];
  }

  /** A decimal rendering never contains the ',' that ends it. */
  lemma DecimalHasNoComma(n: int)
    ensures forall i :: 0 <= i < |IntToDecimal(n)| ==> IntToDecimal(n)[i] != ','
  {
  }

  /** A VM's rendering gives back both its ID and its name. */
  lemma VMStringInjective(a: VM, b: VM)
    requires VMString(a) == VMString(b)
    ensures a.base.id == b.base.id && a.name == b.name
  {
    var xa, xb := ", Name: " + a.name + "}", ", Name: " + b.name + "}";
    DecimalHasNoComma(a.base.id);
    DecimalHasNoComma(b.base.id);
    SplitAtSeparator(IntToDecimal(a.base.id), xa, IntToDecimal(b.base.id), xb, ',');
    DecimalInjective(a.base.id, b.base.id);
    assert a.name == xa[8..|xa| - 1];
    assert b.name == xb[8..|xb| - 1];
  }

  /** A cluster's rendering gives back its ID. */
  lemma ClusterStringDeterminesId(a: Cluster, b: Cluster)
    requires a.clusterType.Some? && b.clusterType.Some?
    requires ClusterString(a) == ClusterString(b)
    ensures a.base.id == b.base.id
  {
    var xa := ", Name: " + a.name + ", Type: " + a.clusterType.value.name + "}";
    var xb := ", Name: " + b.name + ", Type: " + b.clusterType.value.name + "}";
    DecimalHasNoComma(a.base.id);
    DecimalHasNoComma(b.base.id);
    SplitAtSeparator(IntToDecimal(a.base.id), xa, IntToDecimal(b.base.id), xb, ',');
    DecimalInjective(a.base.id, b.base.id);
  }

  /** Two interfaces with the same name on VMs of different names render differently. */
  lemma VMInterfaceStringShowsVM(a: VMInterface, b: VMInterface)
    requires a.vm.Some? && b.vm.Some? && a.name == b.name
    requires VMInterfaceString(a) == VMInterfaceString(b)
    ensures a.vm.value.name == b.vm.value.name
  {
    var p := "VMInterface{Name: " + a.name + ", VM: ";
    assert VMInterfaceString(a) == p + (a.vm.value.name + "}");
    assert VMInterfaceString(b) == p + (b.vm.value.name + "}");
    var s := VMInterfaceString(a);
    assert a.vm.value.name == s[|p|..|s| - 1];
    assert b.vm.value.name == VMInterfaceString(b)[|p|..|s| - 1];
  }
}
