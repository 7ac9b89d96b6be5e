/** The inventory (`NetboxInventory`) and its `Add*` methods. Each method stamps the
    submitted object with the managed tag as its kind requires, runs the create-or-patch step of
    its index (module `Upsert`, `Tags` or `Assignments`) and returns what the Go method returns:
    the entry stored under the submitted key (`None` for Go's nil), the produced object itself,
    or only the error. */
module Inventory {
  import opened Wrappers
  import opened Objects
  import opened Upsert
  import opened Tags
  import opened Assignments

  /** `x.Tags = append(x.Tags, nbi.SsotTag)`. */
  function Stamp(b: NetboxObject, ssot: Tag): NetboxObject {
    b.(tags := b.tags + [ssot])
  }

  /** `return index[key], nil`, or the error. */
  function StoredAt<K, T>(res: Result<T, Error>, index: map<K, T>, key: K): Result<Option<T>, Error> {
    if res.Failure? then Failure(res.error) else Success(Lookup(index, key))
  }

  /** `return index[k1][k2], nil`, or the error. */
  function StoredAt2<K1, K2, T>(res: Result<T, Error>, index: map<K1, map<K2, T>>, k1: Option<K1>, k2: Option<K2>)
    : Result<Option<T>, Error>
  {
    if res.Failure? then Failure(res.error)
    else if k1.Some? && k2.Some? then Success(Lookup2(index, k1.value, k2.value))
    else Success(None)
  }

  /** A method that returns only `error`. */
  function OutcomeOf<T>(res: Result<T, Error>): Outcome<Error> {
    if res.Failure? then Fail(res.error) else Pass
  }

  // ---- index descriptions: natural key, ID, orphan tracking, key used on create ----

  function SiteKind(): FlatKind<string, Site> {
    FlatKind((x: Site) => x.name, (x: Site) => x.base.id, false, SubmittedKey)
  }

  function ContactRoleKind(): FlatKind<string, ContactRole> {
    FlatKind((x: ContactRole) => x.name, (x: ContactRole) => x.base.id, false, ReplyKey)
  }

  function ContactGroupKind(): FlatKind<string, ContactGroup> {
    FlatKind((x: ContactGroup) => x.name, (x: ContactGroup) => x.base.id, false, ReplyKey)
  }

  function ContactKind(): FlatKind<string, Contact> {
    FlatKind((x: Contact) => x.name, (x: Contact) => x.base.id, true, SubmittedKey)
  }

  function CustomFieldKind(): FlatKind<string, CustomField> {
    FlatKind((x: CustomField) => x.name, (x: CustomField) => x.base.id, false, ReplyKey)
  }

  function ClusterGroupKind(): FlatKind<string, ClusterGroup> {
    FlatKind((x: ClusterGroup) => x.name, (x: ClusterGroup) => x.base.id, true, ReplyKey)
  }

  function ClusterTypeKind(): FlatKind<string, ClusterType> {
    FlatKind((x: ClusterType) => x.name, (x: ClusterType) => x.base.id, true, ReplyKey)
  }

  function ClusterKind(): FlatKind<string, Cluster> {
    FlatKind((x: Cluster) => x.name, (x: Cluster) => x.base.id, true, ReplyKey)
  }

  function DeviceRoleKind(): FlatKind<string, DeviceRole> {
    FlatKind((x: DeviceRole) => x.name, (x: DeviceRole) => x.base.id, true, ReplyKey)
  }

  function ManufacturerKind(): FlatKind<string, Manufacturer> {
    FlatKind((x: Manufacturer) => x.name, (x: Manufacturer) => x.base.id, true, ReplyKey)
  }

  function DeviceTypeKind(): FlatKind<string, DeviceType> {
    FlatKind((x: DeviceType) => x.model, (x: DeviceType) => x.base.id, true, ReplyKey)
  }

  function PlatformKind(): FlatKind<string, Platform> {
    FlatKind((x: Platform) => x.name, (x: Platform) => x.base.id, true, ReplyKey)
  }

  function VlanGroupKind(): FlatKind<string, VlanGroup> {
    FlatKind((x: VlanGroup) => x.name, (x: VlanGroup) => x.base.id, true, ReplyKey)
  }

  function VMKind(): FlatKind<string, VM> {
    FlatKind((x: VM) => x.name, (x: VM) => x.base.id, true, ReplyKey)
  }

  function IPAddressKind(): FlatKind<string, IPAddress> {
    FlatKind((x: IPAddress) => x.address, (x: IPAddress) => x.base.id, true, ReplyKey)
  }

  function PrefixKind(): FlatKind<string, Prefix> {
    FlatKind((x: Prefix) => x.prefix, (x: Prefix) => x.base.id, true, ReplyKey)
  }

  function DeviceKind(): NestedKind<string, int, Device> {
    NestedKind((x: Device) => Some(x.name), (x: Device) => if x.site.Some? then Some(x.site.value.base.id) else None, (x: Device) => x.base.id)
  }

  function VlanKind(): NestedKind<int, int, Vlan> {
    NestedKind((x: Vlan) => if x.group.Some? then Some(x.group.value.base.id) else None, (x: Vlan) => Some(x.vid), (x: Vlan) => x.base.id)
  }

  function InterfaceKind(): NestedKind<int, string, Interface> {
    NestedKind((x: Interface) => if x.device.Some? then Some(x.device.value.base.id) else None, (x: Interface) => Some(x.name), (x: Interface) => x.base.id)
  }

  function VMInterfaceKind(): NestedKind<int, string, VMInterface> {
    NestedKind((x: VMInterface) => if x.vm.Some? then Some(x.vm.value.base.id) else None, (x: VMInterface) => Some(x.name), (x: VMInterface) => x.base.id)
  }

  /** The orphan-tracking flags, stated once: Site, ContactRole, ContactGroup and CustomField
      (and Tag, which has no orphan set) never touch the orphan manager. */
  lemma OrphanTracking()
    ensures !SiteKind().tracksOrphans && !ContactRoleKind().tracksOrphans
    ensures !ContactGroupKind().tracksOrphans && !CustomFieldKind().tracksOrphans
    ensures ContactKind().tracksOrphans && ClusterGroupKind().tracksOrphans && ClusterTypeKind().tracksOrphans
    ensures ClusterKind().tracksOrphans && DeviceRoleKind().tracksOrphans && ManufacturerKind().tracksOrphans
    ensures DeviceTypeKind().tracksOrphans && PlatformKind().tracksOrphans && VlanGroupKind().tracksOrphans
    ensures VMKind().tracksOrphans && IPAddressKind().tracksOrphans && PrefixKind().tracksOrphans
  {
  }

  class NetboxInventory {
    /** The tag every managed object carries. */
    const ssotTag: Tag
    const tags: TagList
    const sites: FlatIndex<string, Site>
    const contactRoles: FlatIndex<string, ContactRole>
    const contactGroups: FlatIndex<string, ContactGroup>
    const contacts: FlatIndex<string, Contact>
    const contactAssignments: AssignmentStore
    const customFields: FlatIndex<string, CustomField>
    const clusterGroups: FlatIndex<string, ClusterGroup>
    const clusterTypes: FlatIndex<string, ClusterType>
    const clusters: FlatIndex<string, Cluster>
    const deviceRoles: FlatIndex<string, DeviceRole>
    const manufacturers: FlatIndex<string, Manufacturer>
    const deviceTypes: FlatIndex<string, DeviceType>
    const platforms: FlatIndex<string, Platform>
    const vlanGroups: FlatIndex<string, VlanGroup>
    const vms: FlatIndex<string, VM>
    const ipAddresses: FlatIndex<string, IPAddress>
    const prefixes: FlatIndex<string, Prefix>
    const devices: NestedIndex<string, int, Device>
    const vlans: NestedIndex<int, int, Vlan>
    const interfaces: NestedIndex<int, string, Interface>
    const vmInterfaces: NestedIndex<int, string, VMInterface>
    /** `TenantsIndexByName`; no `Add*` method of this model writes it. */
    var tenants: map<string, Tenant>

    /** An inventory over the indexes bootstrap loaded (their loading is not part of this model). */
    constructor (
      ssotTag: Tag,
      tenants: map<string, Tenant>,
      tags: TagList,
      sites: FlatIndex<string, Site>,
      contactRoles: FlatIndex<string, ContactRole>,
      contactGroups: FlatIndex<string, ContactGroup>,
      contacts: FlatIndex<string, Contact>,
      contactAssignments: AssignmentStore,
      customFields: FlatIndex<string, CustomField>,
      clusterGroups: FlatIndex<string, ClusterGroup>,
      clusterTypes: FlatIndex<string, ClusterType>,
      clusters: FlatIndex<string, Cluster>,
      deviceRoles: FlatIndex<string, DeviceRole>,
      manufacturers: FlatIndex<string, Manufacturer>,
      deviceTypes: FlatIndex<string, DeviceType>,
      platforms: FlatIndex<string, Platform>,
      vlanGroups: FlatIndex<string, VlanGroup>,
      vms: FlatIndex<string, VM>,
      ipAddresses: FlatIndex<string, IPAddress>,
      prefixes: FlatIndex<string, Prefix>,
      devices: NestedIndex<string, int, Device>,
      vlans: NestedIndex<int, int, Vlan>,
      interfaces: NestedIndex<int, string, Interface>,
      vmInterfaces: NestedIndex<int, string, VMInterface>)
      ensures this.ssotTag == ssotTag && this.tenants == tenants
      ensures this.tags == tags
      ensures this.sites == sites
      ensures this.contactRoles == contactRoles
      ensures this.contactGroups == contactGroups
      ensures this.contacts == contacts
      ensures this.contactAssignments == contactAssignments
      ensures this.customFields == customFields
      ensures this.clusterGroups == clusterGroups
      ensures this.clusterTypes == clusterTypes
      ensures this.clusters == clusters
      ensures this.deviceRoles == deviceRoles
      ensures this.manufacturers == manufacturers
      ensures this.deviceTypes == deviceTypes
      ensures this.platforms == platforms
      ensures this.vlanGroups == vlanGroups
      ensures this.vms == vms
      ensures this.ipAddresses == ipAddresses
      ensures this.prefixes == prefixes
      ensures this.devices == devices
      ensures this.vlans == vlans
      ensures this.interfaces == interfaces
      ensures this.vmInterfaces == vmInterfaces
    {
      this.ssotTag := ssotTag;
      this.tenants := tenants;
      this.tags := tags;
      this.sites := sites;
      this.contactRoles := contactRoles;
      this.contactGroups := contactGroups;
      this.contacts := contacts;
      this.contactAssignments := contactAssignments;
      this.customFields := customFields;
      this.clusterGroups := clusterGroups;
      this.clusterTypes := clusterTypes;
      this.clusters := clusters;
      this.deviceRoles := deviceRoles;
      this.manufacturers := manufacturers;
      this.deviceTypes := deviceTypes;
      this.platforms := platforms;
      this.vlanGroups := vlanGroups;
      this.vms := vms;
      this.ipAddresses := ipAddresses;
      this.prefixes := prefixes;
      this.devices := devices;
      this.vlans := vlans;
      this.interfaces := interfaces;
      this.vmInterfaces := vmInterfaces;
    }

    /** `AddTag`: no stamping; returns the patched, stored or created tag. */
    method AddTag(t: Tag, ora: Oracles<Tag>) returns (r: Result<Tag, Error>)
      modifies tags, tags.api
      ensures Step(tags.State(), r) == TagUpsert(old(tags.State()), t, ora)
    {
      r := tags.Upsert(t, ora);
    }

    /** `AddSite`: stores a created site under the submitted name (the reply's name is not used). */
    method AddSite(o: Site, ora: Oracles<Site>) returns (r: Result<Option<Site>, Error>)
      modifies sites, sites.api
      ensures var st := FlatUpsert(SiteKind(), old(sites.State()), o.(base := Stamp(o.base, ssotTag)), ora);
        sites.State() == st.state && r == StoredAt(st.result, st.state.index, o.name)
    {
      var res := sites.Upsert(SiteKind(), o.(base := Stamp(o.base, ssotTag)), ora);
      r := StoredAt(res, sites.index, o.name);
    }

    /** `AddContactRole`: the tags are replaced by exactly the managed tag. */
    method AddContactRole(o: ContactRole, ora: Oracles<ContactRole>) returns (r: Result<Option<ContactRole>, Error>)
      modifies contactRoles, contactRoles.api
      ensures var st := FlatUpsert(ContactRoleKind(), old(contactRoles.State()), o.(base := o.base.(tags := [ssotTag])), ora);
        contactRoles.State() == st.state && r == StoredAt(st.result, st.state.index, o.name)
    {
      var res := contactRoles.Upsert(ContactRoleKind(), o.(base := o.base.(tags := [ssotTag])), ora);
      r := StoredAt(res, contactRoles.index, o.name);
    }

    /** `AddContactGroup`: no tag is added. */
    method AddContactGroup(o: ContactGroup, ora: Oracles<ContactGroup>) returns (r: Result<Option<ContactGroup>, Error>)
      modifies contactGroups, contactGroups.api
      ensures var st := FlatUpsert(ContactGroupKind(), old(contactGroups.State()), o, ora);
        contactGroups.State() == st.state && r == StoredAt(st.result, st.state.index, o.name)
    {
      var res := contactGroups.Upsert(ContactGroupKind(), o, ora);
      r := StoredAt(res, contactGroups.index, o.name);
    }

    /** `AddContact`: stores a created contact under the submitted name. */
    method AddContact(o: Contact, ora: Oracles<Contact>) returns (r: Result<Option<Contact>, Error>)
      modifies contacts, contacts.api
      ensures var st := FlatUpsert(ContactKind(), old(contacts.State()), o.(base := Stamp(o.base, ssotTag)), ora);
        contacts.State() == st.state && r == StoredAt(st.result, st.state.index, o.name)
    {
      var res := contacts.Upsert(ContactKind(), o.(base := Stamp(o.base, ssotTag)), ora);
      r := StoredAt(res, contacts.index, o.name);
    }

    /** `AddContactAssignment`: stamped after the levels are allocated, which the model cannot
        tell apart from stamping first; returns the entry under the submitted keys. */
    method AddContactAssignment(o: ContactAssignment, ora: Oracles<ContactAssignment>)
      returns (r: Result<Option<ContactAssignment>, Error>)
      modifies contactAssignments, contactAssignments.api
      ensures var st := AssignmentUpsert(old(contactAssignments.State()), o.(base := Stamp(o.base, ssotTag)), ora);
        && contactAssignments.State() == st.state
        && r == if st.result.Failure? then Failure(st.result.error)
                else Success(Lookup4(st.state.index, KeysOf(o).value.0, KeysOf(o).value.1, KeysOf(o).value.2, KeysOf(o).value.3))
    {
      var res := contactAssignments.Upsert(o.(base := Stamp(o.base, ssotTag)), ora);
      if res.Failure? {
        r := Failure(res.error);
      } else {
        r := Success(Lookup4(contactAssignments.index, o.contentType, o.objectID, o.contact.value.base.id, o.role.value.base.id));
      }
    }

    /** `AddCustomField`: no tag is added and only the error is returned. */
    method AddCustomField(o: CustomField, ora: Oracles<CustomField>) returns (r: Outcome<Error>)
      modifies customFields, customFields.api
      ensures var st := FlatUpsert(CustomFieldKind(), old(customFields.State()), o, ora);
        customFields.State() == st.state && r == OutcomeOf(st.result)
    {
      var res := customFields.Upsert(CustomFieldKind(), o, ora);
      r := OutcomeOf(res);
    }

    /** `AddClusterGroup`. */
    method AddClusterGroup(o: ClusterGroup, ora: Oracles<ClusterGroup>) returns (r: Result<Option<ClusterGroup>, Error>)
      modifies clusterGroups, clusterGroups.api
      ensures var st := FlatUpsert(ClusterGroupKind(), old(clusterGroups.State()), o.(base := Stamp(o.base, ssotTag)), ora);
        clusterGroups.State() == st.state && r == StoredAt(st.result, st.state.index, o.name)
    {
      var res := clusterGroups.Upsert(ClusterGroupKind(), o.(base := Stamp(o.base, ssotTag)), ora);
      r := StoredAt(res, clusterGroups.index, o.name);
    }

    /** `AddClusterType`: returns the patched, stored or created object itself. */
    method AddClusterType(o: ClusterType, ora: Oracles<ClusterType>) returns (r: Result<ClusterType, Error>)
      modifies clusterTypes, clusterTypes.api
      ensures var st := FlatUpsert(ClusterTypeKind(), old(clusterTypes.State()), o.(base := Stamp(o.base, ssotTag)), ora);
        clusterTypes.State() == st.state && r == st.result
    {
      var res := clusterTypes.Upsert(ClusterTypeKind(), o.(base := Stamp(o.base, ssotTag)), ora);
      r := res;
    }

    /** `AddCluster`: only the error is returned. */
    method AddCluster(o: Cluster, ora: Oracles<Cluster>) returns (r: Outcome<Error>)
      modifies clusters, clusters.api
      ensures var st := FlatUpsert(ClusterKind(), old(clusters.State()), o.(base := Stamp(o.base, ssotTag)), ora);
        clusters.State() == st.state && r == OutcomeOf(st.result)
    {
      var res := clusters.Upsert(ClusterKind(), o.(base := Stamp(o.base, ssotTag)), ora);
      r := OutcomeOf(res);
    }

    /** `AddDeviceRole`. */
    method AddDeviceRole(o: DeviceRole, ora: Oracles<DeviceRole>) returns (r: Result<Option<DeviceRole>, Error>)
      modifies deviceRoles, deviceRoles.api
      ensures var st := FlatUpsert(DeviceRoleKind(), old(deviceRoles.State()), o.(base := Stamp(o.base, ssotTag)), ora);
        deviceRoles.State() == st.state && r == StoredAt(st.result, st.state.index, o.name)
    {
      var res := deviceRoles.Upsert(DeviceRoleKind(), o.(base := Stamp(o.base, ssotTag)), ora);
      r := StoredAt(res, deviceRoles.index, o.name);
    }

    /** `AddManufacturer`. */
    method AddManufacturer(o: Manufacturer, ora: Oracles<Manufacturer>) returns (r: Result<Option<Manufacturer>, Error>)
      modifies manufacturers, manufacturers.api
      ensures var st := FlatUpsert(ManufacturerKind(), old(manufacturers.State()), o.(base := Stamp(o.base, ssotTag)), ora);
        manufacturers.State() == st.state && r == StoredAt(st.result, st.state.index, o.name)
    {
      var res := manufacturers.Upsert(ManufacturerKind(), o.(base := Stamp(o.base, ssotTag)), ora);
      r := StoredAt(res, manufacturers.index, o.name);
    }

    /** `AddDeviceType`: keyed by model. */
    method AddDeviceType(o: DeviceType, ora: Oracles<DeviceType>) returns (r: Result<Option<DeviceType>, Error>)
      modifies deviceTypes, deviceTypes.api
      ensures var st := FlatUpsert(DeviceTypeKind(), old(deviceTypes.State()), o.(base := Stamp(o.base, ssotTag)), ora);
        deviceTypes.State() == st.state && r == StoredAt(st.result, st.state.index, o.model)
    {
      var res := deviceTypes.Upsert(DeviceTypeKind(), o.(base := Stamp(o.base, ssotTag)), ora);
      r := StoredAt(res, deviceTypes.index, o.model);
    }

    /** `AddPlatform`. */
    method AddPlatform(o: Platform, ora: Oracles<Platform>) returns (r: Result<Option<Platform>, Error>)
      modifies platforms, platforms.api
      ensures var st := FlatUpsert(PlatformKind(), old(platforms.State()), o.(base := Stamp(o.base, ssotTag)), ora);
        platforms.State() == st.state && r == StoredAt(st.result, st.state.index, o.name)
    {
      var res := platforms.Upsert(PlatformKind(), o.(base := Stamp(o.base, ssotTag)), ora);
      r := StoredAt(res, platforms.index, o.name);
    }

    /** `AddVlanGroup`. */
    method AddVlanGroup(o: VlanGroup, ora: Oracles<VlanGroup>) returns (r: Result<Option<VlanGroup>, Error>)
      modifies vlanGroups, vlanGroups.api
      ensures var st := FlatUpsert(VlanGroupKind(), old(vlanGroups.State()), o.(base := Stamp(o.base, ssotTag)), ora);
        vlanGroups.State() == st.state && r == StoredAt(st.result, st.state.index, o.name)
    {
      var res := vlanGroups.Upsert(VlanGroupKind(), o.(base := Stamp(o.base, ssotTag)), ora);
      r := StoredAt(res, vlanGroups.index, o.name);
    }

    /** `AddVM`: a create returns the created object, a hit the stored one. */
    method AddVM(o: VM, ora: Oracles<VM>) returns (r: Result<Option<VM>, Error>)
      modifies vms, vms.api
      ensures var st := FlatUpsert(VMKind(), old(vms.State()), o.(base := Stamp(o.base, ssotTag)), ora);
        vms.State() == st.state && r == if o.name in old(vms.index) then StoredAt(st.result, st.state.index, o.name) else (if st.result.Success? then Success(Some(st.result.value)) else Failure(st.result.error))
    {
      var hit := o.name in vms.index;
      var res := vms.Upsert(VMKind(), o.(base := Stamp(o.base, ssotTag)), ora);
      if hit || res.Failure? {
        r := StoredAt(res, vms.index, o.name);
      } else {
        r := Success(Some(res.value));
      }
    }

    /** `AddIPAddress`: keyed by address; a create returns the created object. */
    method AddIPAddress(o: IPAddress, ora: Oracles<IPAddress>) returns (r: Result<Option<IPAddress>, Error>)
      modifies ipAddresses, ipAddresses.api
      ensures var st := FlatUpsert(IPAddressKind(), old(ipAddresses.State()), o.(base := Stamp(o.base, ssotTag)), ora);
        ipAddresses.State() == st.state && r == if o.address in old(ipAddresses.index) then StoredAt(st.result, st.state.index, o.address) else (if st.result.Success? then Success(Some(st.result.value)) else Failure(st.result.error))
    {
      var hit := o.address in ipAddresses.index;
      var res := ipAddresses.Upsert(IPAddressKind(), o.(base := Stamp(o.base, ssotTag)), ora);
      if hit || res.Failure? {
        r := StoredAt(res, ipAddresses.index, o.address);
      } else {
        r := Success(Some(res.value));
      }
    }

    /** `AddPrefix`: keyed by prefix; a create returns the created object. */
    method AddPrefix(o: Prefix, ora: Oracles<Prefix>) returns (r: Result<Option<Prefix>, Error>)
      modifies prefixes, prefixes.api
      ensures var st := FlatUpsert(PrefixKind(), old(prefixes.State()), o.(base := Stamp(o.base, ssotTag)), ora);
        prefixes.State() == st.state && r == if o.prefix in old(prefixes.index) then StoredAt(st.result, st.state.index, o.prefix) else (if st.result.Success? then Success(Some(st.result.value)) else Failure(st.result.error))
    {
      var hit := o.prefix in prefixes.index;
      var res := prefixes.Upsert(PrefixKind(), o.(base := Stamp(o.base, ssotTag)), ora);
      if hit || res.Failure? {
        r := StoredAt(res, prefixes.index, o.prefix);
      } else {
        r := Success(Some(res.value));
      }
    }

    /** `AddDevice`: keyed by name, then site ID. */
    method AddDevice(o: Device, ora: Oracles<Device>) returns (r: Result<Option<Device>, Error>)
      modifies devices, devices.api
      ensures var st := NestedUpsert(DeviceKind(), old(devices.State()), o.(base := Stamp(o.base, ssotTag)), ora);
        && devices.State() == st.state
        && r == StoredAt2(st.result, st.state.index, DeviceKind().outerKeyOf(o), DeviceKind().innerKeyOf(o))
    {
      var res := devices.Upsert(DeviceKind(), o.(base := Stamp(o.base, ssotTag)), ora);
      r := StoredAt2(res, devices.index, DeviceKind().outerKeyOf(o), DeviceKind().innerKeyOf(o));
    }

    /** `AddVlan`: keyed by VLAN group ID, then VID. */
    method AddVlan(o: Vlan, ora: Oracles<Vlan>) returns (r: Result<Option<Vlan>, Error>)
      modifies vlans, vlans.api
      ensures var st := NestedUpsert(VlanKind(), old(vlans.State()), o.(base := Stamp(o.base, ssotTag)), ora);
        && vlans.State() == st.state
        && r == StoredAt2(st.result, st.state.index, VlanKind().outerKeyOf(o), VlanKind().innerKeyOf(o))
    {
      var res := vlans.Upsert(VlanKind(), o.(base := Stamp(o.base, ssotTag)), ora);
      r := StoredAt2(res, vlans.index, VlanKind().outerKeyOf(o), VlanKind().innerKeyOf(o));
    }

    /** `AddInterface`: keyed by device ID, then name. */
    method AddInterface(o: Interface, ora: Oracles<Interface>) returns (r: Result<Option<Interface>, Error>)
      modifies interfaces, interfaces.api
      ensures var st := NestedUpsert(InterfaceKind(), old(interfaces.State()), o.(base := Stamp(o.base, ssotTag)), ora);
        && interfaces.State() == st.state
        && r == StoredAt2(st.result, st.state.index, InterfaceKind().outerKeyOf(o), InterfaceKind().innerKeyOf(o))
    {
      var res := interfaces.Upsert(InterfaceKind(), o.(base := Stamp(o.base, ssotTag)), ora);
      r := StoredAt2(res, interfaces.index, InterfaceKind().outerKeyOf(o), InterfaceKind().innerKeyOf(o));
    }

    /** `AddVMInterface`: keyed by VM ID, then name. */
    method AddVMInterface(o: VMInterface, ora: Oracles<VMInterface>) returns (r: Result<Option<VMInterface>, Error>)
      modifies vmInterfaces, vmInterfaces.api
      ensures var st := NestedUpsert(VMInterfaceKind(), old(vmInterfaces.State()), o.(base := Stamp(o.base, ssotTag)), ora);
        && vmInterfaces.State() == st.state
        && r == StoredAt2(st.result, st.state.index, VMInterfaceKind().outerKeyOf(o), VMInterfaceKind().innerKeyOf(o))
    {
      var res := vmInterfaces.Upsert(VMInterfaceKind(), o.(base := Stamp(o.base, ssotTag)), ora);
      r := StoredAt2(res, vmInterfaces.index, VMInterfaceKind().outerKeyOf(o), VMInterfaceKind().innerKeyOf(o));
    }
  }
}
