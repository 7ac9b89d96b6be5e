# netbox-ssot: the inventory's create-or-patch pipeline, in Dafny

netbox-ssot keeps a NetBox instance in step with external sources. Its in-memory inventory
(`NetboxInventory`) holds one index per object kind, keyed by each kind's natural key. It also
holds an orphan manager: per kind, the IDs of backend objects that no source has reconfirmed.
Most of the 22 `Add*` methods do the same steps; the rows for each method below say where one departs
from them (no tag stamped, no orphan tracking, a different storage key, a different return value):

- it stamps the submitted object with the managed tag;
- it looks the object up by its natural key;
- if the key is absent, it creates the object on the backend and stores the reply;
- if the key is present, it unmarks the stored object as an orphan and diffs against it; only a
  non-empty diff is patched, and the patched object replaces the entry.

This project models that pipeline, plus three smaller parts:

- the reference matchers sources use to resolve a name to a site, tenant or VLAN group;
- the flattening JSON serialiser, as its two examples specify it;
- the virtualization records with their choice constants and `String` methods.

It then proves what each part promises.

Modules:

- `Upsert`: the pipeline written once over an abstract kind `T`.
  - `FlatUpsert` is one call on a single-key index and `NestedUpsert` one call on a two-level
    index. Both are specification functions.
  - The classes `FlatIndex` and `NestedIndex` hold the index, the orphan set and an `Endpoint`.
    The endpoint records every create and patch request sent to it.
  - Each `Upsert` method is proved to move the object to exactly the state its specification
    function computes.
  - The backend's create and patch, and the diff (`JSONDiffMapExceptID` with the source
    priority), are the `Oracles`. They may fail.
  - Go runtime panics are outcomes of their own (`Panic`), and the state changes made before
    the panic are kept. There are two: dereferencing a nil key reference, and writing into a
    nil inner map.
- `Tags`: `AddTag`'s slice, scanned by name (`slices.IndexFunc`) by a loop proved against
  `FirstByName`.
- `Assignments`: `AddContactAssignment`'s four-level index. The three inner levels for the
  submitted keys are allocated before the lookup.
- `Inventory`: `NetboxInventory`, with one store per kind. Each kind's behaviour is given by
  its key function, its orphan flag, whether a created object is stored under the submitted
  key or the reply's key, and its tag stamping. Each `Add*` method is stated as the
  specification function applied to the stamped object. Its result is what the Go method
  returns:
  - the entry under the submitted key (`None` is Go's nil);
  - the produced object itself (ClusterType; a created VM, IP address or prefix);
  - only the error (CustomField, Cluster).
- `Common`: the five `Match*` helpers. The regular-expression matcher is a parameter.
- `Marshal`: a record's body is a map from field name to JSON value.
  - `Flatten` walks the record's declared fields and leaves out the empty ones.
  - A reference becomes the referenced record's ID, and a tag list becomes its IDs in order.
  - A choice becomes its value string.
- `Objects`: the records, the choice constants and the `String` renderings. The decimal
  printing of `%d` is in `Format`, together with its parser.

## Model

| member | source | states |
|---|---|---|
| Upsert.FlatUpsert | internal/netbox/inventory/add_items.go:43-70 | A missing key gives exactly one create request, and the result is the backend's reply. A present key never creates and patches at most once. Only a hit of an orphan-tracked kind removes the stored object's ID from the orphan set. Any error leaves the index unchanged. Success on a hit replaces only the entry at that key. Success on a miss adds only the created object, under the submitted or reply key as the kind says. On a hit: a failing diff returns its error and sends nothing; an empty diff changes nothing and returns the stored object; a non-empty diff sends one patch of the stored ID with that diff and returns the backend's answer. |
| Upsert.RefreshExisting | internal/netbox/inventory/add_items.go:51-57 | The hit path, case by case: a failing diff returns its error with no request; an empty diff returns the stored object with no request and no replacement; a non-empty diff sends exactly one patch of the stored ID with that diff, returns the backend's answer, and replaces the entry exactly when the patch succeeded. |
| Upsert.FlatIndex.Upsert | internal/netbox/inventory/add_items.go:233-258 | The index, orphan set and request log after the call, and the returned result, are exactly `FlatUpsert` of the old state. |
| Upsert.FlatUpsertKeepsKeys | internal/netbox/inventory/add_items.go:45-68 | Natural-key uniqueness: if every stored entry sits under its own key and the backend echoes the key it is sent, that still holds after the call. |
| Upsert.FlatRepeatIsNoOp | internal/netbox/inventory/add_items.go:58-60 | Idempotence: resubmitting a just-created object whose diff is empty issues no further request. It also leaves the index and the result as they were. |
| Upsert.FlatMismatchedReplyCreatesAgain | internal/netbox/inventory/add_items.go:233-258 | For kinds that store the reply under the reply's key: if the reply's key differs from the submitted key, the submitted key stays absent, and resubmitting issues a second create. |
| Upsert.NestedUpsert | internal/netbox/inventory/add_items.go:450-481 | A nil key reference panics with no change. A missing key pair gives exactly one create; a present one never creates. A hit unmarks the stored object's ID. Outer keys are never dropped. Success leaves the result under the submitted pair on a hit, or under the reply's own pair on a create. On a hit a failing diff returns its error and sends nothing, an empty diff changes nothing and returns the stored object, and a non-empty diff sends one patch of the stored ID and returns the backend's answer. On a miss a failed create returns the backend's error with the index unchanged. A successful create whose reply has both key parts is stored under the reply's pair and returned; a reply with a nil key reference panics. |
| Upsert.NestedIndex.Upsert | internal/netbox/inventory/add_items.go:450-481 | The new state and the result are exactly `NestedUpsert` of the old state. |
| Upsert.NestedAsPairs | internal/netbox/inventory/add_items.go:470-478 | Seen as one map keyed by key pairs: a failure changes no entry, even a panic after the inner map was allocated. A successful hit replaces only the submitted pair's entry. A successful create adds only the reply's pair. |
| Tags.FirstByName | internal/netbox/inventory/add_items.go:13-15 | The result is -1 or an index whose tag has the name, and no earlier tag has it. -1 means no tag has the name. |
| Tags.TagList.IndexByName | internal/netbox/inventory/add_items.go:13-15 | The linear scan returns `FirstByName`. -1 is returned exactly when no tag has the name. |
| Tags.TagUpsert | internal/netbox/inventory/add_items.go:12-40 | A miss issues exactly one create and, on success, appends the reply, so the slice grows by one. A hit never creates. It patches at most once, and on success changes only the matched slot. On a hit a failing diff returns its error with no request, an empty diff issues no request and returns the stored tag, and a non-empty diff sends one patch of the matched tag's ID and returns the backend's answer. |
| Tags.TagList.Upsert | internal/netbox/inventory/add_items.go:12-40 | The slice, the request log and the result are exactly `TagUpsert` of the old state. |
| Tags.TagUpsertKeepsNamesDistinct | internal/netbox/inventory/add_items.go:12-40 | If the names in the slice are distinct and the backend keeps the name, they stay distinct. A successful call leaves its result as the first tag of that name. |
| Assignments.AssignmentUpsert | internal/netbox/inventory/add_items.go:164-173 | The content-type and object levels always exist after the call. The contact level exists whenever there is a contact. A nil contact or role panics before any request, leaving the orphan set unchanged. |
| Assignments.AssignmentRequests | internal/netbox/inventory/add_items.go:174-198 | A missing assignment gives exactly one create and leaves the orphan set alone. A failed create returns the backend's error. A present one never creates, patches at most once, and unmarks the stored ID whatever happens next. Then a failing diff returns its error with no request, an empty diff returns the stored assignment with no request, and a non-empty diff sends one patch of the stored ID with that diff and returns the backend's answer. |
| Assignments.AssignmentStored | internal/netbox/inventory/add_items.go:185-200 | On success after a hit, the result sits under the submitted keys: it is the stored assignment when the diff is empty, and the patch's answer otherwise. On success after a miss, it is the created assignment, and it sits under the reply's own keys. |
| Assignments.AssignmentCreated | internal/netbox/inventory/add_items.go:164-198 | A miss whose create succeeds: a reply with a nil contact or role panics. A reply whose three upper levels exist, either because they are the submitted keys' levels just allocated or because they existed before, is stored under its own keys and returned. Any other reply is a write into a nil map. |
| Assignments.AssignmentEntries | internal/netbox/inventory/add_items.go:164-201 | Entry by entry: the allocated levels add no assignment, and a failure changes none. A successful hit replaces the assignment under the submitted keys. A successful create adds the reply under the reply's keys. |
| Assignments.AssignmentStore.AllocateOuter | internal/netbox/inventory/add_items.go:165-170 | The two outer levels are allocated when missing. |
| Assignments.AssignmentStore.AllocateContact | internal/netbox/inventory/add_items.go:171-173 | The contact level is allocated when missing. |
| Assignments.AssignmentStore.Upsert | internal/netbox/inventory/add_items.go:164-201 | The new state and the result are exactly `AssignmentUpsert` of the old state. |
| Inventory.OrphanTracking | internal/netbox/inventory/add_items.go:136-140 | Site, ContactRole, ContactGroup and CustomField never touch the orphan manager. Every other single-key kind does. |
| Inventory.NetboxInventory.AddTag | internal/netbox/inventory/add_items.go:12-40 | The tag is not stamped. The call is `TagUpsert`, and the produced tag is returned. |
| Inventory.NetboxInventory.AddSite | internal/netbox/inventory/add_items.go:43-70 | The site is stamped. It is not orphan-tracked and is stored under the submitted name. The call returns the entry under that name. |
| Inventory.NetboxInventory.AddContactRole | internal/netbox/inventory/add_items.go:73-100 | The tags are replaced by exactly the managed tag. Not orphan-tracked. The reply is stored under its own name, and the entry under the submitted name is returned. |
| Inventory.NetboxInventory.AddContactGroup | internal/netbox/inventory/add_items.go:103-129 | No tag is added and the group is not orphan-tracked. The call returns the entry under the submitted name. |
| Inventory.NetboxInventory.AddContact | internal/netbox/inventory/add_items.go:132-160 | The contact is stamped and orphan-tracked, and stored under the submitted name. The call returns the entry under that name. |
| Inventory.NetboxInventory.AddContactAssignment | internal/netbox/inventory/add_items.go:164-201 | The assignment is stamped, and the call is `AssignmentUpsert`. It returns the entry under the submitted four keys. |
| Inventory.NetboxInventory.AddCustomField | internal/netbox/inventory/add_items.go:203-229 | No tag is added and it is not orphan-tracked. Only the error is returned. |
| Inventory.NetboxInventory.AddClusterGroup | internal/netbox/inventory/add_items.go:231-261 | The group is stamped and orphan-tracked, and the reply is stored under its own name. The call returns the entry under the submitted name. |
| Inventory.NetboxInventory.AddClusterType | internal/netbox/inventory/add_items.go:263-293 | The type is stamped and orphan-tracked. The call returns the stored, patched or created object itself. |
| Inventory.NetboxInventory.AddCluster | internal/netbox/inventory/add_items.go:295-324 | The cluster is stamped and orphan-tracked. Only the error is returned. |
| Inventory.NetboxInventory.AddDeviceRole | internal/netbox/inventory/add_items.go:326-355 | The role is stamped, orphan-tracked and keyed by name. The call returns the entry under the submitted name. |
| Inventory.NetboxInventory.AddManufacturer | internal/netbox/inventory/add_items.go:357-386 | The manufacturer is stamped, orphan-tracked and keyed by name. The call returns the entry under the submitted name. |
| Inventory.NetboxInventory.AddDeviceType | internal/netbox/inventory/add_items.go:388-417 | The type is stamped, orphan-tracked and keyed by model. The call returns the entry under the submitted model. |
| Inventory.NetboxInventory.AddPlatform | internal/netbox/inventory/add_items.go:419-448 | The platform is stamped, orphan-tracked and keyed by name. The call returns the entry under the submitted name. |
| Inventory.NetboxInventory.AddDevice | internal/netbox/inventory/add_items.go:450-481 | The device is stamped and keyed by name, then site ID. The call is `NestedUpsert` and returns the entry under the submitted pair. |
| Inventory.NetboxInventory.AddVlanGroup | internal/netbox/inventory/add_items.go:483-512 | The group is stamped, orphan-tracked and keyed by name. The call returns the entry under the submitted name. |
| Inventory.NetboxInventory.AddVlan | internal/netbox/inventory/add_items.go:514-546 | The VLAN is stamped and keyed by group ID, then VID. The call returns the entry under the submitted pair. |
| Inventory.NetboxInventory.AddInterface | internal/netbox/inventory/add_items.go:548-580 | The interface is stamped and keyed by device ID, then name. The call returns the entry under the submitted pair. |
| Inventory.NetboxInventory.AddVM | internal/netbox/inventory/add_items.go:582-612 | The VM is stamped, orphan-tracked and keyed by name. A hit returns the entry under the submitted name, and a create returns the created VM. |
| Inventory.NetboxInventory.AddVMInterface | internal/netbox/inventory/add_items.go:614-646 | The interface is stamped and keyed by VM ID, then name. The call returns the entry under the submitted pair. |
| Inventory.NetboxInventory.AddIPAddress | internal/netbox/inventory/add_items.go:648-678 | The address is stamped, orphan-tracked and keyed by address. A hit returns the entry, and a create returns the created object. |
| Inventory.NetboxInventory.AddPrefix | internal/netbox/inventory/add_items.go:680-710 | The prefix is stamped, orphan-tracked and keyed by prefix. A hit returns the entry, and a create returns the created object. |
| Common.MatchVlanToGroup | internal/source/common/utils.go:14-31 | A nil relations map or an empty match gives the default group's entry, possibly none, with no error. A matcher error gives an error with the "matching vlan to group: " prefix. A matched name gives exactly that group, or the "no vlan group exists" error when it is absent. |
| Common.MatchVlanToTenant | internal/source/common/utils.go:36-53 | A nil map or an empty match gives no tenant and no error. A matcher error is prefixed. A matched name gives exactly that tenant, or the "doesn't exist" error. |
| Common.MatchHostToSite | internal/source/common/utils.go:58-74 | The same rules as above over the sites index, with the host-to-site prefix and error. |
| Common.MatchHostToTenant | internal/source/common/utils.go:79-95 | The same rules over the tenants index, with the host-to-tenant prefix. |
| Common.MatchVMToTenant | internal/source/common/utils.go:100-116 | The same rules over the tenants index, with the vm-to-tenant prefix. |
| Common.MatchesComeFromInventory | internal/source/common/utils.go:23-27 | Whatever a helper returns is an object already held in the index it reads. |
| Common.TenantHelpersAgree | internal/source/common/utils.go:88-109 | The three tenant helpers read the same index. They fail on the same inputs and otherwise return the same tenant. |
| Marshal.Ints | internal/utils/netbox_marshal_test.go:74 | A list of IDs becomes a JSON array of the same length, holding the same IDs in order. |
| Marshal.TagIds | internal/utils/netbox_marshal_test.go:16-20 | A tag list becomes its IDs in order, with tags sharing a name all kept. |
| Marshal.FlattenSound | internal/utils/netbox_marshal_test.go:72-81 | `Flatten`: every key of the body comes from a declared field that is not empty, and carries that field's value. |
| Marshal.MarshalCluster | internal/utils/netbox_marshal_test.go:72-81 | A cluster's body uses no keys beyond id, tags, description, name, type, group, site, status, tenant_group and tenant. |
| Marshal.MarshalClusterGroup | internal/netbox/objects/virtualization.go:5-12 | A cluster group's body uses no keys beyond id, tags, description, name and slug. |
| Marshal.MarshalClusterType | internal/netbox/objects/virtualization.go:14-20 | A cluster type's body uses no keys beyond id, tags, description, name and slug. |
| Marshal.MarshalVM | internal/netbox/objects/virtualization.go:68-102 | A VM's body uses no keys beyond the base ones and the VM's declared JSON names. |
| Marshal.MarshalVMInterface | internal/netbox/objects/virtualization.go:119-141 | An interface's body uses no keys beyond the base ones and the interface's declared JSON names. |
| Marshal.MarshalDevice | internal/utils/netbox_marshal_test.go:143-152 | A device's body uses no keys beyond the base ones and name, role, device_type, airflow, status and site. |
| Marshal.FlattenKeys | internal/utils/netbox_marshal_test.go:72-81 | The body's keys are exactly the names of the non-empty fields. |
| Marshal.FlattenField | internal/utils/netbox_marshal_test.go:72-81 | With distinct field names, each non-empty field is written as its value, and an empty field leaves no key. |
| Marshal.FlattenAgrees | internal/utils/netbox_marshal_test.go:24-46 | Field lists that agree in names, presence and values give the same body. |
| Marshal.FlattenConcat | internal/utils/netbox_marshal_test.go:143-152 | The body of two joined field lists is the union of their bodies, with the earlier list's fields winning where both set a key. |
| Marshal.BaseOfBody | internal/utils/netbox_marshal_test.go:13-21 | The top-level ID appears only when non-zero. The tags appear only when present, as their IDs in order. The description appears only when set. |
| Marshal.ClusterBodyReferences | internal/utils/netbox_marshal_test.go:24-70 | A cluster's type, group, site and tenant each appear exactly when set, as the referenced record's ID. |
| Marshal.ClusterBody | internal/utils/netbox_marshal_test.go:72-81 | A cluster's body: each reference as above, and the status exactly when its value is non-empty, as that value. The name appears exactly when set. There are no keys beyond the cluster's declared fields. |
| Marshal.ClusterBodyIgnoresReferencedDetails | internal/utils/netbox_marshal_test.go:24-46 | Two clusters that agree on their own fields and on the IDs they reference have equal bodies. The referenced records' tags, descriptions, names and slugs never show. |
| Marshal.ExampleBase | internal/utils/netbox_marshal_test.go:13-21 | The embedded part of the examples flattens to the description plus the tag IDs 1, 3 and 4. The ID is 0 and is left out. |
| Marshal.ClusterExampleOwn | internal/utils/netbox_marshal_test.go:22-70 | The example cluster's own fields flatten to name, type 2, group 4, site 2, status "active" and tenant 1. The unset tenant group is dropped. |
| Marshal.ClusterExample | internal/utils/netbox_marshal_test.go:12-93 | `TestNetboxMarshal`: the example cluster's body is exactly the expected map. |
| Marshal.DeviceExampleOwn | internal/utils/netbox_marshal_test.go:105-141 | The example device's own fields flatten to name, role 1, device type 1, airflow "front-to-rear", status "active" and site 1. |
| Marshal.DeviceExample | internal/utils/netbox_marshal_test.go:95-165 | `TestNetboxJsonMarshalWithChoiceAttr`: the example device's body is exactly the expected map. |
| Objects.ClusterStatusChoices | internal/netbox/objects/virtualization.go:30-33 | The cluster statuses are exactly active/Active and offline/Offline, with distinct values and distinct labels. |
| Objects.VMStatusChoices | internal/netbox/objects/virtualization.go:62-65 | The VM statuses are exactly active/Active and offline/Offline, with distinct values and distinct labels. |
| Objects.VMInterfaceModeChoices | internal/netbox/objects/virtualization.go:113-117 | The interface modes are exactly access/Access, tagged/Tagged and tagged-all/Tagged All, with distinct values and distinct labels. |
| Objects.ClusterTypeString | internal/netbox/objects/virtualization.go:22-24 | The rendering is `ClusterType{Name: ` followed by the name and a closing brace. |
| Objects.ClusterString | internal/netbox/objects/virtualization.go:54-56 | After `Cluster{ID: ` come the ID in decimal, the name and the type's name. A cluster with no type cannot be rendered. |
| Objects.VMString | internal/netbox/objects/virtualization.go:104-106 | After `VM{Id: ` come the ID in decimal and the name. |
| Objects.VMInterfaceString | internal/netbox/objects/virtualization.go:143-145 | After `VMInterface{Name: ` come the interface's name and its VM's name. An interface with no VM cannot be rendered. |
| Objects.ClusterTypeStringInjective | internal/netbox/objects/virtualization.go:22-24 | A cluster type's rendering gives back its name. |
| Objects.ClusterStringDeterminesId | internal/netbox/objects/virtualization.go:54-56 | Clusters with equal renderings have equal IDs. The rendering needs a non-nil type. |
| Objects.VMStringInjective | internal/netbox/objects/virtualization.go:104-106 | VMs with equal renderings have equal IDs and equal names. |
| Objects.VMInterfaceStringShowsVM | internal/netbox/objects/virtualization.go:143-145 | Interfaces of the same name with equal renderings belong to VMs of the same name. The rendering needs a non-nil VM. |

## Left out

- The HTTP layer (`internal/netbox/service/api.go`), and the bodies of `service.Create` and
  `service.Patch`. They are the `create` and `patch` oracles, and requests are recorded on an
  `Endpoint`.
- `utils.JSONDiffMapExceptID` and the source-priority rules: the `diff` oracle. Its result is
  a field map, or an error.
- `utils.MatchStringToValue`, a regular-expression match: the `Matcher` parameter.
- `objects.DefaultVlanGroupName` is defined outside these files and is a parameter of
  `MatchVlanToGroup`.
- Logger calls. They produce output only.
- Concurrency: the code has none.
- The orphan sweep and the loading of the inventory from the backend. The constructor of
  `NetboxInventory` takes its stores as they are, and an orphan set is only state that a hit
  removes from.
- The mutation of the argument's own tag list.
  - Each `Add*` method is stated on the stamped copy of the submitted object.
  - The caller's object itself is not updated.
  - In `AddContactAssignment` the stamp comes after the level allocation. Allocation does not
    read the tags, so the model stamps first.
- `VM.VCPUs` is a float32 and is not modelled.
- The records declared outside `virtualization.go` keep only the fields the keys and the
  serialiser's examples use. `Device` keeps the fields of its example.
- The byte layout and key order of the JSON. A body is a map.
- `NetboxJSONMarshal` itself is not part of this model. `Flatten` is stated from its two
  examples and the records' `omitempty` tags. Three cases no example shows are the model's
  choices:
  - a `false` flag is left out;
  - a choice with an empty value is left out;
  - a set reference is written as its ID even when that ID is 0.
- The field lists of `VMInterface` and `VM` are in the model. No example fixes their bodies, so
  beyond the keys they may use no lemma states them.
- The top-level index maps of the inventory are always allocated in the model, as the
  inventory's constructor allocates them in the program. A nil top-level map, which would make
  a Go write panic, is not modelled. The inner maps of the two-key and four-key kinds can be
  missing, and their allocation is modelled.
