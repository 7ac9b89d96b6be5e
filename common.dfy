/** Reference resolution for sources (package `common`): a host, VM or VLAN name is mapped
    through configured name relations to a site, tenant or VLAN group already in the inventory.
    The regular-expression matching (`utils.MatchStringToValue`) is a parameter. The helpers
    only read the inventory. */
module Common {
  import opened Wrappers
  import opened Objects
  import opened Inventory

  /** Configured relations, pattern → target name. `None` is a nil map. */
  type Relations = map<string, string>

  /** `utils.MatchStringToValue(name, relations)`: the target of the matching pattern, "" when
      no pattern matches, or an error text. */
  type Matcher = (string, Relations) -> Result<string, string>

  /** The shape all five helpers share: a nil map or an empty match gives `fallback`, a matcher
      error is prefixed with `context`, and a matched name must be in `index`. */
  function Resolve<T>(
    index: map<string, T>, name: string, relations: Option<Relations>, matcher: Matcher,
    context: string, notFound: string -> string, fallback: Option<T>): Result<Option<T>, string>
  {
    if relations.None? then Success(fallback)
    else match matcher(name, relations.value)
      case Failure(e) => Failure(context + e)
      case Success(target) =>
        if target == "" then Success(fallback)
        else if target in index then Success(Some(index[target]))
        else Failure(notFound(target))
  }

  function NoVlanGroup(target: string): string {
    "no vlan group exists with name: " + target
  }

  function NoTenant(target: string): string {
    "tenant with name " + target + " doesn't exist"
  }

  function NoSite(target: string): string {
    "site with name " + target + " doesn't exist"
  }

  /** The configured VLAN group of a VLAN, defaulting to the group named `defaultGroup` (which
      may be absent: then no group). */
  function MatchVlanToGroup(nbi: NetboxInventory, vlanName: string, relations: Option<Relations>, matcher: Matcher,
                            defaultGroup: string): (r: Result<Option<VlanGroup>, string>)
    reads nbi.vlanGroups
    ensures relations.None? ==> r == Success(Lookup(nbi.vlanGroups.index, defaultGroup))
    ensures relations.Some? && matcher(vlanName, relations.value).Failure? ==>
      r == Failure("matching vlan to group: " + matcher(vlanName, relations.value).error)
    ensures relations.Some? && matcher(vlanName, relations.value) == Success("") ==>
      r == Success(Lookup(nbi.vlanGroups.index, defaultGroup))
    ensures relations.Some? && matcher(vlanName, relations.value).Success? && matcher(vlanName, relations.value).value != "" ==>
      var target := matcher(vlanName, relations.value).value;
      r == if target in nbi.vlanGroups.index then Success(Some(nbi.vlanGroups.index[target])) else Failure(NoVlanGroup(target))
  {
    Resolve(nbi.vlanGroups.index, vlanName, relations, matcher, "matching vlan to group: ", NoVlanGroup,
            Lookup(nbi.vlanGroups.index, defaultGroup))
  }

  /** The configured tenant of a VLAN, or none. */
  function MatchVlanToTenant(nbi: NetboxInventory, vlanName: string, relations: Option<Relations>, matcher: Matcher)
    : (r: Result<Option<Tenant>, string>)
    reads nbi
    ensures relations.None? ==> r == Success(None)
    ensures relations.Some? && matcher(vlanName, relations.value).Failure? ==>
      r == Failure("matching vlan to tenant: " + matcher(vlanName, relations.value).error)
    ensures relations.Some? && matcher(vlanName, relations.value) == Success("") ==> r == Success(None)
    ensures relations.Some? && matcher(vlanName, relations.value).Success? && matcher(vlanName, relations.value).value != "" ==>
      var target := matcher(vlanName, relations.value).value;
      r == if target in nbi.tenants then Success(Some(nbi.tenants[target])) else Failure(NoTenant(target))
  {
    Resolve(nbi.tenants, vlanName, relations, matcher, "matching vlan to tenant: ", NoTenant, None)
  }

  /** The configured site of a host, or none. */
  function MatchHostToSite(nbi: NetboxInventory, hostName: string, relations: Option<Relations>, matcher: Matcher)
    : (r: Result<Option<Site>, string>)
    reads nbi.sites
    ensures relations.None? ==> r == Success(None)
    ensures relations.Some? && matcher(hostName, relations.value).Failure? ==>
      r == Failure("matching host to site: " + matcher(hostName, relations.value).error)
    ensures relations.Some? && matcher(hostName, relations.value) == Success("") ==> r == Success(None)
    ensures relations.Some? && matcher(hostName, relations.value).Success? && matcher(hostName, relations.value).value != "" ==>
      var target := matcher(hostName, relations.value).value;
      r == if target in nbi.sites.index then Success(Some(nbi.sites.index[target])) else Failure(NoSite(target))
  {
    Resolve(nbi.sites.index, hostName, relations, matcher, "matching host to site: ", NoSite, None)
  }

  /** The configured tenant of a host, or none. */
  function MatchHostToTenant(nbi: NetboxInventory, hostName: string, relations: Option<Relations>, matcher: Matcher)
    : (r: Result<Option<Tenant>, string>)
    reads nbi
    ensures relations.None? ==> r == Success(None)
    ensures relations.Some? && matcher(hostName, relations.value).Failure? ==>
      r == Failure("matching host to tenant: " + matcher(hostName, relations.value).error)
    ensures relations.Some? && matcher(hostName, relations.value) == Success("") ==> r == Success(None)
    ensures relations.Some? && matcher(hostName, relations.value).Success? && matcher(hostName, relations.value).value != "" ==>
      var target := matcher(hostName, relations.value).value;
      r == if target in nbi.tenants then Success(Some(nbi.tenants[target])) else Failure(NoTenant(target))
  {
    Resolve(nbi.tenants, hostName, relations, matcher, "matching host to tenant: ", NoTenant, None)
  }

  /** The configured tenant of a VM, or none. */
  function MatchVMToTenant(nbi: NetboxInventory, vmName: string, relations: Option<Relations>, matcher: Matcher)
    : (r: Result<Option<Tenant>, string>)
    reads nbi
    ensures relations.None? ==> r == Success(None)
    ensures relations.Some? && matcher(vmName, relations.value).Failure? ==>
      r == Failure("matching vm to tenant: " + matcher(vmName, relations.value).error)
    ensures relations.Some? && matcher(vmName, relations.value) == Success("") ==> r == Success(None)
    ensures relations.Some? && matcher(vmName, relations.value).Success? && matcher(vmName, relations.value).value != "" ==>
      var target := matcher(vmName, relations.value).value;
      r == if target in nbi.tenants then Success(Some(nbi.tenants[target])) else Failure(NoTenant(target))
  {
    Resolve(nbi.tenants, vmName, relations, matcher, "matching vm to tenant: ", NoTenant, None)
  }

  /** Whatever a helper returns is an object the inventory already holds: the helpers never
      invent a site, tenant or VLAN group. */
  lemma MatchesComeFromInventory(nbi: NetboxInventory, name: string, relations: Option<Relations>, matcher: Matcher,
                                 defaultGroup: string)
    ensures var r := MatchVlanToGroup(nbi, name, relations, matcher, defaultGroup);
      r.Success? && r.value.Some? ==> r.value.value in nbi.vlanGroups.index.Values
    ensures var r := MatchHostToSite(nbi, name, relations, matcher);
      r.Success? && r.value.Some? ==> r.value.value in nbi.sites.index.Values
    ensures var r := MatchVlanToTenant(nbi, name, relations, matcher);
      r.Success? && r.value.Some? ==> r.value.value in nbi.tenants.Values
    ensures var r := MatchHostToTenant(nbi, name, relations, matcher);
      r.Success? && r.value.Some? ==> r.value.value in nbi.tenants.Values
    ensures var r := MatchVMToTenant(nbi, name, relations, matcher);
      r.Success? && r.value.Some? ==> r.value.value in nbi.tenants.Values
  {
  }

  /** The three tenant helpers consult the same tenants index: they resolve a name to the same
      tenant, and fail on the same inputs (only the error's context differs). */
  lemma TenantHelpersAgree(nbi: NetboxInventory, name: string, relations: Option<Relations>, matcher: Matcher)
    ensures var h := MatchHostToTenant(nbi, name, relations, matcher);
      var v := MatchVMToTenant(nbi, name, relations, matcher);
      var l := MatchVlanToTenant(nbi, name, relations, matcher);
      && h.Success? == v.Success? == l.Success?
      && (h.Success? ==> h.value == v.value == l.value)
  {
  }
}
