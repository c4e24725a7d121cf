/** The `ibm_firewall` resource (a dedicated hardware firewall): the price
    selection and order of its create handler, the wait for the ordered
    firewall, and the outcome rules of its read, delete and exists handlers. */
module Firewall {
  import opened Common
  import opened SoftLayer
  import OrderPoll

  const FwHardwareDedicatedPackageType := "ADDITIONAL_SERVICES_FIREWALL"
  const CreateError := "Error during creation of dedicated hardware firewall"

  /** The keyname of the product item to order. */
  function FirewallKeyName(haEnabled: bool): (keyName: string)
    ensures keyName == "HARDWARE_FIREWALL_HIGH_AVAILABILITY" <==> haEnabled
    ensures keyName == "HARDWARE_FIREWALL_DEDICATED" <==> !haEnabled
  {
    if haEnabled then "HARDWARE_FIREWALL_HIGH_AVAILABILITY" else "HARDWARE_FIREWALL_DEDICATED"
  }

  /** The loop keeping the package's items whose keyname is the wanted one. */
  method SelectTargetItems(items: seq<ProductItem>, keyName: string) returns (targetItems: seq<ProductItem>)
    ensures targetItems == Selected(items, keyName, Exact)
  {
    targetItems := [];
    for i := 0 to |items|
      invariant targetItems == Selected(items[..i], keyName, Exact)
    {
      assert items[..i + 1][..i] == items[..i];
      if items[i].keyName == keyName {
        targetItems := targetItems + [items[i]];
      }
    }
    assert items[..|items|] == items;
  }

  /** The order container placed for a firewall. */
  datatype FirewallOrder = FirewallOrder(packageId: int, priceIds: seq<int>, quantity: int, vlanId: int)

  /** The order Create builds from the package lookup and its products. */
  function FirewallOrderFor(haEnabled: bool, publicVlanId: int, pkg: Result<int>,
                            products: int -> Result<seq<ProductItem>>): Result<FirewallOrder>
  {
    var pkgId :- pkg;
    var items :- products(pkgId);
    var targetItems := Selected(items, FirewallKeyName(haEnabled), Exact);
    if targetItems == [] then Err(NoMatchingItems(FirewallKeyName(haEnabled)))
    else if targetItems[0].priceIds == [] then Err(Crash)
    else Ok(FirewallOrder(pkgId, [targetItems[0].priceIds[0]], 1, publicVlanId))
  }

  /** `resourceIBMFirewallCreate` up to the order it places. */
  method PlanFirewallOrder(haEnabled: bool, publicVlanId: int, pkg: Result<int>,
                           products: int -> Result<seq<ProductItem>>) returns (r: Result<FirewallOrder>)
    ensures r == FirewallOrderFor(haEnabled, publicVlanId, pkg, products)
  {
    var keyName := FirewallKeyName(haEnabled);
    var pkgId :- pkg;
    var items :- products(pkgId);
    var targetItems := SelectTargetItems(items, keyName);
    if |targetItems| == 0 {
      return Err(NoMatchingItems(keyName));
    }
    if |targetItems[0].priceIds| == 0 {
      return Err(Crash);
    }
    return Ok(FirewallOrder(pkgId, [targetItems[0].priceIds[0]], 1, publicVlanId));
  }

  /** With the package and its items known, the order fails exactly when no
      item has the keyname, and otherwise holds one price (the first price of
      the first such item), quantity 1 and the public VLAN. */
  lemma FirewallOrderPrice(haEnabled: bool, publicVlanId: int, pkgId: int,
                           products: int -> Result<seq<ProductItem>>, items: seq<ProductItem>)
    requires products(pkgId) == Ok(items)
    ensures var r := FirewallOrderFor(haEnabled, publicVlanId, Ok(pkgId), products);
      && ((forall j :: 0 <= j < |items| ==> items[j].keyName != FirewallKeyName(haEnabled)) <==>
            r == Err(NoMatchingItems(FirewallKeyName(haEnabled))))
      && (r.Ok? ==>
            && r.value.packageId == pkgId && r.value.quantity == 1 && r.value.vlanId == publicVlanId
            && |r.value.priceIds| == 1
            && exists i :: IsFirstMatch(items, FirewallKeyName(haEnabled), Exact, i) &&
                 |items[i].priceIds| > 0 && r.value.priceIds[0] == items[i].priceIds[0])
  {
    SelectedHead(items, FirewallKeyName(haEnabled), Exact);
  }

  /** A network VLAN as the order listing returns it: its id, its firewall's id
      and whether the firewall is highly available. */
  datatype FirewallVlan = FirewallVlan(id: int, firewallId: int, haEnabled: bool)

  /** `findDedicatedFirewallByOrderId`. */
  method FindDedicatedFirewallByOrderId(listing: nat -> Result<seq<FirewallVlan>>, maxTicks: nat)
    returns (r: Result<FirewallVlan>, ticks: nat)
    ensures (r, ticks) == OrderPoll.Awaited(listing, "dedicated firewall", 0, maxTicks)
  {
    r, ticks := OrderPoll.WaitForOrder(listing, "dedicated firewall", maxTicks);
  }

  /** The resource's attributes in the state (the id is the firewall's). */
  datatype FirewallState = FirewallState(id: int, haEnabled: bool, publicVlanId: int, tags: seq<string>)

  /** Create after the order call and before its closing read, whose error
      Create would return: the order's error and the wait's error are both
      reported; the id, `ha_enabled` and `public_vlan_id` come from the found
      VLAN, and a failure to set non-empty tags is reported for that id. */
  function FinishFirewallCreate(prior: FirewallState, placed: Result<int>, found: Result<FirewallVlan>,
                                tags: string, setTags: int -> Result<()>): (r: Result<FirewallState>)
    ensures placed.Err? ==> r == Err(Wrapped(CreateError, placed.error))
    ensures placed.Ok? && found.Err? ==> r == Err(Wrapped(CreateError, found.error))
    ensures r.Ok? ==> found.Ok? && r.value == prior.(id := found.value.firewallId,
                                                     haEnabled := found.value.haEnabled,
                                                     publicVlanId := found.value.id)
    ensures placed.Ok? && found.Ok? ==>
      var id := found.value.firewallId;
      r == if tags != "" && setTags(id).Err? then Err(TagsNotSet(id))
           else Ok(prior.(id := id, haEnabled := found.value.haEnabled, publicVlanId := found.value.id))
  {
    if placed.Err? then Err(Wrapped(CreateError, placed.error))
    else if found.Err? then Err(Wrapped(CreateError, found.error))
    else
      var vlan := found.value;
      var id := vlan.firewallId;
      if tags != "" && setTags(id).Err? then Err(TagsNotSet(id))
      else Ok(prior.(id := id, haEnabled := vlan.haEnabled, publicVlanId := vlan.id))
  }

  /** The firewall object the API returns for the read mask. */
  datatype FirewallObject = FirewallObject(networkVlanId: int, haEnabled: bool, tagReferences: seq<TagReference>)

  /** `resourceIBMFirewallRead` from the fetched object onwards. */
  method ReadFirewall(prior: FirewallState, fetched: Result<FirewallObject>) returns (r: Result<FirewallState>)
    ensures fetched.Err? ==> r == Err(Wrapped("Error retrieving firewall information", fetched.error))
    ensures fetched.Ok? ==> r.Ok?
    ensures fetched.Ok? ==>
      var fw, s := fetched.value, r.value;
      && s.id == prior.id && s.publicVlanId == fw.networkVlanId && s.haEnabled == fw.haEnabled
      && (fw.tagReferences == [] ==> s.tags == prior.tags)
      && (fw.tagReferences != [] ==>
            |s.tags| == |fw.tagReferences| &&
            (forall i :: 0 <= i < |fw.tagReferences| ==> s.tags[i] == fw.tagReferences[i].tagName))
  {
    if fetched.Err? {
      return Err(Wrapped("Error retrieving firewall information", fetched.error));
    }
    var fw := fetched.value;
    var tags := ReadTags(prior.tags, fw.tagReferences);
    return Ok(prior.(publicVlanId := fw.networkVlanId, haEnabled := fw.haEnabled, tags := tags));
  }

  /** `resourceIBMFirewallDelete` after the billing-item lookup: the billing
      item it cancelled. */
  function DeleteFirewall(fwId: int, billing: Result<BillingItem>, cancel: int -> Result<bool>): (r: Result<int>)
    ensures r.Ok? <==> billing.Ok? && billing.value.id.Some? && cancel(billing.value.id.value) == Ok(true)
    ensures r.Ok? ==> billing.value.id == Some(r.value)
    ensures billing.Err? ==> r == Err(Wrapped("Error while looking up billing item associated with the firewall", billing.error))
    ensures billing.Ok? && billing.value.id.None? ==> r == Err(NoBillingItem(fwId))
    ensures billing.Ok? && billing.value.id.Some? && cancel(billing.value.id.value) == Ok(false) ==>
      r == Err(UnsuccessfulCancellation)
    ensures billing.Ok? && billing.value.id.Some? && cancel(billing.value.id.value).Err? ==>
      r == Err(cancel(billing.value.id.value).error)
  {
    match billing
    case Err(e) => Err(Wrapped("Error while looking up billing item associated with the firewall", e))
    case Ok(item) =>
      match item.id
      case None => Err(NoBillingItem(fwId))
      case Some(id) =>
        match cancel(id)
        case Err(e) => Err(e)
        case Ok(success) => if !success then Err(UnsuccessfulCancellation) else Ok(id)
  }

  /** `resourceIBMFirewallExists` after the lookup of the firewall. */
  function FirewallExists(fetched: Result<FirewallObject>): (r: Result<bool>)
    ensures r == Ok(true) <==> fetched.Ok?
    ensures r == Ok(false) <==> fetched == Err(Remote(ApiError(404)))
    ensures r.Err? ==> fetched.Err? && r.error == Wrapped("Error retrieving firewall information", fetched.error)
  {
    match fetched
    case Err(Remote(ApiError(404))) => Ok(false)
    case Err(e) => Err(Wrapped("Error retrieving firewall information", e))
    case Ok(_) => Ok(true)
  }
}
