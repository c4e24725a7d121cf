/** The `ibm_network_vlan` resource: the checks and derived fields of its
    create, read, delete and exists handlers, the selection of catalogue
    prices for its order, and the wait for the ordered VLAN. */
module NetworkVlan {
  import opened Common
  import Strings
  import opened SoftLayer
  import OrderPoll

  const AdditionalServicesPackageType := "ADDITIONAL_SERVICES"
  const AdditionalServicesNetworkVlanPackageType := "ADDITIONAL_SERVICES_NETWORK_VLAN"
  const TypeError := "vlan type should be either 'PRIVATE' or 'PUBLIC'"

  // ---------------------------------------------------------------------------
  // The `type` attribute and its relation to the router hostname

  /** The `type` attribute's validator: its warnings and its errors. */
  function ValidateType(vlanType: string): (r: (seq<string>, seq<string>))
    ensures r.0 == []
    ensures r.1 == [] <==> vlanType in {"PRIVATE", "PUBLIC"}
    ensures r.1 != [] ==> r.1 == [TypeError]
  {
    if vlanType != "PRIVATE" && vlanType != "PUBLIC" then ([], [TypeError]) else ([], [])
  }

  /** Create's check that the requested type fits the requested router: private
      VLANs sit behind back-end routers ("bcr"), public ones behind front-end routers ("fcr"). */
  function RouterMismatch(vlanType: string, router: string): (mismatch: bool)
    ensures router == "" ==> !mismatch
    ensures mismatch ==> vlanType in {"PRIVATE", "PUBLIC"}
    ensures mismatch <==> vlanType in {"PRIVATE", "PUBLIC"} && exists i :: Strings.OccursAt(router, ForbiddenRouter(vlanType), i)
  {
    Strings.ContainsAt(router, ForbiddenRouter(vlanType));
    (vlanType == "PRIVATE" && |router| > 0 && Strings.Contains(router, "fcr")) ||
    (vlanType == "PUBLIC" && |router| > 0 && Strings.Contains(router, "bcr"))
  }

  /** The router kind a VLAN of this type must not be placed behind. */
  function ForbiddenRouter(vlanType: string): string
  {
    if vlanType == "PRIVATE" then "fcr" else "bcr"
  }

  /** Read's type for a primary router hostname. */
  function DerivedType(hostname: string): (vlanType: string)
    ensures vlanType in {"PRIVATE", "PUBLIC"}
    ensures vlanType == "PUBLIC" <==> Strings.HasPrefix(hostname, "fcr")
  {
    if Strings.HasPrefix(hostname, "fcr") then "PUBLIC" else "PRIVATE"
  }

  /** The type Read derives always passes the validator, and it passes Create's
      mismatch check unless the hostname holds the other router kind too. */
  lemma ReadTypeAcceptedByCreate(hostname: string)
    ensures ValidateType(DerivedType(hostname)).1 == []
    ensures !Strings.Contains(hostname, "fcr") ==> !RouterMismatch(DerivedType(hostname), hostname)
    ensures Strings.HasPrefix(hostname, "fcr") && !Strings.Contains(hostname, "bcr") ==>
      !RouterMismatch(DerivedType(hostname), hostname)
  {
    if !Strings.Contains(hostname, "fcr") && Strings.HasPrefix(hostname, "fcr") {
      Strings.PrefixContained(hostname, "fcr");
    }
  }

  // ---------------------------------------------------------------------------
  // Subnets

  /** Go's 64-bit `int`. */
  newtype int64 = x: int | -0x8000_0000_0000_0000 <= x < 0x8000_0000_0000_0000

  function Pow2(n: nat): (p: nat)
    ensures p >= 1
  {
    if n == 0 then 1 else 2 * Pow2(n - 1)
  }

  lemma {:induction false} Pow2Monotone(m: nat, n: nat)
    requires m <= n
    ensures Pow2(m) <= Pow2(n)
    decreases n - m
  {
    if m < n {
      Pow2Monotone(m, n - 1);
    }
  }

  /** Go's `1 << (uint)(32 - cidr)` for a 64-bit `int` cidr: the shift count is
      taken modulo 2^64, a count of 64 or more shifts everything out and a
      count of 63 leaves only the sign bit. */
  function ShiftedSubnetSize(cidr: int64): int64
  {
    var count := (32 - cidr as int) % 0x1_0000_0000_0000_0000;
    if count >= 64 then 0
    else if count == 63 then -0x8000_0000_0000_0000
    else
      Pow2Monotone(count, 62);
      assert Pow2(62) == 0x4000_0000_0000_0000 by { Pow2Is62(); }
      Pow2(count) as int64
  }

  lemma Pow2Is62()
    ensures Pow2(32) == 0x1_0000_0000
    ensures Pow2(62) == 0x4000_0000_0000_0000
  {
    assert Pow2(8) == 256;
    assert Pow2(16) == 256 * 256 by { Pow2Add(8, 8); }
    assert Pow2(32) == 0x1_0000_0000 by { Pow2Add(16, 16); }
    assert Pow2(14) == 0x4000 by { Pow2Add(8, 6); }
    assert Pow2(30) == 0x4000_0000 by { Pow2Add(16, 14); }
    assert Pow2(62) == 0x1_0000_0000 * 0x4000_0000 by { Pow2Add(32, 30); }
  }

  lemma {:induction false} Pow2Add(a: nat, b: nat)
    ensures Pow2(a + b) == Pow2(a) * Pow2(b)
    decreases b
  {
    if b > 0 {
      Pow2Add(a, b - 1);
    }
  }

  /** A subnet of the VLAN as the API returns it. */
  datatype Subnet = Subnet(networkIdentifier: string, cidr: int64, subnetType: string)

  /** One entry of the `subnets` attribute. */
  datatype SubnetEntry = SubnetEntry(subnet: string, subnetType: string)

  /** `subnet_size`: the address count of the first subnet, or 0 without subnets. */
  function SubnetSize(subnets: seq<Subnet>): int64
  {
    if |subnets| > 0 then ShiftedSubnetSize(subnets[0].cidr) else 0
  }

  /** For a prefix length in 0..32 the size is 2^(32 - cidr), between 1 and 2^32,
      and one bit less of prefix doubles it. */
  lemma SubnetSizeOfPrefix(cidr: int64)
    requires 0 <= cidr <= 32
    ensures ShiftedSubnetSize(cidr) as int == Pow2(32 - cidr as int)
    ensures 1 <= ShiftedSubnetSize(cidr) as int <= 0x1_0000_0000
    ensures cidr > 0 ==> ShiftedSubnetSize(cidr - 1) as int == 2 * ShiftedSubnetSize(cidr) as int
  {
    ShiftCountOfPrefix(cidr);
    Pow2Monotone(32 - cidr as int, 32);
    Pow2Is62();
    if cidr > 0 {
      ShiftCountOfPrefix(cidr - 1);
      assert Pow2(33 - cidr as int) == 2 * Pow2(32 - cidr as int);
    }
  }

  /** For a prefix length in 0..32 the unsigned shift count is just 32 - cidr. */
  lemma ShiftCountOfPrefix(cidr: int64)
    requires 0 <= cidr <= 32
    ensures ShiftedSubnetSize(cidr) as int == Pow2(32 - cidr as int)
  {
    var count := (32 - cidr as int) % 0x1_0000_0000_0000_0000;
    assert count == 32 - cidr as int;
  }

  /** A prefix longer than 32 shifts by a huge unsigned count and yields 0. */
  lemma SubnetSizeBeyondPrefix(cidr: int64)
    requires cidr > 32
    ensures ShiftedSubnetSize(cidr) == 0
  {
  }

  /** The `subnet` string of an entry: network identifier, "/", decimal prefix length. */
  function SubnetString(networkIdentifier: string, cidr: int64): string
  {
    networkIdentifier + "/" + Strings.Itoa(cidr as int)
  }

  /** The network identifier and prefix length are recovered from the subnet string. */
  lemma SubnetStringRoundTrip(networkIdentifier: string, cidr: int64)
    ensures var s := SubnetString(networkIdentifier, cidr);
      && Strings.SplitLast(s, '/') == Some((networkIdentifier, Strings.Itoa(cidr as int)))
      && Strings.ParseInt(Strings.Itoa(cidr as int)) == Some(cidr as int)
  {
    Strings.ItoaRoundTrip(cidr as int);
    Strings.SplitLastOf(networkIdentifier, Strings.Itoa(cidr as int), '/');
  }

  /** The loop that appends one `subnets` entry per API subnet. */
  method SubnetEntries(subnets: seq<Subnet>) returns (entries: seq<SubnetEntry>)
    ensures |entries| == |subnets|
    ensures forall i :: 0 <= i < |subnets| ==>
      entries[i] == SubnetEntry(SubnetString(subnets[i].networkIdentifier, subnets[i].cidr), subnets[i].subnetType)
  {
    entries := [];
    var i := 0;
    while i < |subnets|
      invariant 0 <= i <= |subnets|
      invariant |entries| == i
      invariant forall j :: 0 <= j < i ==>
        entries[j] == SubnetEntry(SubnetString(subnets[j].networkIdentifier, subnets[j].cidr), subnets[j].subnetType)
    {
      var elem := subnets[i];
      entries := entries + [SubnetEntry(SubnetString(elem.networkIdentifier, elem.cidr), elem.subnetType)];
      i := i + 1;
    }
  }

  // ---------------------------------------------------------------------------
  // Read

  datatype Router = Router(hostname: string, datacenter: Option<string>)

  /** The VLAN object the API returns for the read mask. */
  datatype VlanObject = VlanObject(
    id: int,
    vlanNumber: int,
    guestNetworkComponentCount: int,
    name: Option<string>,
    primaryRouter: Option<Router>,
    billingItem: Option<BillingItem>,
    subnets: seq<Subnet>,
    tagReferences: seq<TagReference>)

  /** The resource's attributes in the state. */
  datatype VlanState = VlanState(
    id: int,
    vlanNumber: int,
    childResourceCount: int,
    name: string,
    routerHostname: string,
    vlanType: string,
    datacenter: string,
    softlayerManaged: bool,
    subnets: seq<SubnetEntry>,
    subnetSize: int64,
    tags: seq<string>)

  /** `resourceIBMNetworkVlanRead` from the fetched object onwards. */
  method ReadVlan(prior: VlanState, fetched: Result<VlanObject>) returns (r: Result<VlanState>)
    ensures fetched.Err? ==> r == Err(Wrapped("Error retrieving vlan", fetched.error))
    ensures fetched.Ok? ==> r.Ok?
    ensures fetched.Ok? ==>
      var v, s := fetched.value, r.value;
      && s.id == v.id && s.vlanNumber == v.vlanNumber
      && s.childResourceCount == v.guestNetworkComponentCount
      && s.name == v.name.GetOr("")
      && (v.primaryRouter.None? ==>
            s.routerHostname == prior.routerHostname && s.vlanType == prior.vlanType && s.datacenter == prior.datacenter)
      && (v.primaryRouter.Some? ==>
            && s.routerHostname == v.primaryRouter.value.hostname
            && (s.vlanType == "PUBLIC" <==> Strings.HasPrefix(v.primaryRouter.value.hostname, "fcr"))
            && s.vlanType in {"PUBLIC", "PRIVATE"}
            && s.datacenter == v.primaryRouter.value.datacenter.GetOr(prior.datacenter))
      && (s.softlayerManaged <==> v.billingItem.None?)
      && |s.subnets| == |v.subnets|
      && (forall i :: 0 <= i < |v.subnets| ==>
            s.subnets[i] == SubnetEntry(SubnetString(v.subnets[i].networkIdentifier, v.subnets[i].cidr), v.subnets[i].subnetType))
      && s.subnetSize == SubnetSize(v.subnets)
      && (v.tagReferences == [] ==> s.tags == prior.tags)
      && (v.tagReferences != [] ==>
            |s.tags| == |v.tagReferences| &&
            (forall i :: 0 <= i < |v.tagReferences| ==> s.tags[i] == v.tagReferences[i].tagName))
  {
    if fetched.Err? {
      return Err(Wrapped("Error retrieving vlan", fetched.error));
    }
    var vlan := fetched.value;
    var d := prior.(id := vlan.id, vlanNumber := vlan.vlanNumber,
                    childResourceCount := vlan.guestNetworkComponentCount, name := vlan.name.GetOr(""));
    if vlan.primaryRouter.Some? {
      var router := vlan.primaryRouter.value;
      d := d.(routerHostname := router.hostname);
      if Strings.HasPrefix(router.hostname, "fcr") {
        d := d.(vlanType := "PUBLIC");
      } else {
        d := d.(vlanType := "PRIVATE");
      }
      if router.datacenter.Some? {
        d := d.(datacenter := router.datacenter.value);
      }
    }
    d := d.(softlayerManaged := vlan.billingItem.None?);
    var subnets := SubnetEntries(vlan.subnets);
    d := d.(subnets := subnets, subnetSize := SubnetSize(vlan.subnets));
    var tags := ReadTags(d.tags, vlan.tagReferences);
    d := d.(tags := tags);
    return Ok(d);
  }

  // ---------------------------------------------------------------------------
  // Delete and Exists

  /** `resourceIBMNetworkVlanDelete` after the billing-item lookup: the billing
      item it cancelled, None when there was none to cancel. The cancellation's
      boolean answer is not looked at. */
  function DeleteVlan(billing: Result<BillingItem>, cancel: int -> Result<bool>): (r: Result<Option<int>>)
    ensures billing.Err? ==> r == Err(Wrapped("Error deleting vlan", billing.error))
    ensures billing.Ok? && billing.value.id.None? ==> r == Ok(None)
    ensures billing.Ok? && billing.value.id.Some? ==>
      var id := billing.value.id.value;
      r == if cancel(id).Err? then Err(cancel(id).error) else Ok(Some(id))
    ensures r == Ok(None) ==> billing == Ok(BillingItem(None))
  {
    match billing
    case Err(e) => Err(Wrapped("Error deleting vlan", e))
    case Ok(item) =>
      match item.id
      case None => Ok(None)
      case Some(id) =>
        match cancel(id)
        case Err(e) => Err(e)
        case Ok(_) => Ok(Some(id))
  }

  /** `resourceIBMNetworkVlanExists` after the lookup of the VLAN's id. */
  function VlanExists(vlanId: int, fetchedId: Result<Option<int>>): (r: Result<bool>)
    ensures r == Ok(true) <==> fetchedId == Ok(Some(vlanId))
    ensures r == Ok(false) <==> fetchedId == Err(Remote(ApiError(404))) || (fetchedId.Ok? && fetchedId.value != Some(vlanId))
    ensures r.Err? <==> fetchedId.Err? && fetchedId.error != Remote(ApiError(404))
  {
    match fetchedId
    case Err(Remote(ApiError(404))) => Ok(false)
    case Err(e) => Err(Wrapped("Error communicating with the API", e))
    case Ok(id) => Ok(id.Some? && id.value == vlanId)
  }

  // ---------------------------------------------------------------------------
  // The VLAN order

  /** The configuration Create orders from. */
  datatype VlanConfig = VlanConfig(vlanType: string, datacenter: string, subnetSize: int, router: string)

  /** The catalogue lookups the order needs, as answered by the API. */
  datatype VlanCatalog = VlanCatalog(
    datacenterId: string -> Result<int>,
    packageId: string -> Result<int>,
    packageProducts: int -> Result<seq<ProductItem>>,
    routerId: string -> Result<int>)

  /** The order container placed for a VLAN. */
  datatype VlanOrder = VlanOrder(packageId: int, location: string, priceIds: seq<int>, quantity: int, routerId: Option<int>)

  function VlanKeyName(vlanType: string): string
  {
    vlanType + "_NETWORK_VLAN"
  }

  function SubnetKeyName(subnetSize: int): string
  {
    Strings.Itoa(subnetSize) + "_STATIC_PUBLIC_IP_ADDRESSES"
  }

  /** The loop that sorts the package's items into VLAN items (exact keyname)
      and subnet items (keyname containing the subnet keyname). */
  method SelectVlanItems(items: seq<ProductItem>, vlanKeyName: string, subnetKeyName: string)
    returns (vlanItems: seq<ProductItem>, subnetItems: seq<ProductItem>)
    ensures vlanItems == Selected(items, vlanKeyName, Exact)
    ensures subnetItems == Selected(items, subnetKeyName, Substring)
  {
    vlanItems, subnetItems := [], [];
    var i := 0;
    while i < |items|
      invariant 0 <= i <= |items|
      invariant vlanItems == Selected(items[..i], vlanKeyName, Exact)
      invariant subnetItems == Selected(items[..i], subnetKeyName, Substring)
    {
      var item := items[i];
      assert items[..i + 1][..i] == items[..i];
      if item.keyName == vlanKeyName {
        vlanItems := vlanItems + [item];
      }
      if Strings.Contains(item.keyName, subnetKeyName) {
        subnetItems := subnetItems + [item];
      }
      i := i + 1;
    }
    assert items[..i] == items;
  }

  /** The order container `buildVlanProductOrderContainer` builds for a package type. */
  function VlanOrderFor(cfg: VlanConfig, catalog: VlanCatalog, packageType: string): Result<VlanOrder>
  {
    if cfg.datacenter == "" then Err(DatacenterEmpty)
    else
      var dc :- catalog.datacenterId(cfg.datacenter);
      var pkg :- catalog.packageId(packageType);
      var items :- catalog.packageProducts(pkg);
      var vlanItems := Selected(items, VlanKeyName(cfg.vlanType), Exact);
      var subnetItems := Selected(items, SubnetKeyName(cfg.subnetSize), Substring);
      if vlanItems == [] then Err(NoMatchingItems(VlanKeyName(cfg.vlanType)))
      else if subnetItems == [] then Err(NoMatchingItems(SubnetKeyName(cfg.subnetSize)))
      else if vlanItems[0].priceIds == [] || subnetItems[0].priceIds == [] then Err(Crash)
      else
        var prices := [vlanItems[0].priceIds[0], subnetItems[0].priceIds[0]];
        if cfg.router == "" then Ok(VlanOrder(pkg, Strings.Itoa(dc), prices, 1, None))
        else match catalog.routerId(cfg.router)
          case Err(e) => Err(Wrapped("Error creating vlan", e))
          case Ok(rt) => Ok(VlanOrder(pkg, Strings.Itoa(dc), prices, 1, Some(rt)))
  }

  /** `buildVlanProductOrderContainer`. */
  method BuildVlanProductOrderContainer(cfg: VlanConfig, catalog: VlanCatalog, packageType: string)
    returns (r: Result<VlanOrder>)
    ensures r == VlanOrderFor(cfg, catalog, packageType)
  {
    if cfg.datacenter == "" {
      return Err(DatacenterEmpty);
    }
    var dc :- catalog.datacenterId(cfg.datacenter);
    var pkg :- catalog.packageId(packageType);
    var items :- catalog.packageProducts(pkg);
    var vlanKeyName := VlanKeyName(cfg.vlanType);
    var subnetKeyName := SubnetKeyName(cfg.subnetSize);
    var vlanItems, subnetItems := SelectVlanItems(items, vlanKeyName, subnetKeyName);
    if |vlanItems| == 0 {
      return Err(NoMatchingItems(vlanKeyName));
    }
    if |subnetItems| == 0 {
      return Err(NoMatchingItems(subnetKeyName));
    }
    if |vlanItems[0].priceIds| == 0 || |subnetItems[0].priceIds| == 0 {
      return Err(Crash);
    }
    var order := VlanOrder(pkg, Strings.Itoa(dc), [vlanItems[0].priceIds[0], subnetItems[0].priceIds[0]], 1, None);
    if |cfg.router| > 0 {
      var rt := catalog.routerId(cfg.router);
      if rt.Err? {
        return Err(Wrapped("Error creating vlan", rt.error));
      }
      order := order.(routerId := Some(rt.value));
    }
    return Ok(order);
  }

  /** With the lookups answered, the order fails exactly when no item has the
      VLAN keyname or none contains the subnet keyname; otherwise it holds
      quantity 1 and two prices, the first price of the first item of each kind. */
  lemma VlanOrderPrices(cfg: VlanConfig, catalog: VlanCatalog, packageType: string, dc: int, pkg: int, items: seq<ProductItem>)
    requires cfg.datacenter != ""
    requires catalog.datacenterId(cfg.datacenter) == Ok(dc)
    requires catalog.packageId(packageType) == Ok(pkg)
    requires catalog.packageProducts(pkg) == Ok(items)
    ensures (forall j :: 0 <= j < |items| ==> !Matches(items[j], VlanKeyName(cfg.vlanType), Exact)) ==>
      VlanOrderFor(cfg, catalog, packageType) == Err(NoMatchingItems(VlanKeyName(cfg.vlanType)))
    ensures (exists j :: 0 <= j < |items| && Matches(items[j], VlanKeyName(cfg.vlanType), Exact)) &&
            (forall j :: 0 <= j < |items| ==> !Matches(items[j], SubnetKeyName(cfg.subnetSize), Substring)) ==>
      VlanOrderFor(cfg, catalog, packageType) == Err(NoMatchingItems(SubnetKeyName(cfg.subnetSize)))
    ensures VlanOrderFor(cfg, catalog, packageType).Ok? ==>
      var order := VlanOrderFor(cfg, catalog, packageType).value;
      && order.packageId == pkg && order.location == Strings.Itoa(dc) && order.quantity == 1
      && |order.priceIds| == 2
      && (exists i :: IsFirstMatch(items, VlanKeyName(cfg.vlanType), Exact, i) && |items[i].priceIds| > 0 && order.priceIds[0] == items[i].priceIds[0])
      && (exists i :: IsFirstMatch(items, SubnetKeyName(cfg.subnetSize), Substring, i) && |items[i].priceIds| > 0 && order.priceIds[1] == items[i].priceIds[0])
      && (order.routerId.None? <==> cfg.router == "")
  {
    SelectedHead(items, VlanKeyName(cfg.vlanType), Exact);
    SelectedHead(items, SubnetKeyName(cfg.subnetSize), Substring);
  }

  /** What Create orders before placing the order: the mismatch check first,
      then the container for the network-VLAN package, falling back to the
      additional-services package when the first build returns an error. A
      panic in either build is not an error return: it ends Create at once. */
  function PlannedVlanOrder(cfg: VlanConfig, catalog: VlanCatalog): (r: Result<VlanOrder>)
    ensures !RouterMismatch(cfg.vlanType, cfg.router) &&
            VlanOrderFor(cfg, catalog, AdditionalServicesNetworkVlanPackageType) == Err(Crash) ==>
      r == Err(Crash)
    ensures !RouterMismatch(cfg.vlanType, cfg.router) &&
            VlanOrderFor(cfg, catalog, AdditionalServicesNetworkVlanPackageType).Err? &&
            VlanOrderFor(cfg, catalog, AdditionalServicesNetworkVlanPackageType) != Err(Crash) ==>
      (r == Err(Crash) <==> VlanOrderFor(cfg, catalog, AdditionalServicesPackageType) == Err(Crash))
    ensures r.Err? && r != Err(Crash) && !RouterMismatch(cfg.vlanType, cfg.router) ==>
      && VlanOrderFor(cfg, catalog, AdditionalServicesNetworkVlanPackageType).Err?
      && VlanOrderFor(cfg, catalog, AdditionalServicesPackageType).Err?
      && r == Err(Wrapped("Error creating vlan", VlanOrderFor(cfg, catalog, AdditionalServicesPackageType).error))
  {
    if RouterMismatch(cfg.vlanType, cfg.router) then Err(TypeRouterMismatch(cfg.vlanType, cfg.router))
    else match VlanOrderFor(cfg, catalog, AdditionalServicesNetworkVlanPackageType)
      case Ok(order) => Ok(order)
      case Err(Crash) => Err(Crash)
      case Err(_) =>
        match VlanOrderFor(cfg, catalog, AdditionalServicesPackageType)
        case Ok(order) => Ok(order)
        case Err(Crash) => Err(Crash)
        case Err(e) => Err(Wrapped("Error creating vlan", e))
  }

  /** `resourceIBMNetworkVlanCreate` up to the order it places. */
  method PlanVlanOrder(cfg: VlanConfig, catalog: VlanCatalog) returns (r: Result<VlanOrder>)
    ensures r == PlannedVlanOrder(cfg, catalog)
  {
    if (cfg.vlanType == "PRIVATE" && |cfg.router| > 0 && Strings.Contains(cfg.router, "fcr")) ||
       (cfg.vlanType == "PUBLIC" && |cfg.router| > 0 && Strings.Contains(cfg.router, "bcr")) {
      return Err(TypeRouterMismatch(cfg.vlanType, cfg.router));
    }
    r := BuildVlanProductOrderContainer(cfg, catalog, AdditionalServicesNetworkVlanPackageType);
    if r.Err? && r.error != Crash {
      r := BuildVlanProductOrderContainer(cfg, catalog, AdditionalServicesPackageType);
      if r.Err? && r.error != Crash {
        return Err(Wrapped("Error creating vlan", r.error));
      }
    }
  }

  /** A mismatch is reported before any catalogue lookup, whatever the catalogue says;
      otherwise the network-VLAN package is preferred. */
  lemma MismatchBeforeLookup(cfg: VlanConfig, catalog: VlanCatalog, catalog': VlanCatalog)
    ensures RouterMismatch(cfg.vlanType, cfg.router) ==>
      PlannedVlanOrder(cfg, catalog) == PlannedVlanOrder(cfg, catalog') == Err(TypeRouterMismatch(cfg.vlanType, cfg.router))
    ensures !RouterMismatch(cfg.vlanType, cfg.router) && VlanOrderFor(cfg, catalog, AdditionalServicesNetworkVlanPackageType).Ok? ==>
      PlannedVlanOrder(cfg, catalog) == VlanOrderFor(cfg, catalog, AdditionalServicesNetworkVlanPackageType)
    ensures PlannedVlanOrder(cfg, catalog).Ok? ==>
      PlannedVlanOrder(cfg, catalog) in {VlanOrderFor(cfg, catalog, AdditionalServicesNetworkVlanPackageType),
                                         VlanOrderFor(cfg, catalog, AdditionalServicesPackageType)}
  {
  }

  // ---------------------------------------------------------------------------
  // Waiting for the ordered VLAN, and the rest of Create

  /** `findVlanByOrderId`: the listing holds the ids of the VLANs billed to the order. */
  method FindVlanByOrderId(listing: nat -> Result<seq<int>>, maxTicks: nat) returns (r: Result<int>, ticks: nat)
    ensures (r, ticks) == OrderPoll.Awaited(listing, "vlan", 0, maxTicks)
  {
    r, ticks := OrderPoll.WaitForOrder(listing, "vlan", maxTicks);
  }

  /** Create after the order is placed and before its closing read, whose
      error Create would return, as written: the wait's error is never looked
      at and the empty VLAN it comes with is dereferenced, a panic. */
  function FinishVlanCreateAsWritten(found: Result<int>, name: string, rename: int -> Result<()>,
                                     tags: string, setTags: int -> Result<()>): (r: Result<int>)
    ensures found.Err? ==> r == Err(Crash)
  {
    if found.Err? then Err(Crash)
    else
      var id := found.value;
      if name != "" && rename(id).Err? then Err(Wrapped("Error updating vlan", rename(id).error))
      else if tags != "" && setTags(id).Err? then Err(TagsNotSet(id))
      else Ok(id)
  }

  /** Create after the order is placed and before its closing read, with the
      wait's error reported as the firewall handler reports it: the resource
      id is the found VLAN's. */
  function FinishVlanCreate(found: Result<int>, name: string, rename: int -> Result<()>,
                            tags: string, setTags: int -> Result<()>): (r: Result<int>)
    ensures found.Err? ==> r == Err(Wrapped("Error during creation of vlan", found.error))
    ensures found.Ok? ==> r == FinishVlanCreateAsWritten(found, name, rename, tags, setTags)
    ensures r.Ok? ==> found == Ok(r.value)
    ensures r != Err(Crash)
  {
    match found
    case Err(e) => Err(Wrapped("Error during creation of vlan", e))
    case Ok(id) =>
      if name != "" && rename(id).Err? then Err(Wrapped("Error updating vlan", rename(id).error))
      else if tags != "" && setTags(id).Err? then Err(TagsNotSet(id))
      else Ok(id)
  }

  /** A wait that times out makes Create panic as written, but report the timeout
      once corrected. */
  lemma WaitTimeoutCrashesCreate(listing: nat -> Result<seq<int>>, maxTicks: nat, name: string,
                                 rename: int -> Result<()>, tags: string, setTags: int -> Result<()>)
    requires OrderPoll.PendingUntil(listing, 0, maxTicks)
    ensures var found := OrderPoll.Awaited(listing, "vlan", 0, maxTicks).0;
      && FinishVlanCreateAsWritten(found, name, rename, tags, setTags) == Err(Crash)
      && FinishVlanCreate(found, name, rename, tags, setTags) == Err(Wrapped("Error during creation of vlan", Timeout))
  {
    OrderPoll.NeverListedTimesOut(listing, "vlan", 0, maxTicks);
  }
}
