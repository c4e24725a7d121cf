/** Waiting for a SoftLayer order to materialise: a listing filtered by the
    order id is refreshed until it holds exactly one resource. The refresh step
    is the `Refresh` closure shared by the VLAN and firewall handlers; the wait is
    a bounded number of refreshes, without wall-clock time. */
module OrderPoll {
  import opened Common

  /** What one refresh reports: the resource, "not yet", or a failure that ends the wait. */
  datatype Refresh<T> = Complete(item: T) | Pending | Failed(error: Error)

  /** The state string the closure hands to the wait. */
  function StateOf<T>(r: Refresh<T>): (state: string)
    ensures state == "complete" <==> r.Complete?
    ensures state == "pending" <==> r.Pending?
    ensures r.Failed? ==> state == ""
  {
    match r
    case Complete(_) => "complete"
    case Pending => "pending"
    case Failed(_) => ""
  }

  /** One refresh over a listing result; `resource` names the kind of resource
      in the error for more than one match ("vlan", "dedicated firewall"). */
  function RefreshStep<T>(listing: Result<seq<T>>, resource: string): (r: Refresh<T>)
    ensures listing.Err? ==> r == Failed(listing.error)
    ensures listing.Ok? ==> (r.Complete? <==> |listing.value| == 1)
    ensures listing.Ok? ==> (r.Pending? <==> |listing.value| == 0)
    ensures listing.Ok? ==> (r.Failed? <==> |listing.value| > 1)
    ensures r.Complete? ==> listing == Ok([r.item])
    ensures listing.Ok? && r.Failed? ==> r.error == AmbiguousOrder(resource)
  {
    match listing
    case Err(e) => Failed(e)
    case Ok(vlans) =>
      if |vlans| == 1 then assert vlans == [vlans[0]]; Complete(vlans[0])
      else if |vlans| == 0 then Pending
      else Failed(AmbiguousOrder(resource))
  }

  /** The outcome of waiting from tick `t` on, given the listing each tick
      returns, with at most `maxTicks` refreshes in all; also the number of
      refreshes made. */
  function Awaited<T>(listing: nat -> Result<seq<T>>, resource: string, t: nat, maxTicks: nat): (Result<T>, nat)
    decreases maxTicks - t
  {
    if t >= maxTicks then (Err(Timeout), t)
    else match RefreshStep(listing(t), resource)
      case Complete(x) => (Ok(x), t + 1)
      case Failed(e) => (Err(e), t + 1)
      case Pending => Awaited(listing, resource, t + 1, maxTicks)
  }

  /** `stateConf.WaitForState()` with the order's Refresh closure. */
  method WaitForOrder<T>(listing: nat -> Result<seq<T>>, resource: string, maxTicks: nat)
    returns (r: Result<T>, ticks: nat)
    ensures (r, ticks) == Awaited(listing, resource, 0, maxTicks)
  {
    ticks := 0;
    while ticks < maxTicks
      invariant ticks <= maxTicks
      invariant Awaited(listing, resource, ticks, maxTicks) == Awaited(listing, resource, 0, maxTicks)
      decreases maxTicks - ticks
    {
      var step := RefreshStep(listing(ticks), resource);
      match step {
        case Complete(x) =>
          return Ok(x), ticks + 1;
        case Failed(e) =>
          return Err(e), ticks + 1;
        case Pending =>
      }
      ticks := ticks + 1;
    }
    r := Err(Timeout);
  }

  /** Every tick in [t, n) lists nothing yet. */
  predicate PendingUntil<T>(listing: nat -> Result<seq<T>>, t: nat, n: nat)
  {
    forall i :: t <= i < n ==> listing(i) == Ok([])
  }

  /** The first tick that is not pending decides the wait: one resource
      completes it, a listing error passes through unchanged and several
      resources end it as ambiguous; it takes one refresh per tick. */
  lemma {:induction false} FirstDecisiveTick<T>(listing: nat -> Result<seq<T>>, resource: string, t: nat, n: nat, maxTicks: nat)
    requires t <= n < maxTicks
    requires PendingUntil(listing, t, n)
    requires listing(n) != Ok([])
    ensures Awaited(listing, resource, t, maxTicks) == (
      match listing(n)
      case Err(e) => (Err(e), n + 1)
      case Ok(vlans) => if |vlans| == 1 then (Ok(vlans[0]), n + 1) else (Err(AmbiguousOrder(resource)), n + 1))
    decreases n - t
  {
    if t < n {
      assert listing(t) == Ok([]);
      FirstDecisiveTick(listing, resource, t + 1, n, maxTicks);
    } else {
      match listing(n)
      case Err(e) =>
      case Ok(vlans) =>
        assert |vlans| != 0;
    }
  }

  /** A listing that never shows the resource times out after exactly `maxTicks` refreshes. */
  lemma {:induction false} NeverListedTimesOut<T>(listing: nat -> Result<seq<T>>, resource: string, t: nat, maxTicks: nat)
    requires PendingUntil(listing, t, maxTicks)
    ensures Awaited(listing, resource, t, maxTicks) == (Err(Timeout), if t <= maxTicks then maxTicks else t)
    decreases maxTicks - t
  {
    if t < maxTicks {
      assert listing(t) == Ok([]);
      NeverListedTimesOut(listing, resource, t + 1, maxTicks);
    }
  }

  /** A successful wait returned the single resource of its last tick, and
      every earlier tick was pending. */
  lemma {:induction false} ResolvedMeansSingleListing<T>(listing: nat -> Result<seq<T>>, resource: string, t: nat, maxTicks: nat, x: T, k: nat)
    requires Awaited(listing, resource, t, maxTicks) == (Ok(x), k)
    ensures t < k <= maxTicks
    ensures listing(k - 1) == Ok([x])
    ensures PendingUntil(listing, t, k - 1)
    decreases maxTicks - t
  {
    if t < maxTicks {
      var step := RefreshStep(listing(t), resource);
      if step.Pending? {
        ResolvedMeansSingleListing(listing, resource, t + 1, maxTicks, x, k);
      }
    }
  }
}
