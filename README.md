# IBM Cloud Terraform provider: resource rules in Dafny

This project models the decision logic of five parts of the IBM Cloud
Terraform provider (`terraform-provider-ibm`):

- **Diff suppression** for JSON key/value arrays (`suppressEquivalentJSON`).
  Each array of `{"key": …, "value": …}` objects is folded into a map, with
  later duplicates overwriting earlier ones. Two arrays are equivalent when
  their maps are equal.
- **The `ibm_network_vlan` resource**:
  - the type validator and the type/router mismatch check;
  - the type derived from the router hostname;
  - the subnet entries and `subnet_size`, a Go 64-bit shift;
  - price selection for the VLAN order, with its package fallback;
  - the wait for the ordered VLAN;
  - the outcome rules of Delete and Exists.
- **The `ibm_firewall` resource** (a dedicated hardware firewall): the
  keyname, the price selection and order, the wait, and the Read, Delete and
  Exists rules.
- **The `ibm_openwhisk_action` resource**:
  - the action name Create and Update send;
  - the resource id built from the namespace Insert returns;
  - the Update write rule and the Exists rule;
  - the string the set hash is taken of, built in a byte buffer.
- **`whiskClient`**: the regional endpoint, the tokens sent to the
  authenticate call, and the first-match search of its namespaces.

Remote calls are inputs to the model. A SoftLayer or OpenWhisk call becomes
an already-obtained `Result`, or a function from request to `Result`. The
order wait becomes a listing per tick. JSON decoding becomes a function from
string to decoded elements or `Malformed`. Five Go runtime panics are kept,
as the error `Crash`: the nil VLAN id after a failed wait in the VLAN Create,
`Prices[0]` of a matching item without prices in the VLAN and firewall
orders, the nil response in the OpenWhisk action Exists, and the slice of a
token shorter than 7 characters in `whiskClient`. Each loop of the
source is a method proved equal to a specification function. The
properties are lemmas about those functions.

Modules: `Common` (Option, Result, errors), `Strings` (prefix, substring,
split, decimal conversion), `DiffSuppress`, `OrderPoll` (the wait shared by
both order lookups), `SoftLayer` (product items, keyname selection, tags),
`NetworkVlan`, `Firewall`, `OpenWhiskAction`, `AuthHelpers`.

## Model

| member | source | states |
|---|---|---|
| DiffSuppress.SuppressEquivalentJSON | ibm/diff_supress_funcs.go:11-38 | the verdict is `Equivalent`: false for an empty old value and for a side that fails to decode, otherwise equality of the folded maps |
| DiffSuppress.Fold | ibm/diff_supress_funcs.go:28-36 | the loop builds exactly the map `Folded` describes |
| DiffSuppress.FoldedLookup | ibm/diff_supress_funcs.go:31-36 | a key is in the folded map iff some element carries it, and its value is that of the last such element |
| DiffSuppress.EarlierDuplicateIgnored | ibm/diff_supress_funcs.go:31-36 | an element whose key recurs later has no effect on the map |
| DiffSuppress.UnrepeatedLastSet | ibm/diff_supress_funcs.go:31-36 | an element whose key does not recur sets that key on top of the rest |
| DiffSuppress.LastOccurrenceWins | ibm/diff_supress_funcs.go:31-37 | dropping an earlier duplicate, e.g. `[{a,1},{a,2}]` versus `[{a,2}]`, keeps the arrays equivalent |
| DiffSuppress.PermutationInvariant | ibm/diff_supress_funcs.go:28-37 | with distinct keys, any permutation of the elements gives the same map |
| DiffSuppress.EquivalentUnderReordering | ibm/diff_supress_funcs.go:28-37 | reordering the new array, when its keys are distinct, does not change the verdict |
| DiffSuppress.EquivalentUnderOldReordering | ibm/diff_supress_funcs.go:13-37 | reordering a non-empty old array with distinct keys does not change the verdict either |
| DiffSuppress.EquivalentReflexive | ibm/diff_supress_funcs.go:28-37 | a non-empty decodable value is equivalent to itself |
| DiffSuppress.ChangedEntryBreaksEquivalence | ibm/diff_supress_funcs.go:37 | appending a new key, or a different value for an existing key, makes the arrays not equivalent |
| DiffSuppress.EquivalentIffSameEntries | ibm/diff_supress_funcs.go:37 | equivalence holds iff the maps have the same keys and equal values |
| OrderPoll.StateOf | ibm/resource_ibm_network_vlan.go:340-346 | "complete" exactly for a found resource, "pending" exactly for an empty listing, and the empty state for a failed refresh |
| OrderPoll.RefreshStep | ibm/resource_ibm_network_vlan.go:330-347 | a listing error passes through; 1 result completes with that result, 0 is pending, more than 1 is an ambiguous-order error |
| OrderPoll.WaitForOrder | ibm/resource_ibm_network_vlan.go:327-366 | the bounded refresh loop gives the outcome and refresh count of `Awaited` |
| OrderPoll.FirstDecisiveTick | ibm/resource_ibm_network_vlan.go:340-358 | the first non-empty listing decides the wait, after one refresh per tick |
| OrderPoll.NeverListedTimesOut | ibm/resource_ibm_network_vlan.go:349-358 | a listing that stays empty gives up after exactly the tick bound |
| OrderPoll.ResolvedMeansSingleListing | ibm/resource_ibm_network_vlan.go:340-364 | a successful wait returns the one resource of its last tick, and every earlier tick was empty |
| Strings.ContainsAt | ibm/resource_ibm_network_vlan.go:125-126 | substring containment holds iff the substring occurs at some index |
| Strings.SplitJoin | ibm/resource_ibm_openwhisk_action.go:220 | splitting gives one more piece than there are separators, no piece holds the separator, and joining restores the string |
| Strings.ItoaRoundTrip | ibm/resource_ibm_network_vlan.go:212 | the decimal form of an integer holds no "/" and parses back to the integer |
| SoftLayer.SelectedMembers | ibm/resource_ibm_network_vlan.go:405-413 | exactly the matching items are selected |
| SoftLayer.SelectedConcat | ibm/resource_ibm_network_vlan.go:405-413 | selection distributes over concatenation, so it keeps catalogue order |
| SoftLayer.SelectedHead | ibm/resource_ibm_firewall.go:82-91 | the selection is empty iff nothing matches, and otherwise it starts with the first matching item |
| SoftLayer.CopyTagNames | ibm/resource_ibm_network_vlan.go:224-231 | the array filled index by index holds each reference's tag name in order |
| SoftLayer.ReadTags | ibm/resource_ibm_firewall.go:155-163 | no references keep the prior `tags`; otherwise they are the references' names in order |
| NetworkVlan.ValidateType | ibm/resource_ibm_network_vlan.go:54-61 | no warnings; an error exactly when the type is neither PRIVATE nor PUBLIC, and then the single fixed message |
| NetworkVlan.RouterMismatch | ibm/resource_ibm_network_vlan.go:125-127 | an empty router never mismatches; otherwise a mismatch iff a PRIVATE VLAN's router contains "fcr" or a PUBLIC one's contains "bcr" |
| NetworkVlan.DerivedType | ibm/resource_ibm_network_vlan.go:195-199 | the type is PUBLIC iff the hostname starts with "fcr" and PRIVATE otherwise |
| NetworkVlan.ReadTypeAcceptedByCreate | ibm/resource_ibm_network_vlan.go:54-61 | Read's type always passes the validator, and passes the mismatch check unless the hostname also holds the other router kind |
| NetworkVlan.SubnetSizeOfPrefix | ibm/resource_ibm_network_vlan.go:218-222 | for a prefix length from 0 to 32 the size is 2^(32 - cidr), from 1 to 2^32, and doubles when the prefix shortens by one |
| NetworkVlan.SubnetSizeBeyondPrefix | ibm/resource_ibm_network_vlan.go:218-219 | a prefix length above 32 makes the unsigned shift count huge, so the size is 0 |
| NetworkVlan.SubnetStringRoundTrip | ibm/resource_ibm_network_vlan.go:212 | the network identifier and the prefix length are recovered from the subnet string |
| NetworkVlan.SubnetEntries | ibm/resource_ibm_network_vlan.go:208-216 | one entry per API subnet, in order, each with its subnet string and type |
| NetworkVlan.ReadVlan | ibm/resource_ibm_network_vlan.go:181-234 | a fetch error is wrapped; otherwise every attribute comes from the fetched object as described, and the router-derived ones keep their prior values without a router |
| NetworkVlan.DeleteVlan | ibm/resource_ibm_network_vlan.go:284-303 | a lookup error is wrapped; no billing id succeeds without cancelling; otherwise the cancellation's error, and its boolean is ignored |
| NetworkVlan.VlanExists | ibm/resource_ibm_network_vlan.go:313-324 | true iff the returned id is the VLAN's; false on a 404 or another id; any other error is wrapped |
| NetworkVlan.SelectVlanItems | ibm/resource_ibm_network_vlan.go:403-413 | the loop keeps exact VLAN keyname matches and subnet keyname substring matches, in order |
| NetworkVlan.BuildVlanProductOrderContainer | ibm/resource_ibm_network_vlan.go:369-451 | the container or error `VlanOrderFor` gives |
| NetworkVlan.VlanOrderPrices | ibm/resource_ibm_network_vlan.go:400-439 | no VLAN match, or no subnet match, is an error naming that keyname; otherwise quantity 1 and the first price of the first match of each kind |
| NetworkVlan.PlannedVlanOrder | ibm/resource_ibm_network_vlan.go:125-139 | a panic in the first container build ends Create with no fallback; after a returned error, a panic in the second build ends it too; any other failure of both is wrapped as a VLAN creation error |
| NetworkVlan.PlanVlanOrder | ibm/resource_ibm_network_vlan.go:125-139 | the mismatch check, then the VLAN package with a fallback to the additional-services package, as `PlannedVlanOrder` gives |
| NetworkVlan.MismatchBeforeLookup | ibm/resource_ibm_network_vlan.go:125-139 | a mismatch is reported whatever the catalogue says; a usable VLAN package is preferred; any order comes from one of the two packages |
| NetworkVlan.FindVlanByOrderId | ibm/resource_ibm_network_vlan.go:326-367 | the wait's outcome for the VLAN listing |
| NetworkVlan.FinishVlanCreateAsWritten | ibm/resource_ibm_network_vlan.go:146-170 | a failed wait makes Create panic |
| NetworkVlan.FinishVlanCreate | ibm/resource_ibm_network_vlan.go:146-170 | corrected: a failed wait is reported as a creation error, Create never panics, and otherwise it agrees with the code as written |
| NetworkVlan.WaitTimeoutCrashesCreate | ibm/resource_ibm_network_vlan.go:146-158 | a wait that gives up panics as written and reports the failure once corrected |
| Firewall.FirewallKeyName | ibm/resource_ibm_firewall.go:65-68 | the high-availability keyname iff `ha_enabled`, the dedicated one otherwise |
| Firewall.SelectTargetItems | ibm/resource_ibm_firewall.go:81-87 | the loop keeps exactly the items with the keyname, in order |
| Firewall.PlanFirewallOrder | ibm/resource_ibm_firewall.go:59-104 | the order or error `FirewallOrderFor` gives |
| Firewall.FirewallOrderPrice | ibm/resource_ibm_firewall.go:89-104 | the order fails with the keyname error iff nothing matches; otherwise one price (the first of the first match), quantity 1, the public VLAN |
| Firewall.FindDedicatedFirewallByOrderId | ibm/resource_ibm_firewall.go:237-281 | the wait's outcome for the firewall listing |
| Firewall.FinishFirewallCreate | ibm/resource_ibm_firewall.go:108-133 | an order or wait error is wrapped; when both succeed, a failure to set non-empty tags is reported for the firewall's id, and otherwise the id, `ha_enabled` and `public_vlan_id` come from the found VLAN |
| Firewall.ReadFirewall | ibm/resource_ibm_firewall.go:138-166 | a fetch error is wrapped; otherwise the public VLAN, the HA flag and the tags come from the fetched firewall |
| Firewall.DeleteFirewall | ibm/resource_ibm_firewall.go:186-213 | success iff there is a billing id and its cancellation reports true; a failed lookup is wrapped, a missing billing id and a false cancellation each have their own error, and a cancellation error is returned unchanged |
| Firewall.FirewallExists | ibm/resource_ibm_firewall.go:223-234 | true iff the lookup succeeds, false iff it is a 404, and any other error is wrapped |
| OpenWhiskAction.CreateNameCases | ibm/resource_ibm_openwhisk_action.go:168-172 | `package/name`, except the bare name for an empty package; an absent package is formatted as Go's nil verb |
| OpenWhiskAction.UpdateNameVersusCreateName | ibm/resource_ibm_openwhisk_action.go:280 | Update names the same action as Create, except for an empty package, where a "/" is prepended |
| OpenWhiskAction.ActionIdOfPackageNamespace | ibm/resource_ibm_openwhisk_action.go:220-223 | a namespace `ns/pkg` gives the id `pkg/name` |
| OpenWhiskAction.ActionIdOtherwise | ibm/resource_ibm_openwhisk_action.go:220-226 | any other number of "/" in the namespace gives the bare action name |
| OpenWhiskAction.CreateAction | ibm/resource_ibm_openwhisk_action.go:156-228 | client and name errors stop Create; a failed Insert is wrapped as a creation error, and a successful one gives the id derived from the returned action |
| OpenWhiskAction.UpdateAction | ibm/resource_ibm_openwhisk_action.go:272-308 | a client or name error stops Update; otherwise an overwriting Insert with the new `publish` is made iff `publish` changed, and its error is wrapped as an update error |
| OpenWhiskAction.ActionExists | ibm/resource_ibm_openwhisk_action.go:335-358 | false on a 404, a panic without a response, any other failure wrapped, and otherwise true iff the returned name equals the id |
| OpenWhiskAction.ExistsRejectsPackagedId | ibm/resource_ibm_openwhisk_action.go:220-223 | an id derived from a package namespace never equals a returned name without "/", so Exists reports false |
| OpenWhiskAction.Buffer.WriteString | ibm/resource_ibm_openwhisk_action.go:364-366 | the buffer's contents grow by the written string |
| OpenWhiskAction.HashKey | ibm/resource_ibm_openwhisk_action.go:360-367 | the buffer holds `package-` when a package is present, then `name-` |
| OpenWhiskAction.HashInputInjective | ibm/resource_ibm_openwhisk_action.go:360-367 | blocks whose components hold no "-" have distinct hash inputs |
| OpenWhiskAction.HashInputCollision | ibm/resource_ibm_openwhisk_action.go:363-366 | a "-" inside a component lets two different blocks share a hash input |
| AuthHelpers.BaseEndpoint | ibm/auth_helpers.go:35-38 | the `ng` endpoint for us-south, `openwhisk.<region>.bluemix.net` otherwise |
| AuthHelpers.BaseEndpointDeterminesRegion | ibm/auth_helpers.go:35-38 | equal endpoints mean equal regions, except for us-south and ng |
| AuthHelpers.AuthEndpointDeterminesRegion | ibm/auth_helpers.go:35-51 | equal authenticate endpoints mean equal regions, except for us-south and ng |
| AuthHelpers.StripBearer | ibm/auth_helpers.go:46-49 | the token is its first 7 characters followed by the result |
| AuthHelpers.FirstNamed | ibm/auth_helpers.go:60-62 | the first index with the namespace's name, or none iff no entry has it |
| AuthHelpers.NamespaceKey | ibm/auth_helpers.go:59-76 | the key of the first entry with the name; otherwise an error listing every name in response order |
| AuthHelpers.SearchNamespaces | ibm/auth_helpers.go:59-76 | the loop returns `NamespaceKey` and examines no entry after the first match |
| AuthHelpers.WhiskClientFor | ibm/auth_helpers.go:34-77 | a short token panics; a failed authenticate call is wrapped before any search; otherwise the config for the namespace's key, or the search's error |
| AuthHelpers.WhiskClient | ibm/auth_helpers.go:34-77 | the method gives the outcome `WhiskClientFor` describes |
| AuthHelpers.FirstKeyWins | ibm/auth_helpers.go:60-73 | a later entry with the same name never supplies the key |

## Left out

- Terraform schema declarations and `d.Get`/`d.Set` plumbing: the model works on values directly.
- Session and client construction (`ibm/config.go` is not part of this model), and the provider's acceptance tests.
- The remote calls themselves: PlaceOrder, GetNetworkVlans, GetObject, SetTags, EditObject, CancelService, Insert, Get, Delete and the authenticate POST. Their answers are inputs.
- `resource.StateChangeConf` timing. Timeouts, delays and back-off are replaced by a bound on the number of refreshes. An empty listing refreshes with a nil result, and the library gives up on repeated nil results (its not-found limit) before the wall-clock timeout. The tick bound and the error `Timeout` stand for both ways the wait gives up, and the not-found error text is not modelled.
- JSON decoding and `reflect.DeepEqual`: decoding is an input function, and equality is Dafny value equality. Numbers are exact reals, not float64.
- The panic when a diff-suppression key is itself an object or array (an unhashable Go map key).
- The text of the "more than one result" wait error, which formats a nil error: it is only the error kind `AmbiguousOrder`.
- `strconv.Atoi` on the resource id. The VLAN Read, Update, Delete and Exists and the firewall Update and Exists return a "not a valid ID" error for a non-numeric id. The firewall Read and Delete discard that error and go on with id 0. Ids are integers in the model, so neither path is modelled.
- Pointer fields of the remote answers are taken to be non-nil, so the panics of their dereferences are not modelled. These include the VLAN's id, number, guest component count and router hostname, each subnet's identifier, cidr and type, tag names, item keynames, package ids, and the firewall fields of the found or fetched VLAN.
- The VLAN Create's `PlaceOrder` call and its "Error during creation of vlan" wrap (ibm/resource_ibm_network_vlan.go:142-146). `FinishVlanCreate` starts after a successful order, unlike `FinishFirewallCreate`, which takes the order's result as input.
- The errors of `expandAnnotations` and `expandParameters`, which end the OpenWhisk action Create before Insert.
- The firewall Update handler: the id check, `setFirewallTags` when the tags changed, and the closing read.
- VLAN Update, and the OpenWhisk action Read and Delete handlers: glue that sets attributes from one remote call.
- `NewQualifiedName`, the OpenWhisk qualified-name parser, and the annotation, parameter, limit and exec expand/flatten helpers are defined outside the five modelled Go files. Qualification is an input function, so no parse/format round trip is stated, and the payload holds only the name, namespace and `publish`.
- `hashcode.String` (a CRC32): the model stops at the string it is given.
- `url.Parse` and `whisk.NewClient`: the host is an input function of URL text, and a client error from `NewClient` is not modelled.
- The User-Agent header, and the debug switch read from the environment.
- AuthHelpers.StripBearer: requires a token of at least 7 characters, because the slice panics on a shorter one. `WhiskClient` and `WhiskClientFor` model that panic as `Crash`. Go slices 7 bytes and the model drops 7 characters, so the two agree only for ASCII tokens.

## Findings

| source | as written | input that shows it | evidently intended | confidence | as-written member | corrected member |
|---|---|---|---|---|---|---|
| ibm/resource_ibm_network_vlan.go:148-158 | Create ignores the error from `findVlanByOrderId` and then dereferences the id of the empty VLAN it returns | an order whose VLAN never appears in the listing, so the wait gives up | report a failed wait as a creation error, as the firewall handler does at ibm/resource_ibm_firewall.go:113-116 | not executed | NetworkVlan.FinishVlanCreateAsWritten | NetworkVlan.FinishVlanCreate |
