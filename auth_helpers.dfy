/** `whiskClient`: the OpenWhisk endpoint of a region, the tokens sent to the
    authenticate call, and the search of its answer for the namespace's key.
    The HTTP call and URL parsing are parameters. */
module AuthHelpers {
  import opened Common

  const DefaultBase := "https://openwhisk.ng.bluemix.net"
  const RegionPrefix := "https://openwhisk."
  const RegionSuffix := ".bluemix.net"
  const AuthPath := "/bluemix/v1/authenticate"

  /** The service endpoint: the `ng` host for us-south, the region's host otherwise. */
  function BaseEndpoint(region: string): (base: string)
    ensures region == "us-south" ==> base == DefaultBase
    ensures region != "us-south" ==> base == RegionPrefix + region + RegionSuffix
  {
    if region != "us-south" then RegionPrefix + region + RegionSuffix else DefaultBase
  }

  /** The endpoint determines the region, except that `us-south` and `ng` share one. */
  lemma BaseEndpointDeterminesRegion(a: string, b: string)
    requires BaseEndpoint(a) == BaseEndpoint(b)
    ensures a == b || (a == "us-south" && b == "ng") || (a == "ng" && b == "us-south")
  {
    var p, q := RegionPrefix, RegionSuffix;
    if a != "us-south" && b != "us-south" {
      var s := BaseEndpoint(a);
      assert s[|p|..|s| - |q|] == a;
      assert s[|p|..|s| - |q|] == b;
    } else if a != "us-south" {
      var s := BaseEndpoint(a);
      assert DefaultBase == p + "ng" + q;
      assert s[|p|..|s| - |q|] == a;
      assert DefaultBase[|p|..|DefaultBase| - |q|] == "ng";
    } else if b != "us-south" {
      var s := BaseEndpoint(b);
      assert DefaultBase == p + "ng" + q;
      assert s[|p|..|s| - |q|] == b;
      assert DefaultBase[|p|..|DefaultBase| - |q|] == "ng";
    }
  }

  /** The authenticate endpoint: the service endpoint, then the authenticate path. */
  function AuthEndpoint(region: string): (endpoint: string)
    ensures |endpoint| == |BaseEndpoint(region)| + |AuthPath|
    ensures endpoint[..|BaseEndpoint(region)|] == BaseEndpoint(region)
    ensures endpoint[|BaseEndpoint(region)|..] == AuthPath
  {
    BaseEndpoint(region) + AuthPath
  }

  /** The authenticate endpoint still determines the region, up to us-south and ng. */
  lemma AuthEndpointDeterminesRegion(a: string, b: string)
    requires AuthEndpoint(a) == AuthEndpoint(b)
    ensures a == b || (a == "us-south" && b == "ng") || (a == "ng" && b == "us-south")
  {
    var e := AuthEndpoint(a);
    assert BaseEndpoint(a) == e[..|e| - |AuthPath|];
    assert BaseEndpoint(b) == e[..|e| - |AuthPath|];
    BaseEndpointDeterminesRegion(a, b);
  }

  /** A UAA token without its 7-character `bearer ` prefix; slicing a shorter
      token panics, so callers check the length first. */
  function StripBearer(token: string): (stripped: string)
    requires |token| >= 7
    ensures token == token[..7] + stripped
  {
    token[7..]
  }

  /** The parts of the Bluemix configuration `whiskClient` reads. */
  datatype BluemixConfig = BluemixConfig(region: string, accessToken: string, refreshToken: string)

  /** The authenticate request: endpoint and body. */
  datatype AuthRequest = AuthRequest(endpoint: string, accessToken: string, refreshToken: string)

  /** One namespace of the authenticate response. */
  datatype Namespace = Namespace(name: string, key: string)

  /** The configuration the OpenWhisk client is built with. */
  datatype WhiskConfig = WhiskConfig(namespace: string, authToken: string, host: string)

  /** The names of the namespaces, in response order. */
  function Names(namespaces: seq<Namespace>): (names: seq<string>)
    ensures |names| == |namespaces|
    ensures forall i :: 0 <= i < |namespaces| ==> names[i] == namespaces[i].name
  {
    if namespaces == [] then []
    else Names(namespaces[..|namespaces| - 1]) + [namespaces[|namespaces| - 1].name]
  }

  /** The index of the first namespace with the given name. */
  function FirstNamed(namespaces: seq<Namespace>, namespace: string): (r: Option<nat>)
    ensures r.None? <==> forall i :: 0 <= i < |namespaces| ==> namespaces[i].name != namespace
    ensures r.Some? ==> (r.value < |namespaces| && namespaces[r.value].name == namespace &&
                         forall j :: 0 <= j < r.value ==> namespaces[j].name != namespace)
  {
    if namespaces == [] then None
    else if namespaces[0].name == namespace then Some(0)
    else match FirstNamed(namespaces[1..], namespace)
      case None => None
      case Some(i) => Some(i + 1)
  }

  /** The key of the first matching namespace, or an error listing every name. */
  function NamespaceKey(namespaces: seq<Namespace>, namespace: string): (r: Result<string>)
    ensures r.Err? <==> forall i :: 0 <= i < |namespaces| ==> namespaces[i].name != namespace
    ensures r.Err? ==> r.error == NamespaceNotFound(namespace, Names(namespaces))
    ensures r.Ok? ==> exists i :: (0 <= i < |namespaces| && namespaces[i].name == namespace &&
                                   r.value == namespaces[i].key &&
                                   forall j :: 0 <= j < i ==> namespaces[j].name != namespace)
  {
    match FirstNamed(namespaces, namespace)
    case None => Err(NamespaceNotFound(namespace, Names(namespaces)))
    case Some(i) => Ok(namespaces[i].key)
  }

  /** The loop over the response: it collects each name and stops at the first
      match; `examined` counts the entries it looked at. */
  method SearchNamespaces(namespaces: seq<Namespace>, namespace: string) returns (r: Result<string>, examined: nat)
    ensures r == NamespaceKey(namespaces, namespace)
    ensures examined == match FirstNamed(namespaces, namespace) case Some(i) => i + 1 case None => |namespaces|
  {
    var allNamespaces: seq<string> := [];
    examined := 0;
    while examined < |namespaces|
      invariant examined <= |namespaces|
      invariant allNamespaces == Names(namespaces[..examined])
      invariant forall j :: 0 <= j < examined ==> namespaces[j].name != namespace
    {
      var n := namespaces[examined];
      assert namespaces[..examined + 1][..examined] == namespaces[..examined];
      allNamespaces := allNamespaces + [n.name];
      examined := examined + 1;
      if n.name == namespace {
        return Ok(n.key), examined;
      }
    }
    assert namespaces[..examined] == namespaces;
    r := Err(NamespaceNotFound(namespace, allNamespaces));
  }

  /** What `whiskClient` yields: a panic for a token shorter than its prefix,
      the wrapped error of a failed authenticate call, or the configuration
      for the namespace's key; `parseHost` is the host of a parsed URL. */
  function WhiskClientFor(config: BluemixConfig, namespace: string,
                          authenticate: AuthRequest -> Result<seq<Namespace>>,
                          parseHost: string -> string): (r: Result<WhiskConfig>)
    ensures |config.accessToken| < 7 || |config.refreshToken| < 7 ==> r == Err(Crash)
    ensures |config.accessToken| >= 7 && |config.refreshToken| >= 7 ==>
      var request := AuthRequest(AuthEndpoint(config.region), config.accessToken[7..], config.refreshToken[7..]);
      && (authenticate(request).Err? ==> r == Err(Wrapped("Couldn't fetch namespace details", authenticate(request).error)))
      && (authenticate(request).Ok? ==>
            var key := NamespaceKey(authenticate(request).value, namespace);
            && (key.Err? ==> r == Err(key.error))
            && (key.Ok? ==> r == Ok(WhiskConfig(namespace, key.value, parseHost(BaseEndpoint(config.region) + "/api")))))
  {
    if |config.accessToken| < 7 || |config.refreshToken| < 7 then Err(Crash)
    else
      var request := AuthRequest(AuthEndpoint(config.region), StripBearer(config.accessToken), StripBearer(config.refreshToken));
      match authenticate(request)
      case Err(e) => Err(Wrapped("Couldn't fetch namespace details", e))
      case Ok(namespaces) =>
        var key :- NamespaceKey(namespaces, namespace);
        Ok(WhiskConfig(namespace, key, parseHost(BaseEndpoint(config.region) + "/api")))
  }

  /** `whiskClient` itself, with its namespace loop. */
  method WhiskClient(config: BluemixConfig, namespace: string,
                     authenticate: AuthRequest -> Result<seq<Namespace>>,
                     parseHost: string -> string) returns (r: Result<WhiskConfig>)
    ensures r == WhiskClientFor(config, namespace, authenticate, parseHost)
  {
    var baseEndpoint := BaseEndpoint(config.region);
    if |config.accessToken| < 7 || |config.refreshToken| < 7 {
      return Err(Crash);
    }
    var request := AuthRequest(baseEndpoint + AuthPath, StripBearer(config.accessToken), StripBearer(config.refreshToken));
    var authResp := authenticate(request);
    if authResp.Err? {
      return Err(Wrapped("Couldn't fetch namespace details", authResp.error));
    }
    var key, _ := SearchNamespaces(authResp.value, namespace);
    if key.Err? {
      return Err(key.error);
    }
    return Ok(WhiskConfig(namespace, key.value, parseHost(baseEndpoint + "/api")));
  }

  /** A later entry with the same name never supplies the key. */
  lemma FirstKeyWins(front: seq<Namespace>, n: Namespace, back: seq<Namespace>)
    requires forall i :: 0 <= i < |front| ==> front[i].name != n.name
    ensures NamespaceKey(front + [n] + back, n.name) == Ok(n.key)
  {
    var all := front + [n] + back;
    assert all[|front|] == n;
    assert forall j :: 0 <= j < |front| ==> all[j] == front[j];
  }
}
