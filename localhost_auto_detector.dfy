/**
 * Detection of local Exo nodes: probe a list of ports on 127.0.0.1, ask each
 * open one a fixed list of health endpoints, describe the first that answers
 * 200, pick the node with the most models (lowest port on a tie), and write
 * it into the provider configuration.
 *
 * Sockets and HTTP are oracles: `portOpen` says whether a TCP connection to
 * a port succeeds, `get` gives the reply to a GET of a URL. A port outside
 * 0..65535 makes `connect_ex` raise `OverflowError`, which `_is_port_open`
 * does not catch; the model returns `Err(port)` for it.
 */
module LocalhostAutoDetector {
  import opened Common
  import opened Strings
  import J = JsonValues
  import Sorting
  import Filters
  import PortUtils

  /**
   * A decoded JSON body. For an object, `sizes` holds `len(...)` of each
   * field that has a length. For anything else, `contains` is the value of
   * `'models' in data or 'data' in data`, `None` when that raises.
   */
  datatype Json =
    | Object(rendered: string, fields: J.Entry, sizes: map<string, nat>)
    | NonObject(rendered: string, contains: Option<bool>)

  /** The reply to a GET; `json` is `None` when the body does not decode. */
  datatype Reply = RequestFailed | Response(statusCode: int, json: Option<Json>)

  datatype LocalNodeInfo = LocalNodeInfo(
    host: string, port: int, url: string, healthy: bool, nodeType: string,
    version: Option<J.Value>, modelsAvailable: nat)

  function CommonPorts(): seq<int>
  {
    [8000, 8001, 8080, 8888, 5000, 5001]
  }

  function HealthEndpoints(): seq<string>
  {
    ["/health", "/v1/models", "/api/health", "/status", "/"]
  }

  function Host(): string { "127.0.0.1" }

  function BaseUrl(port: int): string
  {
    "http://" + Host() + ":" + IntToString(port)
  }

  function ExoCluster(): string { "Exo Cluster" }

  function LocalNode(): string { "Local Node" }

  /**
   * `_identify_node_type`: an Exo cluster when the rendered body mentions
   * "exo" in any case, when the body has a models or data member, or when
   * the endpoint is the model listing; a local node otherwise, and whenever
   * decoding or the membership test raises.
   */
  function IdentifyNodeType(json: Option<Json>, endpoint: string): (r: string)
    ensures r == ExoCluster() || r == LocalNode()
    ensures json.None? ==> r == LocalNode()
    ensures json.Some? && Contains(Lower(json.value.rendered), "exo") ==> r == ExoCluster()
    ensures json.Some? && json.value.Object? && Contains(endpoint, "/v1/models") ==> r == ExoCluster()
    ensures json.Some? && json.value.NonObject? && json.value.contains.None? && !Contains(Lower(json.value.rendered), "exo")
            ==> r == LocalNode()
  {
    match json
    case None => LocalNode()
    case Some(data) =>
      if Contains(Lower(data.rendered), "exo") then ExoCluster()
      else
        var member := if data.Object? then Some("models" in data.fields || "data" in data.fields) else data.contains;
        if member.None? then LocalNode()
        else if member.value then ExoCluster()
        else if Contains(endpoint, "/v1/models") then ExoCluster()
        else LocalNode()
  }

  /** The model count `_get_node_details` reads, `None` when taking the length raises. */
  function ModelCount(fields: J.Entry, sizes: map<string, nat>): Option<nat>
  {
    if "data" in fields then (if "data" in sizes then Some(sizes["data"]) else None)
    else if "models" in fields then (if "models" in sizes then Some(sizes["models"]) else None)
    else Some(0)
  }

  /**
   * `_get_node_details` on the reply of the model listing: the length of the
   * data member, else of the models member, and the version member; nothing
   * and zero when the request fails, is not a 200, does not decode to an
   * object or a length cannot be taken.
   */
  function NodeDetails(reply: Reply): (r: (Option<J.Value>, nat))
    ensures !(reply.Response? && reply.statusCode == 200 && reply.json.Some? && reply.json.value.Object?) ==> r == (None, 0)
    ensures reply.Response? && reply.statusCode == 200 && reply.json.Some? && reply.json.value.Object?
            && ModelCount(reply.json.value.fields, reply.json.value.sizes).Some? ==>
      && r.1 == ModelCount(reply.json.value.fields, reply.json.value.sizes).value
      && r.0 == (if "version" in reply.json.value.fields then Some(reply.json.value.fields["version"]) else None)
  {
    if reply.Response? && reply.statusCode == 200 && reply.json.Some? && reply.json.value.Object? then
      var data := reply.json.value;
      match ModelCount(data.fields, data.sizes)
      case None => (None, 0)
      case Some(count) => (if "version" in data.fields then Some(data.fields["version"]) else None, count)
    else (None, 0)
  }

  /** A reply that ends the endpoint search. */
  predicate Healthy(reply: Reply)
  {
    reply.Response? && reply.statusCode == 200
  }

  /** The first of `endpoints` whose reply is a 200, with that reply. */
  function FirstHealthy(base: string, endpoints: seq<string>, get: string -> Reply): (r: Option<(string, Reply)>)
    ensures r.Some? ==> Healthy(r.value.1) && r.value.1 == get(base + r.value.0)
  {
    if endpoints == [] then None
    else if Healthy(get(base + endpoints[0])) then Some((endpoints[0], get(base + endpoints[0])))
    else FirstHealthy(base, endpoints[1..], get)
  }

  /** `FirstHealthy` answers the first endpoint with a 200 and nothing when none gives one. */
  lemma {:induction false} FirstHealthySpec(base: string, endpoints: seq<string>, get: string -> Reply)
    ensures var r := FirstHealthy(base, endpoints, get);
      && (r.None? <==> forall k :: 0 <= k < |endpoints| ==> !Healthy(get(base + endpoints[k])))
      && (r.Some? ==> exists k :: 0 <= k < |endpoints| && r.value == (endpoints[k], get(base + endpoints[k]))
                        && Healthy(get(base + endpoints[k]))
                        && forall j :: 0 <= j < k ==> !Healthy(get(base + endpoints[j])))
  {
    if endpoints != [] && !Healthy(get(base + endpoints[0])) {
      FirstHealthySpec(base, endpoints[1..], get);
      var r := FirstHealthy(base, endpoints, get);
      assert forall k :: 1 <= k < |endpoints| ==> endpoints[k] == endpoints[1..][k - 1];
      if r.Some? {
        var k :| 0 <= k < |endpoints[1..]| && r.value == (endpoints[1..][k], get(base + endpoints[1..][k]))
                 && Healthy(get(base + endpoints[1..][k]))
                 && forall j :: 0 <= j < k ==> !Healthy(get(base + endpoints[1..][j]));
        assert r.value == (endpoints[k + 1], get(base + endpoints[k + 1]));
        assert forall j :: 0 <= j < k + 1 ==> !Healthy(get(base + endpoints[j]));
      }
    }
  }

  /** The node `_test_port` finds on a port whose connection test does not raise. */
  function Probe(port: int, portOpen: int -> bool, get: string -> Reply): (r: Option<LocalNodeInfo>)
    ensures !portOpen(port) ==> r.None?
    ensures r.Some? ==> r.value.host == Host() && r.value.port == port && r.value.url == BaseUrl(port) && r.value.healthy
  {
    if !portOpen(port) then None
    else
      var base := BaseUrl(port);
      match FirstHealthy(base, HealthEndpoints(), get)
      case None => None
      case Some(hit) =>
        var details := NodeDetails(get(base + "/v1/models"));
        Some(LocalNodeInfo(Host(), port, base, true, IdentifyNodeType(hit.1.json, hit.0), details.0, details.1))
  }

  /**
   * What `_test_port` finds on a port: `Err(port)` when the connection test
   * raises `OverflowError`, else the node, if any.
   */
  function TestPortSpec(port: int, portOpen: int -> bool, get: string -> Reply): (r: Result<Option<LocalNodeInfo>, int>)
    ensures r.Err? <==> !PortUtils.Bindable(port)
    ensures r.Err? ==> r.error == port
    ensures r.Ok? && !portOpen(port) ==> r.value.None?
    ensures r.Ok? && r.value.Some? ==>
      r.value.value.host == Host() && r.value.value.port == port && r.value.value.url == BaseUrl(port) && r.value.value.healthy
  {
    if !PortUtils.Bindable(port) then Err(port) else Ok(Probe(port, portOpen, get))
  }

  /**
   * A port outside 0..65535 raises. Any other port yields a node exactly
   * when it is open and some health endpoint answers 200; the first such
   * endpoint decides the node type, and the model listing decides the
   * version and the model count.
   */
  lemma TestPortFirst(port: int, portOpen: int -> bool, get: string -> Reply)
    ensures var r := TestPortSpec(port, portOpen, get);
      var base := BaseUrl(port);
      && (r.Err? <==> !PortUtils.Bindable(port))
      && (r.Ok? ==> (r.value.Some? <==>
            portOpen(port) && exists k :: 0 <= k < |HealthEndpoints()| && Healthy(get(base + HealthEndpoints()[k]))))
      && (r.Ok? && r.value.Some? ==>
            exists k :: 0 <= k < |HealthEndpoints()| && Healthy(get(base + HealthEndpoints()[k]))
              && (forall j :: 0 <= j < k ==> !Healthy(get(base + HealthEndpoints()[j])))
              && r.value.value.nodeType == IdentifyNodeType(get(base + HealthEndpoints()[k]).json, HealthEndpoints()[k]))
      && (r.Ok? && r.value.Some? ==>
            (r.value.value.version, r.value.value.modelsAvailable) == NodeDetails(get(base + "/v1/models")))
  {
    if portOpen(port) {
      FirstHealthySpec(BaseUrl(port), HealthEndpoints(), get);
    }
  }

  /** The node detected on each port whose connection test does not raise. */
  function Detect(portOpen: int -> bool, get: string -> Reply): int -> Option<LocalNodeInfo>
  {
    port => Probe(port, portOpen, get)
  }

  /** Testing a port in range detects what `Detect` does. */
  lemma TestPortDetects(port: int, portOpen: int -> bool, get: string -> Reply)
    ensures TestPortSpec(port, portOpen, get)
            == if PortUtils.Bindable(port) then Ok(Detect(portOpen, get)(port)) else Err(port)
  {
  }

  /** The index of the first port of `ps` outside 0..65535, `|ps|` when there is none. */
  function {:induction false} FirstUnbindable(ps: seq<int>): (i: nat)
    ensures i <= |ps|
    ensures forall k :: 0 <= k < i ==> PortUtils.Bindable(ps[k])
    ensures i < |ps| ==> !PortUtils.Bindable(ps[i])
  {
    if ps == [] then 0
    else if !PortUtils.Bindable(ps[0]) then 0
    else
      var i := 1 + FirstUnbindable(ps[1..]);
      assert forall k :: 1 <= k < i ==> ps[k] == ps[1..][k - 1];
      i
  }

  /** `ports or COMMON_PORTS`: no list, or an empty one, means the common ports. */
  function PortsToScan(ports: Option<seq<int>>): (r: seq<int>)
    ensures r != []
  {
    if ports.Some? && ports.value != [] then ports.value else CommonPorts()
  }

  /** A position with only bindable ports before it, and none or an unbindable one at it, is the first unbindable one. */
  lemma FirstUnbindableAt(ps: seq<int>, i: nat)
    requires i <= |ps|
    requires forall k :: 0 <= k < i ==> PortUtils.Bindable(ps[k])
    requires i < |ps| ==> !PortUtils.Bindable(ps[i])
    ensures FirstUnbindable(ps) == i
  {
  }

  /**
   * What `scan_localhost` gives: the nodes detected, in port order, or
   * `Err(port)` for the first port whose connection test raises, which ends
   * the scan.
   */
  function Scanned(ports: Option<seq<int>>, portOpen: int -> bool, get: string -> Reply): Result<seq<LocalNodeInfo>, int>
  {
    ScanOf(PortsToScan(ports), portOpen, get)
  }

  /** The scan of the port list `ps`. */
  function ScanOf(ps: seq<int>, portOpen: int -> bool, get: string -> Reply): Result<seq<LocalNodeInfo>, int>
  {
    var i := FirstUnbindable(ps);
    if i < |ps| then Err(ps[i]) else Ok(Filters.FilterMap(ps, Detect(portOpen, get)))
  }

  /**
   * The scan raises exactly when some scanned port lies outside 0..65535,
   * and then for the first such port. Otherwise every detected node was
   * found on one of the scanned ports, which was open, and every scanned
   * port with a node contributes it.
   */
  lemma ScannedSpec(ports: Option<seq<int>>, portOpen: int -> bool, get: string -> Reply)
    ensures var r := Scanned(ports, portOpen, get);
      var ps := PortsToScan(ports);
      && (r.Err? <==> exists k :: 0 <= k < |ps| && !PortUtils.Bindable(ps[k]))
      && (r.Err? ==> exists k :: 0 <= k < |ps| && ps[k] == r.error && !PortUtils.Bindable(ps[k])
                               && forall j :: 0 <= j < k ==> PortUtils.Bindable(ps[j]))
    ensures Scanned(ports, portOpen, get).Ok? ==>
      forall k :: 0 <= k < |Scanned(ports, portOpen, get).value| ==>
        Scanned(ports, portOpen, get).value[k].port in PortsToScan(ports)
        && portOpen(Scanned(ports, portOpen, get).value[k].port)
    ensures Scanned(ports, portOpen, get).Ok? ==>
      forall i :: 0 <= i < |PortsToScan(ports)| && TestPortSpec(PortsToScan(ports)[i], portOpen, get).Ok?
                  && TestPortSpec(PortsToScan(ports)[i], portOpen, get).value.Some? ==>
        TestPortSpec(PortsToScan(ports)[i], portOpen, get).value.value in Scanned(ports, portOpen, get).value
  {
    var ps := PortsToScan(ports);
    var first := FirstUnbindable(ps);
    if first < |ps| {
      assert ps[first] == Scanned(ports, portOpen, get).error;
    } else {
      var nodes := Scanned(ports, portOpen, get).value;
      var detect := Detect(portOpen, get);
      Filters.FilterMapOrigin(ps, detect);
      Filters.FilterMapComplete(ps, detect);
      forall k | 0 <= k < |nodes|
        ensures nodes[k].port in ps && portOpen(nodes[k].port)
      {
        var i :| 0 <= i < |ps| && detect(ps[i]) == Some(nodes[k]);
        assert Probe(ps[i], portOpen, get) == Some(nodes[k]);
      }
    }
  }

  /** `get_best_node`'s sort key `(-models_available, port)`, as a descending key. */
  function NodeKey(n: LocalNodeInfo): Sorting.SortKey
  {
    Sorting.SortKey(n.modelsAvailable as real, -(n.port as real))
  }

  /** `get_best_node` on a list of nodes: the head of the sorted list. */
  function BestNode(nodes: seq<LocalNodeInfo>): (r: Option<LocalNodeInfo>)
    ensures r.None? <==> nodes == []
  {
    if nodes == [] then None else Some(Sorting.SortDesc(nodes, NodeKey)[0])
  }

  /**
   * The best node is one of the nodes, no node has more models, and no node
   * with as many models has a lower port; every node listed before it is
   * strictly worse.
   */
  lemma BestNodeSpec(nodes: seq<LocalNodeInfo>)
    requires nodes != []
    ensures var b := BestNode(nodes).value;
      && b in nodes
      && (forall n :: n in nodes ==> n.modelsAvailable <= b.modelsAvailable)
      && (forall n :: n in nodes && n.modelsAvailable == b.modelsAvailable ==> b.port <= n.port)
      && (forall i :: 0 <= i < |nodes| && (forall j :: 0 <= j < i ==> nodes[j] != nodes[i]) && nodes[i] == b ==>
            forall j :: 0 <= j < i ==> nodes[j].modelsAvailable < b.modelsAvailable
                                       || (nodes[j].modelsAvailable == b.modelsAvailable && b.port < nodes[j].port))
  {
    Sorting.SortDescHead(nodes, NodeKey);
    Sorting.FirstMaxIsMax(nodes, NodeKey);
    var b := BestNode(nodes).value;
    forall n | n in nodes ensures n.modelsAvailable <= b.modelsAvailable
      && (n.modelsAvailable == b.modelsAvailable ==> b.port <= n.port)
    {
      var i :| 0 <= i < |nodes| && nodes[i] == n;
      assert Sorting.AtLeast(NodeKey(b), NodeKey(nodes[i]));
    }
    forall i | 0 <= i < |nodes| && (forall j :: 0 <= j < i ==> nodes[j] != nodes[i]) && nodes[i] == b
      ensures forall j :: 0 <= j < i ==> nodes[j].modelsAvailable < b.modelsAvailable
                                         || (nodes[j].modelsAvailable == b.modelsAvailable && b.port < nodes[j].port)
    {
      Sorting.FirstMaxIsFirst(nodes, NodeKey, i);
    }
  }

  /** The fields `enable_in_config` writes into the Exo provider. */
  function ExoFields(node: LocalNodeInfo, now: string): J.Entry
  {
    map["base_url" := J.Str(node.url), "models_endpoint" := J.Str("v1/models"),
        "chat_endpoint" := J.Str("v1/chat/completions"), "status" := J.Str("active"),
        "auto_detected" := J.Bool(true), "detected_at" := J.Str(now),
        "port" := J.Int(node.port), "models_available" := J.Int(node.modelsAvailable)]
  }

  /** The provider entry created when none is an Exo provider. */
  function NewExoEntry(): J.Entry
  {
    map["name" := J.Str("Exo Local"), "type" := J.Str("local"), "auto_detected" := J.Bool(true)]
  }

  /** `provider.update(...)` with the node's fields. */
  function ExoEntry(provider: J.Entry, node: LocalNodeInfo, now: string): J.Entry
  {
    provider + ExoFields(node, now)
  }

  /** The updated entry points at the node, is active, and keeps every field the update does not name. */
  lemma ExoEntrySpec(provider: J.Entry, node: LocalNodeInfo, now: string)
    ensures var e := ExoEntry(provider, node, now);
      && e["base_url"] == J.Str(node.url) && e["status"] == J.Str("active")
      && e["port"] == J.Int(node.port) && e["models_available"] == J.Int(node.modelsAvailable)
      && e["auto_detected"] == J.Bool(true)
      && forall key :: key in provider && key !in ExoFields(node, now) ==> key in e && e[key] == provider[key]
  {
  }

  /** The created entry is the local 'Exo Local' provider. */
  lemma NewExoEntrySpec(node: LocalNodeInfo, now: string)
    ensures var e := ExoEntry(NewExoEntry(), node, now);
      e["name"] == J.Str("Exo Local") && e["type"] == J.Str("local")
  {
    assert "name" !in ExoFields(node, now) && "type" !in ExoFields(node, now);
  }

  /**
   * `'exo' in provider.get('name', '').lower()`: `None` when the name is not
   * a string, so that `lower` raises.
   */
  function ExoNamed(e: J.Entry): Option<bool>
  {
    if "name" !in e then Some(false)
    else if e["name"].Str? then Some(Contains(Lower(e["name"].s), "exo"))
    else None
  }

  /**
   * The search of `enable_in_config`: the index of the first Exo provider
   * from `from` on, `Ok(None)` when there is none, `Err` when a name met
   * before it is not a string.
   */
  function FindExo(ps: seq<J.Entry>, from: nat): (r: Result<Option<nat>, string>)
    requires from <= |ps|
    ensures r.Ok? && r.value.Some? ==> from <= r.value.value < |ps| && ExoNamed(ps[r.value.value]) == Some(true)
    decreases |ps| - from
  {
    if from == |ps| then Ok(None)
    else match ExoNamed(ps[from])
      case None => Err("'name' is not a string")
      case Some(true) => Ok(Some(from))
      case Some(false) => FindExo(ps, from + 1)
  }

  /** The top level of the configuration file: its provider list and everything else. */
  datatype Config = Config(providers: Option<seq<J.Entry>>, rest: J.Entry)

  /**
   * The file `enable_in_config` writes, `None` when it returns false: the
   * file is missing or unreadable, or a name cannot be lowered.
   */
  function Enabled(node: LocalNodeInfo, file: Option<Config>, now: string): Option<Config>
  {
    if file.None? then None
    else
      var ps := file.value.providers.GetOr([]);
      match FindExo(ps, 0)
      case Err(_) => None
      case Ok(None) => Some(file.value.(providers := Some(ps + [ExoEntry(NewExoEntry(), node, now)])))
      case Ok(Some(i)) => Some(file.value.(providers := Some(ps[i := ExoEntry(ps[i], node, now)])))
  }

  /**
   * A successful enable leaves exactly one provider pointing at the node:
   * the first Exo provider, updated in place, or else a new 'Exo Local'
   * entry at the end (see `ExoEntrySpec` and `NewExoEntrySpec`); every
   * provider before it has a string name without "exo", and every other
   * provider and every other top-level field are untouched.
   */
  lemma EnabledSpec(node: LocalNodeInfo, file: Option<Config>, now: string)
    ensures var w := Enabled(node, file, now);
      && (file.None? ==> w.None?)
      && (w.Some? ==>
        var ps := file.value.providers.GetOr([]);
        var qs := w.value.providers.value;
        var i := if FindExo(ps, 0).value.Some? then FindExo(ps, 0).value.value else |ps|;
        && w.value.rest == file.value.rest
        && FindExo(ps, 0).Ok?
        && |qs| == (if i == |ps| then |ps| + 1 else |ps|)
        && (forall j :: 0 <= j < i ==> ExoNamed(ps[j]) == Some(false))
        && (forall j :: 0 <= j < |ps| && j != i ==> qs[j] == ps[j])
        && qs[i] == ExoEntry(if i < |ps| then ps[i] else NewExoEntry(), node, now))
  {
    if file.Some? {
      FindExoSpec(file.value.providers.GetOr([]), 0);
    }
  }

  /** `FindExo` stops at the first Exo provider, and it fails only on a name that is not a string. */
  lemma {:induction false} FindExoSpec(ps: seq<J.Entry>, from: nat)
    requires from <= |ps|
    ensures FindExo(ps, from).Ok? ==>
      var i := if FindExo(ps, from).value.Some? then FindExo(ps, from).value.value else |ps|;
      forall j :: from <= j < i ==> ExoNamed(ps[j]) == Some(false)
    ensures FindExo(ps, from).Err? <==> exists j :: from <= j < |ps| && ExoNamed(ps[j]).None?
                                                     && forall j' :: from <= j' < j ==> ExoNamed(ps[j']) == Some(false)
    decreases |ps| - from
  {
    if from < |ps| && ExoNamed(ps[from]) == Some(false) {
      FindExoSpec(ps, from + 1);
      if FindExo(ps, from).Err? {
        var j :| from + 1 <= j < |ps| && ExoNamed(ps[j]).None?
                 && forall j' :: from + 1 <= j' < j ==> ExoNamed(ps[j']) == Some(false);
        assert forall j' :: from <= j' < j ==> ExoNamed(ps[j']) == Some(false);
      }
    }
  }

  /** One step of the scan loop: the node of port `i`, if any, joins the nodes found. */
  lemma ScanStep(ps: seq<int>, i: nat, found: seq<LocalNodeInfo>, detect: int -> Option<LocalNodeInfo>)
    requires i < |ps|
    requires found + Filters.FilterMap(ps[i..], detect) == Filters.FilterMap(ps, detect)
    ensures (if detect(ps[i]).Some? then found + [detect(ps[i]).value] else found)
            + Filters.FilterMap(ps[i + 1..], detect) == Filters.FilterMap(ps, detect)
  {
    Filters.FilterMapStep(ps, i, detect);
  }

  class LocalhostAutoDetector {
    var detectedNodes: seq<LocalNodeInfo>

    constructor ()
      ensures detectedNodes == []
    {
      detectedNodes := [];
    }

    /**
     * `_test_port`: a port outside 0..65535 raises; a closed port has no
     * node; else the first endpoint that answers 200 describes it.
     */
    static method TestPort(port: int, portOpen: int -> bool, get: string -> Reply) returns (r: Result<Option<LocalNodeInfo>, int>)
      ensures r == TestPortSpec(port, portOpen, get)
    {
      if !PortUtils.Bindable(port) {
        return Err(port);
      }
      if !portOpen(port) {
        return Ok(None);
      }
      var base := BaseUrl(port);
      var endpoints := HealthEndpoints();
      var k := 0;
      while k < |endpoints|
        invariant 0 <= k <= |endpoints|
        invariant FirstHealthy(base, endpoints[k..], get) == FirstHealthy(base, endpoints, get)
      {
        assert endpoints[k..][1..] == endpoints[k + 1..];
        var reply := get(base + endpoints[k]);
        if reply.Response? && reply.statusCode == 200 {
          var details := NodeDetails(get(base + "/v1/models"));
          return Ok(Some(LocalNodeInfo(Host(), port, base, true, IdentifyNodeType(reply.json, endpoints[k]),
                                       details.0, details.1)));
        }
        k := k + 1;
      }
      return Ok(None);
    }

    /**
     * `scan_localhost`: tests each port in order and remembers the nodes
     * found; a port whose test raises ends the scan before anything is
     * remembered.
     */
    method ScanLocalhost(ports: Option<seq<int>>, portOpen: int -> bool, get: string -> Reply)
      returns (detected: Result<seq<LocalNodeInfo>, int>)
      modifies this
      ensures detected == Scanned(ports, portOpen, get)
      ensures detected.Ok? ==> detectedNodes == detected.value
      ensures detected.Err? ==> detectedNodes == old(detectedNodes)
    {
      detected := ScanPorts(PortsToScan(ports), portOpen, get);
      if detected.Ok? {
        detectedNodes := detected.value;
      }
    }

    /** The loop of `scan_localhost` over the ports `ps`. */
    static method ScanPorts(ps: seq<int>, portOpen: int -> bool, get: string -> Reply)
      returns (detected: Result<seq<LocalNodeInfo>, int>)
      ensures detected == ScanOf(ps, portOpen, get)
    {
      var detect := Detect(portOpen, get);
      var found: seq<LocalNodeInfo> := [];
      var i := 0;
      while i < |ps|
        invariant 0 <= i <= |ps|
        invariant forall k :: 0 <= k < i ==> PortUtils.Bindable(ps[k])
        invariant found + Filters.FilterMap(ps[i..], detect) == Filters.FilterMap(ps, detect)
      {
        var info := TestPort(ps[i], portOpen, get);
        TestPortDetects(ps[i], portOpen, get);
        if info.Err? {
          FirstUnbindableAt(ps, i);
          return Err(info.error);
        }
        ScanStep(ps, i, found, detect);
        if info.value.Some? {
          found := found + [info.value.value];
        }
        i := i + 1;
      }
      assert ps[i..] == [];
      assert found == Filters.FilterMap(ps, detect);
      FirstUnbindableAt(ps, i);
      assert ScanOf(ps, portOpen, get) == Ok(Filters.FilterMap(ps, detect));
      return Ok(found);
    }

    function GetBestNode(): Option<LocalNodeInfo>
      reads this
    {
      BestNode(detectedNodes)
    }

    /** `enable_in_config`: the file written, or `None` when it returns false. */
    method EnableInConfig(node: LocalNodeInfo, file: Option<Config>, now: string) returns (ok: bool, written: Option<Config>)
      ensures written == Enabled(node, file, now)
      ensures ok <==> written.Some?
    {
      if file.None? {
        return false, None;
      }
      var ps := file.value.providers.GetOr([]);
      var found: Option<nat> := None;
      var i := 0;
      while i < |ps|
        invariant 0 <= i <= |ps|
        invariant FindExo(ps, i) == FindExo(ps, 0)
      {
        var named := ExoNamed(ps[i]);
        if named.None? {
          return false, None;
        }
        if named.value {
          found := Some(i);
          break;
        }
        i := i + 1;
      }
      if found.None? {
        written := Some(file.value.(providers := Some(ps + [ExoEntry(NewExoEntry(), node, now)])));
      } else {
        var j := found.value;
        written := Some(file.value.(providers := Some(ps[j := ExoEntry(ps[j], node, now)])));
      }
      ok := true;
    }
  }
}
