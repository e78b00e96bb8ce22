/** The graph of assets, services, technologies and findings of one scan. */
module AssetGraph {
  import opened Options
  import opened Dedup
  import opened Text

  datatype Kind = Domain | Subdomain | Ip | Port | Service | Technology | Endpoint | Cve | Finding | Exposure

  datatype Node = Node(id: string, kind: Kind, caption: string, risk: real)

  datatype Edge = Edge(source: string, target: string, relation: string)

  /** One call of `AddNode`. */
  datatype Addition = Addition(id: string, kind: Kind, caption: string, risk: real)

  // ----- what a sequence of additions leaves -----

  function Higher(a: real, b: real): real {
    if a >= b then a else b
  }

  function Added(nodes: map<string, Node>, a: Addition): map<string, Node> {
    var node := if a.id in nodes then nodes[a.id].(risk := Higher(nodes[a.id].risk, a.risk))
                else Node(a.id, a.kind, a.caption, a.risk);
    nodes[a.id := node]
  }

  function NodesOf(log: seq<Addition>): map<string, Node> {
    if log == [] then map[] else Added(NodesOf(log[..|log| - 1]), log[|log| - 1])
  }

  predicate Names(log: seq<Addition>, i: int, id: string) {
    0 <= i < |log| && log[i].id == id
  }

  /**
   A node exists exactly for the ids ever added; its kind and label are those of the first addition, and
   its risk is the maximum ever added for it.
   */
  lemma {:induction false} NodeFacts(log: seq<Addition>, id: string)
    ensures id in NodesOf(log) <==> exists i :: Names(log, i, id)
    ensures id in NodesOf(log) ==>
      var n := NodesOf(log)[id];
      && n.id == id
      && (forall i :: Names(log, i, id) ==> log[i].risk <= n.risk)
      && (exists i :: Names(log, i, id) && log[i].risk == n.risk)
      && (exists i ::
        Names(log, i, id) && log[i].kind == n.kind && log[i].caption == n.caption
        && forall j :: Names(log, j, id) ==> i <= j)
  {
    if log != [] {
      var (front, last) := (log[..|log| - 1], log[|log| - 1]);
      NodeFacts(front, id);
      assert forall i :: Names(front, i, id) ==> Names(log, i, id) && log[i] == front[i];
      assert forall i :: Names(log, i, id) ==> Names(front, i, id) || (i == |front| && last.id == id);
      assert last.id == id ==> Names(log, |front|, id);
      if id in NodesOf(front) {
        var i :| Names(front, i, id) && front[i].risk == NodesOf(front)[id].risk;
        assert Names(log, i, id);
        var k :| Names(front, k, id) && front[k].kind == NodesOf(front)[id].kind
          && front[k].caption == NodesOf(front)[id].caption
          && forall j :: Names(front, j, id) ==> k <= j;
        assert Names(log, k, id);
      }
    }
  }

  /** No edge leads from or to a node that is not there. */
  predicate Closed(nodes: map<string, Node>, edges: set<Edge>) {
    forall e :: e in edges ==> e.source in nodes && e.target in nodes
  }

  // ----- the builder -----

  class GraphBuilder {
    var nodes: map<string, Node>
    var edges: set<Edge>
    ghost var log: seq<Addition>

    ghost predicate Valid()
      reads this
    {
      nodes == NodesOf(log) && Closed(nodes, edges)
    }

    constructor ()
      ensures Valid() && log == [] && nodes == map[] && edges == {}
    {
      nodes, edges, log := map[], {}, [];
    }

    method AddNode(id: string, kind: Kind, caption: string, risk: real)
      modifies this
      ensures log == old(log) + [Addition(id, kind, caption, risk)] && edges == old(edges)
      ensures nodes == Added(old(nodes), Addition(id, kind, caption, risk)) && nodes.Keys == old(nodes).Keys + {id}
      ensures old(Valid()) ==> Valid()
    {
      if id in nodes {
        nodes := nodes[id := nodes[id].(risk := Higher(nodes[id].risk, risk))];
      } else {
        nodes := nodes[id := Node(id, kind, caption, risk)];
      }
      log := log + [Addition(id, kind, caption, risk)];
      assert log[..|log| - 1] == old(log);
    }

    lemma ValidMeans()
      requires Valid()
      ensures nodes == NodesOf(log) && Closed(nodes, edges)
    {
    }

    /** The builder does not look whether the nodes are there; the graph stays closed if they are. */
    method AddEdge(source: string, target: string, relation: string)
      modifies this`edges
      ensures edges == old(edges) + {Edge(source, target, relation)}
      ensures old(Valid()) && source in nodes && target in nodes ==> Valid()
    {
      edges := edges + {Edge(source, target, relation)};
    }
  }

  // ----- the scan result -----

  datatype AssetType = Subdomain | Path | Parameter | Ip | Url | Service | ApiEndpoint

  datatype AssetRecord = AssetRecord(assetType: AssetType, url: string)

  datatype ServiceRecord = ServiceRecord(endpoint: string, port: string, isPublic: bool, risk: real,
                                         product: Option<string>, version: Option<string>, confidence: real)

  datatype Tech = Tech(name: string, version: Option<string>, confidence: real)

  datatype Stack = Stack(url: string, techs: seq<Tech>)

  datatype ScanResult = ScanResult(target: string, assets: seq<AssetRecord>, services: seq<ServiceRecord>,
                                   stacks: seq<Stack>, vulnerabilities: seq<Vulnerability>)

  function NodeId(prefix: string, value: string): string {
    prefix + ":" + Lower(value)
  }

  function KindPrefix(kind: Kind): string {
    match kind
    case Domain => "domain"
    case Subdomain => "subdomain"
    case Ip => "ip"
    case Port => "port"
    case Service => "service"
    case Technology => "tech"
    case Endpoint => "endpoint"
    case Cve => "cve"
    case Finding => "finding"
    case Exposure => "exposure"
  }

  function GraphKind(assetType: AssetType): Kind {
    match assetType
    case Subdomain => Kind.Subdomain
    case Ip => Kind.Ip
    case Service => Kind.Service
    case Path => Endpoint
    case Parameter => Endpoint
    case Url => Endpoint
    case ApiEndpoint => Endpoint
  }

  function Labelled(name: string, version: Option<string>): string {
    if version.Some? then name + "/" + version.value else name
  }

  function LeadingDigits(s: string): string {
    if s != [] && '0' <= s[0] <= '9' then [s[0]] + LeadingDigits(s[1..]) else []
  }

  function AfterLastColon(s: string): Option<string> {
    if s == [] then None
    else if s[|s| - 1] == ':' then Some([])
    else
      var rest := AfterLastColon(s[..|s| - 1]);
      if rest.None? then None else Some(rest.value + [s[|s| - 1]])
  }

  /** The digits after the last colon of an address, if any. */
  function PortOf(url: string): Option<string> {
    var after := AfterLastColon(url);
    if after.None? || LeadingDigits(after.value) == [] then None else Some(LeadingDigits(after.value))
  }

  // ----- what each part of the scan contributes -----

  function AssetAdditions(a: AssetRecord): seq<Addition> {
    [Addition(NodeId(KindPrefix(GraphKind(a.assetType)), a.url), GraphKind(a.assetType), a.url, 0.0)]
    + match PortOf(a.url)
      case None => []
      case Some(port) =>
        [Addition(NodeId("service", a.url), Kind.Service, a.url, 0.0),
         Addition("port:" + port, Port, "port:" + port, 0.0)]
  }

  function AssetEdges(target: string, a: AssetRecord): set<Edge> {
    {Edge(target, NodeId(KindPrefix(GraphKind(a.assetType)), a.url), "contains")}
    + match PortOf(a.url)
      case None => {}
      case Some(port) => {Edge(NodeId("service", a.url), "port:" + port, "listens_on")}
  }

  function HostLabel(s: ServiceRecord): string {
    if HostFromUrl(s.endpoint).Some? then HostFromUrl(s.endpoint).value else s.endpoint
  }

  function ExposureLabel(s: ServiceRecord): string {
    if s.isPublic then "internet_facing" else "internal_or_private"
  }

  function TechAddition(caption: string, confidence: real): Addition {
    Addition(NodeId("tech", caption), Technology, caption, confidence * 10.0)
  }

  function ServiceAdditions(s: ServiceRecord): seq<Addition> {
    [Addition(NodeId("ip", HostLabel(s)), Kind.Ip, HostLabel(s), 0.0),
     Addition(NodeId("service", s.endpoint), Kind.Service, s.endpoint, s.risk),
     Addition("port:" + s.port, Port, s.port, 0.0),
     Addition(NodeId("exposure", ExposureLabel(s)), Exposure, ExposureLabel(s), if s.isPublic then 55.0 else 10.0)]
    + if s.product.Some? then [TechAddition(Labelled(s.product.value, s.version), s.confidence)] else []
  }

  function ServiceEdges(target: string, s: ServiceRecord): set<Edge> {
    var (host, service) := (NodeId("ip", HostLabel(s)), NodeId("service", s.endpoint));
    {Edge(target, host, "contains_host"), Edge(host, service, "exposes"), Edge(service, "port:" + s.port, "listens_on"),
     Edge(service, NodeId("exposure", ExposureLabel(s)), "has_exposure")}
    + if s.product.Some? then {Edge(service, NodeId("tech", Labelled(s.product.value, s.version)), "runs")} else {}
  }

  function TechAdditions(techs: seq<Tech>): seq<Addition> {
    if techs == [] then []
    else
      var last := techs[|techs| - 1];
      TechAdditions(techs[..|techs| - 1]) + [TechAddition(Labelled(last.name, last.version), last.confidence)]
  }

  function TechEdges(url: string, techs: seq<Tech>): set<Edge> {
    set i | 0 <= i < |techs| ::
      Edge(NodeId("endpoint", url), NodeId("tech", Labelled(techs[i].name, techs[i].version)), "runs")
  }

  function StackAdditions(s: Stack): seq<Addition> {
    [Addition(NodeId("endpoint", s.url), Endpoint, s.url, 0.0)] + TechAdditions(s.techs)
  }

  function StackEdges(target: string, s: Stack): set<Edge> {
    {Edge(target, NodeId("endpoint", s.url), "has_endpoint")} + TechEdges(s.url, s.techs)
  }

  /** The first service at this address. */
  function ServiceAt(services: seq<ServiceRecord>, endpoint: string): Option<ServiceRecord> {
    if services == [] then None
    else if services[0].endpoint == endpoint then Some(services[0])
    else ServiceAt(services[1..], endpoint)
  }

  /** The product a finding at this address affects: its label and the confidence in it. */
  function AffectedProduct(services: seq<ServiceRecord>, url: string): Option<(string, real)> {
    match ServiceAt(services, url)
    case None => None
    case Some(s) => if s.product.None? then None else Some((Labelled(s.product.value, s.version), s.confidence))
  }

  function ReferenceAdditions(services: seq<ServiceRecord>, f: Deduped): seq<Addition> {
    [Addition(NodeId("cve", f.ruleId), Cve, f.ruleId, f.risk)]
    + match AffectedProduct(services, f.url)
      case None => []
      case Some((caption, confidence)) => [TechAddition(caption, confidence)]
  }

  function ReferenceEdges(services: seq<ServiceRecord>, f: Deduped): set<Edge> {
    {Edge(NodeId("finding", f.key), NodeId("cve", f.ruleId), "references")}
    + match AffectedProduct(services, f.url)
      case None => {}
      case Some((caption, _)) => {Edge(NodeId("tech", caption), NodeId("cve", f.ruleId), "affected_by")}
  }

  /** The service a finding was made on, for a finding at a bare port. */
  function CarrierAdditions(f: Deduped): seq<Addition> {
    if "tcp://" <= f.url then [Addition(NodeId("service", f.url), Kind.Service, f.url, f.risk)] else []
  }

  function CarrierEdges(f: Deduped): set<Edge> {
    if "tcp://" <= f.url then {Edge(NodeId("service", f.url), NodeId("finding", f.key), "has_finding")} else {}
  }

  function FindingAdditions(services: seq<ServiceRecord>, f: Deduped): seq<Addition> {
    [Addition(NodeId("finding", f.key), Finding, f.name, f.risk),
     Addition(NodeId("endpoint", f.url), Endpoint, f.url, 0.0)]
    + CarrierAdditions(f)
    + (if "CVE-" <= f.ruleId then ReferenceAdditions(services, f) else [])
  }

  function FindingEdges(services: seq<ServiceRecord>, f: Deduped): set<Edge> {
    {Edge(NodeId("endpoint", f.url), NodeId("finding", f.key), "has_finding")}
    + CarrierEdges(f)
    + (if "CVE-" <= f.ruleId then ReferenceEdges(services, f) else {})
  }

  // ----- what lists of parts contribute -----

  function AssetsLog(assets: seq<AssetRecord>): seq<Addition> {
    if assets == [] then [] else AssetsLog(assets[..|assets| - 1]) + AssetAdditions(assets[|assets| - 1])
  }

  function ServicesLog(services: seq<ServiceRecord>): seq<Addition> {
    if services == [] then [] else ServicesLog(services[..|services| - 1]) + ServiceAdditions(services[|services| - 1])
  }

  function StacksLog(stacks: seq<Stack>): seq<Addition> {
    if stacks == [] then [] else StacksLog(stacks[..|stacks| - 1]) + StackAdditions(stacks[|stacks| - 1])
  }

  function FindingsLog(services: seq<ServiceRecord>, groups: seq<Deduped>): seq<Addition> {
    if groups == [] then []
    else FindingsLog(services, groups[..|groups| - 1]) + FindingAdditions(services, groups[|groups| - 1])
  }

  function AssetsEdges(target: string, assets: seq<AssetRecord>): set<Edge> {
    set i, e | 0 <= i < |assets| && e in AssetEdges(target, assets[i]) :: e
  }

  function ServicesEdges(target: string, services: seq<ServiceRecord>): set<Edge> {
    set i, e | 0 <= i < |services| && e in ServiceEdges(target, services[i]) :: e
  }

  function StacksEdges(target: string, stacks: seq<Stack>): set<Edge> {
    set i, e | 0 <= i < |stacks| && e in StackEdges(target, stacks[i]) :: e
  }

  function FindingsEdges(services: seq<ServiceRecord>, groups: seq<Deduped>): set<Edge> {
    set i, e | 0 <= i < |groups| && e in FindingEdges(services, groups[i]) :: e
  }

  function SurfaceLog(result: ScanResult): seq<Addition> {
    AssetsLog(result.assets) + ServicesLog(result.services) + StacksLog(result.stacks)
  }

  function SurfaceEdges(target: string, result: ScanResult): set<Edge> {
    AssetsEdges(target, result.assets) + ServicesEdges(target, result.services) + StacksEdges(target, result.stacks)
  }

  /** Every node the scan calls for, in the order they are added. */
  function GraphLog(result: ScanResult, groups: seq<Deduped>): seq<Addition> {
    [Addition(NodeId("domain", result.target), Domain, result.target, 0.0)] + SurfaceLog(result)
      + FindingsLog(result.services, groups)
  }

  /** Every edge the scan calls for: an edge is there exactly if some part of the scan contributes it. */
  function GraphEdges(result: ScanResult, groups: seq<Deduped>): set<Edge> {
    SurfaceEdges(NodeId("domain", result.target), result) + FindingsEdges(result.services, groups)
  }

  // ----- the same, in terms of the scan's fields -----

  /** Capital letters become small ones; everything else stays. */
  ghost function LowerText(s: string): string {
    if s == [] then []
    else [if 'A' <= s[0] <= 'Z' then ('a' as int + (s[0] as int - 'A' as int)) as char else s[0]] + LowerText(s[1..])
  }

  ghost function Ident(prefix: string, value: string): string {
    prefix + ":" + LowerText(value)
  }

  ghost function Caption(name: string, version: Option<string>): string {
    match version
    case None => name
    case Some(v) => name + "/" + v
  }

  /** The digits right behind the last colon, up to the next other character. */
  ghost predicate IsPortText(url: string, port: string) {
    exists i, k :: IsPortAt(url, port, i, k)
  }

  ghost predicate IsPortAt(url: string, port: string, i: int, k: int) {
    && 0 <= i < i + 1 < k <= |url| && url[i] == ':' && ':' !in url[i + 1..] && url[i + 1..k] == port
    && (forall j :: i < j < k ==> '0' <= url[j] <= '9') && (k < |url| ==> !('0' <= url[k] <= '9'))
  }

  /** Paths, parameters, URLs and API endpoints are all endpoints. */
  ghost predicate IsAssetNode(a: AssetRecord, id: string, kind: Kind) {
    && (a.assetType.Subdomain? ==> id == Ident("subdomain", a.url) && kind == Kind.Subdomain)
    && (a.assetType.Ip? ==> id == Ident("ip", a.url) && kind == Kind.Ip)
    && (a.assetType.Service? ==> id == Ident("service", a.url) && kind == Kind.Service)
    && (a.assetType.Path? || a.assetType.Parameter? || a.assetType.Url? || a.assetType.ApiEndpoint? ==>
          id == Ident("endpoint", a.url) && kind == Endpoint)
  }

  ghost predicate AssetAdds(a: AssetRecord, n: Addition) {
    || (IsAssetNode(a, n.id, n.kind) && n.caption == a.url && n.risk == 0.0)
    || exists port :: IsPortText(a.url, port)
         && (n == Addition(Ident("service", a.url), Kind.Service, a.url, 0.0)
             || n == Addition("port:" + port, Port, "port:" + port, 0.0))
  }

  ghost predicate AssetLinks(target: string, a: AssetRecord, e: Edge) {
    || (exists kind :: IsAssetNode(a, e.target, kind) && e.source == target && e.relation == "contains")
    || exists port :: IsPortText(a.url, port) && e == Edge(Ident("service", a.url), "port:" + port, "listens_on")
  }

  /** The node of its host, of itself, of its port, and of how exposed it is. */
  ghost predicate IsServiceNode(s: ServiceRecord, n: Addition) {
    || (exists host :: IsPlace(s.endpoint, host) && n == Addition(Ident("ip", host), Kind.Ip, host, 0.0))
    || n == Addition(Ident("service", s.endpoint), Kind.Service, s.endpoint, s.risk)
    || n == Addition("port:" + s.port, Port, s.port, 0.0)
    || (s.isPublic && n == Addition(Ident("exposure", "internet_facing"), Exposure, "internet_facing", 55.0))
    || (!s.isPublic && n == Addition(Ident("exposure", "internal_or_private"), Exposure, "internal_or_private", 10.0))
  }

  ghost predicate ServiceAdds(s: ServiceRecord, n: Addition) {
    || IsServiceNode(s, n)
    || (s.product != None && IsTechNode(Caption(s.product.value, s.version), s.confidence, n))
  }

  ghost predicate IsTechNode(caption: string, confidence: real, n: Addition) {
    n == Addition(Ident("tech", caption), Technology, caption, 10.0 * confidence)
  }

  ghost predicate IsTechOf(t: Tech, n: Addition) {
    IsTechNode(Caption(t.name, t.version), t.confidence, n)
  }

  ghost predicate ServiceLinks(target: string, s: ServiceRecord, e: Edge) {
    var service := Ident("service", s.endpoint);
    || (exists host :: IsPlace(s.endpoint, host)
          && (e == Edge(target, Ident("ip", host), "contains_host")
            || e == Edge(Ident("ip", host), service, "exposes")))
    || e == Edge(service, "port:" + s.port, "listens_on")
    || (s.isPublic && e == Edge(service, Ident("exposure", "internet_facing"), "has_exposure"))
    || (!s.isPublic && e == Edge(service, Ident("exposure", "internal_or_private"), "has_exposure"))
    || (s.product != None && e == Edge(service, Ident("tech", Caption(s.product.value, s.version)), "runs"))
  }

  ghost predicate StackAdds(s: Stack, n: Addition) {
    || n == Addition(Ident("endpoint", s.url), Endpoint, s.url, 0.0)
    || exists t :: t in s.techs && IsTechOf(t, n)
  }

  /** The edge says that the endpoint runs this technology. */
  ghost predicate RunsTech(url: string, t: Tech, e: Edge) {
    e == Edge(Ident("endpoint", url), Ident("tech", Caption(t.name, t.version)), "runs")
  }

  ghost predicate StackLinks(target: string, s: Stack, e: Edge) {
    || e == Edge(target, Ident("endpoint", s.url), "has_endpoint")
    || exists t :: t in s.techs && RunsTech(s.url, t, e)
  }

  /** The first service at this address runs this product. */
  ghost predicate IsProductAt(services: seq<ServiceRecord>, url: string, caption: string, confidence: real) {
    exists i :: IsFirstAt(services, url, i) && services[i].product != None
                && caption == Caption(services[i].product.value, services[i].version)
                && confidence == services[i].confidence
  }

  ghost predicate IsFirstAt(services: seq<ServiceRecord>, url: string, i: int) {
    0 <= i < |services| && services[i].endpoint == url && forall j :: 0 <= j < i ==> services[j].endpoint != url
  }

  /** The rule is a known vulnerability. */
  ghost predicate IsCveFinding(f: Deduped) {
    |f.ruleId| >= 4 && f.ruleId[..4] == "CVE-"
  }

  ghost predicate IsPortFinding(f: Deduped) {
    |f.url| >= 6 && f.url[..6] == "tcp://"
  }

  ghost predicate AddsProduct(services: seq<ServiceRecord>, url: string, n: Addition) {
    exists caption, confidence :: IsProductAt(services, url, caption, confidence) && IsTechNode(caption, confidence, n)
  }

  ghost predicate FindingAdds(services: seq<ServiceRecord>, f: Deduped, n: Addition) {
    || n == Addition(Ident("finding", f.key), Finding, f.name, f.risk)
    || n == Addition(Ident("endpoint", f.url), Endpoint, f.url, 0.0)
    || (IsPortFinding(f) && n == Addition(Ident("service", f.url), Kind.Service, f.url, f.risk))
    || (IsCveFinding(f) && n == Addition(Ident("cve", f.ruleId), Cve, f.ruleId, f.risk))
    || (IsCveFinding(f) && AddsProduct(services, f.url, n))
  }

  ghost predicate LinksProduct(services: seq<ServiceRecord>, f: Deduped, e: Edge) {
    exists caption, confidence :: IsProductAt(services, f.url, caption, confidence)
      && e == Edge(Ident("tech", caption), Ident("cve", f.ruleId), "affected_by")
  }

  ghost predicate FindingLinks(services: seq<ServiceRecord>, f: Deduped, e: Edge) {
    var finding := Ident("finding", f.key);
    || e == Edge(Ident("endpoint", f.url), finding, "has_finding")
    || (IsPortFinding(f) && e == Edge(Ident("service", f.url), finding, "has_finding"))
    || (IsCveFinding(f) && e == Edge(finding, Ident("cve", f.ruleId), "references"))
    || (IsCveFinding(f) && LinksProduct(services, f, e))
  }

  /** Some part of the scan calls for this node. */
  ghost predicate Adds(result: ScanResult, groups: seq<Deduped>, n: Addition) {
    || n == Addition(Ident("domain", result.target), Domain, result.target, 0.0)
    || (exists a :: a in result.assets && AssetAdds(a, n))
    || (exists s :: s in result.services && ServiceAdds(s, n))
    || (exists s :: s in result.stacks && StackAdds(s, n))
    || (exists f :: f in groups && FindingAdds(result.services, f, n))
  }

  /** Some part of the scan calls for this edge. */
  ghost predicate Links(result: ScanResult, groups: seq<Deduped>, e: Edge) {
    var target := Ident("domain", result.target);
    || (exists a :: a in result.assets && AssetLinks(target, a, e))
    || (exists s :: s in result.services && ServiceLinks(target, s, e))
    || (exists s :: s in result.stacks && StackLinks(target, s, e))
    || (exists f :: f in groups && FindingLinks(result.services, f, e))
  }

  /** The node has what was called for: the largest risk, and the kind and caption of one of the additions. */
  ghost predicate IsNodeOf(result: ScanResult, groups: seq<Deduped>, id: string, node: Node) {
    && node.id == id
    && (forall n :: Adds(result, groups, n) && n.id == id ==> n.risk <= node.risk)
    && (exists n :: Adds(result, groups, n) && n.id == id && n.risk == node.risk)
    && (exists n :: Adds(result, groups, n) && n.id == id && n.kind == node.kind && n.caption == node.caption)
  }

  ghost predicate IsGraphOf(result: ScanResult, groups: seq<Deduped>, nodes: map<string, Node>, edges: set<Edge>) {
    && (forall e :: e in edges <==> Links(result, groups, e))
    && (forall n :: Adds(result, groups, n) ==> n.id in nodes)
    && (forall id :: id in nodes ==> IsNodeOf(result, groups, id, nodes[id]))
  }

  // ----- that they are the same -----

  lemma {:induction false} LowerTextIs(s: string)
    ensures LowerText(s) == Lower(s)
  {
    if s != [] {
      LowerTextIs(s[1..]);
      assert Lower(s) == [LowerAscii(s[0])] + Lower(s[1..]);
    }
  }

  lemma IdentIs(prefix: string, value: string)
    ensures NodeId(prefix, value) == Ident(prefix, value)
  {
    LowerTextIs(value);
    hide LowerText;
  }

  lemma AllIdents()
    ensures forall prefix, value :: NodeId(prefix, value) == Ident(prefix, value)
  {
    hide NodeId, Ident;
    forall prefix: string, value: string
      ensures NodeId(prefix, value) == Ident(prefix, value)
    {
      IdentIs(prefix, value);
    }
  }

  lemma CaptionIs(name: string, version: Option<string>)
    ensures Caption(name, version) == Labelled(name, version)
  {
  }

  lemma {:induction false} LastColon(s: string)
    ensures AfterLastColon(s).None? ==> ':' !in s
    ensures AfterLastColon(s).Some? ==>
      var after := AfterLastColon(s).value;
      |after| < |s| && s[|s| - |after| - 1] == ':' && s[|s| - |after|..] == after && ':' !in after
  {
    if s != [] && s[|s| - 1] != ':' {
      var front := s[..|s| - 1];
      LastColon(front);
      assert s == front + [s[|s| - 1]];
    }
  }

  lemma {:induction false} DigitsLead(s: string)
    ensures
      var d := LeadingDigits(s);
      && d <= s && (forall i :: 0 <= i < |d| ==> '0' <= d[i] <= '9')
      && (|d| < |s| ==> !('0' <= s[|d|] <= '9'))
  {
    if s != [] && '0' <= s[0] <= '9' {
      DigitsLead(s[1..]);
      assert s == [s[0]] + s[1..];
    }
  }

  lemma PortTextIs(url: string, port: string)
    ensures IsPortText(url, port) <==> PortOf(url) == Some(port)
  {
    LastColon(url);
    if AfterLastColon(url).Some? {
      var after := AfterLastColon(url).value;
      DigitsLead(after);
      var (d, i) := (LeadingDigits(after), |url| - |after| - 1);
      hide AfterLastColon, LeadingDigits;
      assert url[i + 1..] == after;
      forall j, k | IsPortAt(url, port, j, k)
        ensures port == d != []
      {
        PortPlace(url, port, j, k, i);
        assert url[i + 1..k] == after[..k - i - 1];
        SameDigits(after, d, port);
      }
      if d != [] && port == d {
        assert url[i + 1..i + 1 + |d|] == d;
        assert IsPortAt(url, port, i, i + 1 + |d|) by {
          assert forall j :: i < j < i + 1 + |d| ==> url[j] == d[j - i - 1];
        }
      }
    } else {
      forall j, k
        ensures !IsPortAt(url, port, j, k)
      {
      }
    }
  }

  lemma NoneBehind(s: string, i: int)
    requires 0 <= i < |s| && ':' !in s[i + 1..]
    ensures forall j :: i < j < |s| ==> s[j] != ':'
  {
    forall j | i < j < |s|
      ensures s[j] != ':'
    {
      assert s[i + 1..][j - i - 1] == s[j];
    }
  }

  lemma PortPlace(url: string, port: string, j: int, k: int, i: int)
    requires IsPortAt(url, port, j, k) && 0 <= i < |url| && url[i] == ':' && ':' !in url[i + 1..]
    ensures j == i
  {
    NoneBehind(url, i);
    NoneBehind(url, j);
  }

  lemma SameDigits(s: string, d: string, e: string)
    requires d <= s && e <= s
    requires (forall i :: 0 <= i < |d| ==> '0' <= d[i] <= '9') && (|d| < |s| ==> !('0' <= s[|d|] <= '9'))
    requires (forall i :: 0 <= i < |e| ==> '0' <= e[i] <= '9') && (|e| < |s| ==> !('0' <= s[|e|] <= '9'))
    ensures d == e
  {
    assert forall i :: 0 <= i < |d| ==> s[i] == d[i];
    assert forall i :: 0 <= i < |e| ==> s[i] == e[i];
  }

  lemma AssetNodeIs(a: AssetRecord, id: string, kind: Kind)
    ensures IsAssetNode(a, id, kind)
      <==> id == NodeId(KindPrefix(GraphKind(a.assetType)), a.url) && kind == GraphKind(a.assetType)
  {
    IdentIs(KindPrefix(GraphKind(a.assetType)), a.url);
    hide NodeId, Ident;
  }

  lemma AssetAddsIs(a: AssetRecord, n: Addition)
    ensures AssetAdds(a, n) <==> n in AssetAdditions(a)
  {
    AllIdents();
    AssetNodeIs(a, n.id, n.kind);
    forall port
      ensures IsPortText(a.url, port) <==> PortOf(a.url) == Some(port)
    {
      PortTextIs(a.url, port);
    }
    hide NodeId, Ident, IsAssetNode, IsPortText, PortOf, KindPrefix, GraphKind;
    if PortOf(a.url).Some? {
      assert IsPortText(a.url, PortOf(a.url).value);
    }
  }

  lemma AssetTargets(a: AssetRecord, id: string)
    ensures (exists kind :: IsAssetNode(a, id, kind)) <==> id == NodeId(KindPrefix(GraphKind(a.assetType)), a.url)
  {
    forall kind
      ensures IsAssetNode(a, id, kind) <==>
        id == NodeId(KindPrefix(GraphKind(a.assetType)), a.url) && kind == GraphKind(a.assetType)
    {
      AssetNodeIs(a, id, kind);
    }
    hide NodeId, IsAssetNode, KindPrefix, GraphKind;
    assert id == NodeId(KindPrefix(GraphKind(a.assetType)), a.url) ==> IsAssetNode(a, id, GraphKind(a.assetType));
  }

  /** The port of an address is one text, if it has one. */
  lemma OnePort(url: string)
    ensures PortOf(url).Some? ==> IsPortText(url, PortOf(url).value)
    ensures forall port :: IsPortText(url, port) ==> PortOf(url) == Some(port)
  {
    hide IsPortText, PortOf;
    forall port | IsPortText(url, port)
      ensures PortOf(url) == Some(port)
    {
      PortTextIs(url, port);
    }
    if PortOf(url).Some? {
      PortTextIs(url, PortOf(url).value);
    }
  }

  lemma AssetLinksIs(target: string, a: AssetRecord, e: Edge)
    ensures AssetLinks(target, a, e) <==> e in AssetEdges(target, a)
  {
    IdentIs("service", a.url);
    AssetTargets(a, e.target);
    OnePort(a.url);
    hide NodeId, Ident, IsAssetNode, IsPortText, PortOf, KindPrefix, GraphKind;
    assert (exists kind :: IsAssetNode(a, e.target, kind) && e.source == target && e.relation == "contains") <==>
      e == Edge(target, NodeId(KindPrefix(GraphKind(a.assetType)), a.url), "contains");
  }

  lemma HostLabelIs(s: ServiceRecord, host: string)
    ensures IsPlace(s.endpoint, host) <==> HostLabel(s) == host
  {
    PlaceIs(s.endpoint, host);
  }

  lemma ServiceIdents(s: ServiceRecord)
    ensures NodeId("ip", HostLabel(s)) == Ident("ip", HostLabel(s))
    ensures NodeId("service", s.endpoint) == Ident("service", s.endpoint)
    ensures NodeId("exposure", ExposureLabel(s)) == Ident("exposure", ExposureLabel(s))
    ensures s.product.Some? ==>
      NodeId("tech", Labelled(s.product.value, s.version)) == Ident("tech", Caption(s.product.value, s.version))
  {
    hide NodeId, Ident, HostLabel, ExposureLabel;
    IdentIs("ip", HostLabel(s));
    IdentIs("service", s.endpoint);
    IdentIs("exposure", ExposureLabel(s));
    if s.product.Some? {
      IdentIs("tech", Labelled(s.product.value, s.version));
    }
  }

  /** The host is the one place of the service. */
  lemma OneHost(s: ServiceRecord)
    ensures IsPlace(s.endpoint, HostLabel(s)) && forall host :: IsPlace(s.endpoint, host) ==> host == HostLabel(s)
  {
    hide IsPlace, HostLabel;
    HostLabelIs(s, HostLabel(s));
    forall host | IsPlace(s.endpoint, host)
      ensures host == HostLabel(s)
    {
      HostLabelIs(s, host);
    }
  }

  /** The four nodes of a service, without its product. */
  ghost function ServiceNodes(s: ServiceRecord): seq<Addition> {
    [Addition(NodeId("ip", HostLabel(s)), Kind.Ip, HostLabel(s), 0.0),
     Addition(NodeId("service", s.endpoint), Kind.Service, s.endpoint, s.risk),
     Addition("port:" + s.port, Port, s.port, 0.0),
     Addition(NodeId("exposure", ExposureLabel(s)), Exposure, ExposureLabel(s), if s.isPublic then 55.0 else 10.0)]
  }

  lemma ServiceNodesAre(s: ServiceRecord, n: Addition)
    ensures n in ServiceNodes(s) <==> IsServiceNode(s, n)
  {
    ServiceIdents(s);
    OneHost(s);
    hide NodeId, Ident, IsPlace, HostLabel;
    assert (exists host :: IsPlace(s.endpoint, host) && n == Addition(Ident("ip", host), Kind.Ip, host, 0.0)) <==>
      n == Addition(NodeId("ip", HostLabel(s)), Kind.Ip, HostLabel(s), 0.0);
  }

  lemma InSum<T>(a: seq<T>, b: seq<T>, x: T)
    ensures x in a + b <==> x in a || x in b
  {
  }

  lemma ServiceAddsIs(s: ServiceRecord, n: Addition)
    ensures ServiceAdds(s, n) <==> n in ServiceAdditions(s)
  {
    ServiceNodesAre(s, n);
    var product := if s.product.Some? then [TechAddition(Labelled(s.product.value, s.version), s.confidence)] else [];
    assert ServiceAdditions(s) == ServiceNodes(s) + product;
    InSum(ServiceNodes(s), product, n);
    assert n in product <==> s.product.Some? && IsTechNode(Caption(s.product.value, s.version), s.confidence, n) by {
      if s.product.Some? {
        ProductNodeIs(s, n);
      }
      hide TechAddition, IsTechNode, Caption, Labelled;
    }
    hide ServiceAdditions, ServiceNodes, TechAddition, IsTechNode, IsServiceNode, Caption, Labelled;
  }

  lemma ProductNodeIs(s: ServiceRecord, n: Addition)
    requires s.product.Some?
    ensures IsTechNode(Caption(s.product.value, s.version), s.confidence, n) <==>
      n == TechAddition(Labelled(s.product.value, s.version), s.confidence)
  {
    IdentIs("tech", Labelled(s.product.value, s.version));
    hide NodeId, Ident;
  }

  lemma ServiceLinksIs(target: string, s: ServiceRecord, e: Edge)
    ensures ServiceLinks(target, s, e) <==> e in ServiceEdges(target, s)
  {
    ServiceIdents(s);
    OneHost(s);
    hide NodeId, Ident, IsPlace, HostLabel, Labelled, Caption;
    var (host, service) := (NodeId("ip", HostLabel(s)), NodeId("service", s.endpoint));
    var product :=
      if s.product.Some? then {Edge(service, NodeId("tech", Labelled(s.product.value, s.version)), "runs")} else {};
    assert e in ServiceEdges(target, s) <==>
      || e == Edge(target, host, "contains_host") || e == Edge(host, service, "exposes")
      || e == Edge(service, "port:" + s.port, "listens_on")
      || e == Edge(service, NodeId("exposure", ExposureLabel(s)), "has_exposure") || e in product;
  }

  lemma TechIs(t: Tech, n: Addition)
    ensures IsTechOf(t, n) <==> n == TechAddition(Labelled(t.name, t.version), t.confidence)
  {
    IdentIs("tech", Caption(t.name, t.version));
    hide NodeId, Ident;
  }

  lemma {:induction false} TechAddsIs(techs: seq<Tech>, n: Addition)
    ensures n in TechAdditions(techs) <==> exists t :: t in techs && IsTechOf(t, n)
  {
    if techs != [] {
      var (front, last) := (techs[..|techs| - 1], techs[|techs| - 1]);
      TechAddsIs(front, n);
      TechIs(last, n);
      LastOf(techs);
      hide IsTechOf, TechAddition, Labelled;
      InSum(TechAdditions(front), [TechAddition(Labelled(last.name, last.version), last.confidence)], n);
    }
  }

  lemma StackAddsIs(s: Stack, n: Addition)
    ensures StackAdds(s, n) <==> n in StackAdditions(s)
  {
    IdentIs("endpoint", s.url);
    TechAddsIs(s.techs, n);
    hide NodeId, Ident, IsTechNode, IsTechOf, TechAdditions, Caption;
  }

  lemma RunsIs(url: string, t: Tech, e: Edge)
    ensures RunsTech(url, t, e) <==>
      e == Edge(NodeId("endpoint", url), NodeId("tech", Labelled(t.name, t.version)), "runs")
  {
    IdentIs("endpoint", url);
    IdentIs("tech", Caption(t.name, t.version));
    hide NodeId, Ident;
  }

  lemma TechEdgesAre(url: string, techs: seq<Tech>, e: Edge)
    ensures e in TechEdges(url, techs) <==> exists t :: t in techs && RunsTech(url, t, e)
  {
    hide NodeId, Ident, Caption, Labelled, RunsTech;
    if e in TechEdges(url, techs) {
      var i :| 0 <= i < |techs|
        && e == Edge(NodeId("endpoint", url), NodeId("tech", Labelled(techs[i].name, techs[i].version)), "runs");
      RunsIs(url, techs[i], e);
      assert techs[i] in techs;
    }
    if t :| t in techs && RunsTech(url, t, e) {
      var i :| 0 <= i < |techs| && techs[i] == t;
      RunsIs(url, techs[i], e);
    }
  }

  lemma StackLinksIs(target: string, s: Stack, e: Edge)
    ensures StackLinks(target, s, e) <==> e in StackEdges(target, s)
  {
    IdentIs("endpoint", s.url);
    TechEdgesAre(s.url, s.techs, e);
    hide NodeId, Ident, RunsTech, TechEdges;
  }

  lemma {:induction false} FirstAtIs(services: seq<ServiceRecord>, url: string)
    ensures ServiceAt(services, url).Some? <==> exists i :: IsFirstAt(services, url, i)
    ensures forall i :: IsFirstAt(services, url, i) ==> ServiceAt(services, url) == Some(services[i])
  {
    if services == [] {
      assert forall i :: !IsFirstAt(services, url, i);
    } else if services[0].endpoint == url {
      assert IsFirstAt(services, url, 0);
      assert forall i :: IsFirstAt(services, url, i) ==> i == 0;
    } else {
      var rest := services[1..];
      FirstAtIs(rest, url);
      forall i
        ensures IsFirstAt(services, url, i) ==> i > 0 && IsFirstAt(rest, url, i - 1) && rest[i - 1] == services[i]
        ensures IsFirstAt(rest, url, i) ==> IsFirstAt(services, url, i + 1)
      {
        FirstAtShifts(services, url, i);
      }
      hide IsFirstAt;
      if i :| IsFirstAt(rest, url, i) {
        assert IsFirstAt(services, url, i + 1);
      }
    }
  }

  lemma FirstAtShifts(services: seq<ServiceRecord>, url: string, i: int)
    requires services != [] && services[0].endpoint != url
    ensures IsFirstAt(services, url, i)
      ==> i > 0 && IsFirstAt(services[1..], url, i - 1) && services[1..][i - 1] == services[i]
    ensures IsFirstAt(services[1..], url, i) ==> IsFirstAt(services, url, i + 1)
  {
    var rest := services[1..];
    assert forall j :: 0 <= j < |rest| ==> rest[j] == services[j + 1];
    if IsFirstAt(rest, url, i) {
      forall j | 0 <= j < i + 1
        ensures services[j].endpoint != url
      {
        if j > 0 {
          assert rest[j - 1] == services[j];
        }
      }
    }
  }

  lemma ProductIs(services: seq<ServiceRecord>, url: string, caption: string, confidence: real)
    ensures IsProductAt(services, url, caption, confidence)
      <==> AffectedProduct(services, url) == Some((caption, confidence))
  {
    FirstAtIs(services, url);
    hide ServiceAt;
    if i :| IsFirstAt(services, url, i) {
      if services[i].product.Some? {
        CaptionIs(services[i].product.value, services[i].version);
      }
      assert forall j :: IsFirstAt(services, url, j) ==> j == i;
    }
    hide Caption, Labelled;
  }

  lemma OneProduct(services: seq<ServiceRecord>, url: string)
    ensures forall caption, confidence :: IsProductAt(services, url, caption, confidence) ==>
      AffectedProduct(services, url) == Some((caption, confidence))
    ensures AffectedProduct(services, url).Some? ==>
      var (caption, confidence) := AffectedProduct(services, url).value;
      IsProductAt(services, url, caption, confidence)
  {
    hide IsProductAt, AffectedProduct;
    forall caption, confidence | IsProductAt(services, url, caption, confidence)
      ensures AffectedProduct(services, url) == Some((caption, confidence))
    {
      ProductIs(services, url, caption, confidence);
    }
    if AffectedProduct(services, url).Some? {
      var (caption, confidence) := AffectedProduct(services, url).value;
      ProductIs(services, url, caption, confidence);
    }
  }

  lemma FindingIdents(f: Deduped)
    ensures NodeId("finding", f.key) == Ident("finding", f.key) && NodeId("endpoint", f.url) == Ident("endpoint", f.url)
    ensures NodeId("service", f.url) == Ident("service", f.url) && NodeId("cve", f.ruleId) == Ident("cve", f.ruleId)
    ensures IsCveFinding(f) <==> "CVE-" <= f.ruleId
    ensures IsPortFinding(f) <==> "tcp://" <= f.url
  {
    IdentIs("finding", f.key);
    IdentIs("endpoint", f.url);
    IdentIs("service", f.url);
    IdentIs("cve", f.ruleId);
    hide NodeId, Ident;
  }

  lemma AddsProductIs(services: seq<ServiceRecord>, url: string, n: Addition)
    ensures AddsProduct(services, url, n) <==>
      AffectedProduct(services, url).Some? &&
      n == TechAddition(AffectedProduct(services, url).value.0, AffectedProduct(services, url).value.1)
  {
    OneProduct(services, url);
    forall caption, confidence
      ensures IsTechNode(caption, confidence, n) <==> n == TechAddition(caption, confidence)
    {
      IdentIs("tech", caption);
      hide NodeId, Ident;
    }
    hide IsProductAt, AffectedProduct, IsTechNode, TechAddition;
  }

  lemma LinksProductIs(services: seq<ServiceRecord>, f: Deduped, e: Edge)
    ensures LinksProduct(services, f, e) <==>
      AffectedProduct(services, f.url).Some? &&
      e == Edge(NodeId("tech", AffectedProduct(services, f.url).value.0), NodeId("cve", f.ruleId), "affected_by")
  {
    OneProduct(services, f.url);
    AllIdents();
    hide IsProductAt, AffectedProduct, NodeId, Ident;
  }

  lemma FindingAddsIs(services: seq<ServiceRecord>, f: Deduped, n: Addition)
    ensures FindingAdds(services, f, n) <==> n in FindingAdditions(services, f)
  {
    FindingIdents(f);
    AddsProductIs(services, f.url, n);
    hide NodeId, Ident, AddsProduct, AffectedProduct, TechAddition, IsCveFinding, IsPortFinding;
  }

  lemma FindingLinksIs(services: seq<ServiceRecord>, f: Deduped, e: Edge)
    ensures FindingLinks(services, f, e) <==> e in FindingEdges(services, f)
  {
    FindingIdents(f);
    LinksProductIs(services, f, e);
    hide NodeId, Ident, LinksProduct, AffectedProduct, IsCveFinding, IsPortFinding;
  }

  lemma LastOf<T>(xs: seq<T>)
    requires xs != []
    ensures forall x :: x in xs <==> x in xs[..|xs| - 1] || x == xs[|xs| - 1]
  {
    assert xs == xs[..|xs| - 1] + [xs[|xs| - 1]];
  }

  lemma {:induction false} AssetsLogIs(assets: seq<AssetRecord>, n: Addition)
    ensures n in AssetsLog(assets) <==> exists a :: a in assets && AssetAdds(a, n)
  {
    if assets != [] {
      var (front, last) := (assets[..|assets| - 1], assets[|assets| - 1]);
      AssetsLogIs(front, n);
      AssetAddsIs(last, n);
      hide AssetAdds, AssetAdditions;
      LastOf(assets);
      InSum(AssetsLog(front), AssetAdditions(last), n);
    }
  }

  lemma {:induction false} ServicesLogIs(services: seq<ServiceRecord>, n: Addition)
    ensures n in ServicesLog(services) <==> exists s :: s in services && ServiceAdds(s, n)
  {
    if services != [] {
      var (front, last) := (services[..|services| - 1], services[|services| - 1]);
      ServicesLogIs(front, n);
      ServiceAddsIs(last, n);
      hide ServiceAdds, ServiceAdditions;
      LastOf(services);
      InSum(ServicesLog(front), ServiceAdditions(last), n);
    }
  }

  lemma {:induction false} StacksLogIs(stacks: seq<Stack>, n: Addition)
    ensures n in StacksLog(stacks) <==> exists s :: s in stacks && StackAdds(s, n)
  {
    if stacks != [] {
      var (front, last) := (stacks[..|stacks| - 1], stacks[|stacks| - 1]);
      StacksLogIs(front, n);
      StackAddsIs(last, n);
      hide StackAdds, StackAdditions;
      LastOf(stacks);
      InSum(StacksLog(front), StackAdditions(last), n);
    }
  }

  lemma {:induction false} FindingsLogIs(services: seq<ServiceRecord>, groups: seq<Deduped>, n: Addition)
    ensures n in FindingsLog(services, groups) <==> exists f :: f in groups && FindingAdds(services, f, n)
    decreases |groups|
  {
    if groups != [] {
      var (front, last) := (groups[..|groups| - 1], groups[|groups| - 1]);
      FindingsLogIs(services, front, n);
      FindingAddsIs(services, last, n);
      hide FindingAdds, FindingAdditions;
      LastOf(groups);
      InSum(FindingsLog(services, front), FindingAdditions(services, last), n);
    }
  }

  /** A node is in the log exactly if some part of the scan calls for it. */
  lemma AddsIs(result: ScanResult, groups: seq<Deduped>, n: Addition)
    ensures Adds(result, groups, n) <==> n in GraphLog(result, groups)
  {
    IdentIs("domain", result.target);
    AssetsLogIs(result.assets, n);
    ServicesLogIs(result.services, n);
    StacksLogIs(result.stacks, n);
    FindingsLogIs(result.services, groups, n);
    hide AssetsLog, ServicesLog, StacksLog, FindingsLog, AssetAdds, ServiceAdds, StackAdds, FindingAdds, NodeId, Ident;
    InSum(AssetsLog(result.assets) + ServicesLog(result.services), StacksLog(result.stacks), n);
    InSum(AssetsLog(result.assets), ServicesLog(result.services), n);
    var domain := [Addition(NodeId("domain", result.target), Domain, result.target, 0.0)];
    InSum(domain, SurfaceLog(result), n);
    InSum(domain + SurfaceLog(result), FindingsLog(result.services, groups), n);
  }

  lemma AssetsEdgesAre(target: string, assets: seq<AssetRecord>, e: Edge)
    ensures e in AssetsEdges(target, assets) <==> exists a :: a in assets && AssetLinks(target, a, e)
  {
    hide AssetLinks, AssetEdges;
    if e in AssetsEdges(target, assets) {
      var i :| 0 <= i < |assets| && e in AssetEdges(target, assets[i]);
      AssetLinksIs(target, assets[i], e);
      assert assets[i] in assets;
    }
    if a :| a in assets && AssetLinks(target, a, e) {
      AssetLinksIs(target, a, e);
      var i :| 0 <= i < |assets| && assets[i] == a;
      assert e in AssetEdges(target, assets[i]);
    }
  }

  lemma ServicesEdgesAre(target: string, services: seq<ServiceRecord>, e: Edge)
    ensures e in ServicesEdges(target, services) <==> exists s :: s in services && ServiceLinks(target, s, e)
  {
    hide ServiceLinks, ServiceEdges;
    if e in ServicesEdges(target, services) {
      var i :| 0 <= i < |services| && e in ServiceEdges(target, services[i]);
      ServiceLinksIs(target, services[i], e);
      assert services[i] in services;
    }
    if s :| s in services && ServiceLinks(target, s, e) {
      ServiceLinksIs(target, s, e);
      var i :| 0 <= i < |services| && services[i] == s;
      assert e in ServiceEdges(target, services[i]);
    }
  }

  lemma StacksEdgesAre(target: string, stacks: seq<Stack>, e: Edge)
    ensures e in StacksEdges(target, stacks) <==> exists s :: s in stacks && StackLinks(target, s, e)
  {
    hide StackLinks, StackEdges;
    if e in StacksEdges(target, stacks) {
      var i :| 0 <= i < |stacks| && e in StackEdges(target, stacks[i]);
      StackLinksIs(target, stacks[i], e);
      assert stacks[i] in stacks;
    }
    if s :| s in stacks && StackLinks(target, s, e) {
      StackLinksIs(target, s, e);
      var i :| 0 <= i < |stacks| && stacks[i] == s;
      assert e in StackEdges(target, stacks[i]);
    }
  }

  lemma FindingsEdgesAre(services: seq<ServiceRecord>, groups: seq<Deduped>, e: Edge)
    ensures e in FindingsEdges(services, groups) <==> exists f :: f in groups && FindingLinks(services, f, e)
  {
    hide FindingLinks, FindingEdges;
    if e in FindingsEdges(services, groups) {
      var i :| 0 <= i < |groups| && e in FindingEdges(services, groups[i]);
      FindingLinksIs(services, groups[i], e);
      assert groups[i] in groups;
    }
    if f :| f in groups && FindingLinks(services, f, e) {
      FindingLinksIs(services, f, e);
      var i :| 0 <= i < |groups| && groups[i] == f;
      assert e in FindingEdges(services, groups[i]);
    }
  }

  /** An edge is in the graph exactly if some part of the scan calls for it. */
  lemma LinksIs(result: ScanResult, groups: seq<Deduped>, e: Edge)
    ensures Links(result, groups, e) <==> e in GraphEdges(result, groups)
  {
    var target := NodeId("domain", result.target);
    IdentIs("domain", result.target);
    AssetsEdgesAre(target, result.assets, e);
    ServicesEdgesAre(target, result.services, e);
    StacksEdgesAre(target, result.stacks, e);
    FindingsEdgesAre(result.services, groups, e);
    hide AssetsEdges, ServicesEdges, StacksEdges, FindingsEdges, AssetLinks, ServiceLinks, StackLinks, FindingLinks;
    hide NodeId, Ident;
  }

  lemma NodeOfIs(result: ScanResult, groups: seq<Deduped>, id: string)
    ensures id in NodesOf(GraphLog(result, groups)) <==> exists n :: Adds(result, groups, n) && n.id == id
    ensures id in NodesOf(GraphLog(result, groups))
      ==> IsNodeOf(result, groups, id, NodesOf(GraphLog(result, groups))[id])
  {
    var log := GraphLog(result, groups);
    NodeFacts(log, id);
    hide GraphLog, NodesOf, Adds;
    forall n
      ensures Adds(result, groups, n) <==> n in log
    {
      AddsIs(result, groups, n);
    }
    if n :| Adds(result, groups, n) && n.id == id {
      var i :| 0 <= i < |log| && log[i] == n;
      assert Names(log, i, id);
    }
    if id in NodesOf(log) {
      var node := NodesOf(log)[id];
      forall n | Adds(result, groups, n) && n.id == id
        ensures n.risk <= node.risk
      {
        var i :| 0 <= i < |log| && log[i] == n;
        assert Names(log, i, id);
      }
      var j :| Names(log, j, id) && log[j].risk == node.risk;
      assert Adds(result, groups, log[j]);
      var k :| Names(log, k, id) && log[k].kind == node.kind && log[k].caption == node.caption;
      assert Adds(result, groups, log[k]);
    }
  }

  lemma GraphIs(result: ScanResult, groups: seq<Deduped>)
    ensures IsGraphOf(result, groups, NodesOf(GraphLog(result, groups)), GraphEdges(result, groups))
  {
    hide GraphLog, GraphEdges, NodesOf, Adds, Links, IsNodeOf;
    forall e
      ensures e in GraphEdges(result, groups) <==> Links(result, groups, e)
    {
      LinksIs(result, groups, e);
    }
    forall n | Adds(result, groups, n)
      ensures n.id in NodesOf(GraphLog(result, groups))
    {
      NodeOfIs(result, groups, n.id);
    }
    forall id | id in NodesOf(GraphLog(result, groups))
      ensures IsNodeOf(result, groups, id, NodesOf(GraphLog(result, groups))[id])
    {
      NodeOfIs(result, groups, id);
    }
  }

  // ----- building it -----

  /** The builder has been given these additions and edges, and nothing else. */
  twostate predicate Gained(b: GraphBuilder, log: seq<Addition>, edges: set<Edge>)
    reads b
  {
    b.log == old(b.log) + log && b.edges == old(b.edges) + edges && old(b.nodes).Keys <= b.nodes.Keys
  }

  method AddAsset(b: GraphBuilder, target: string, a: AssetRecord)
    requires b.Valid() && target in b.nodes
    modifies b
    ensures b.Valid() && Gained(b, AssetAdditions(a), AssetEdges(target, a))
  {
    hide NodesOf, Added, Closed, NodeId, PortOf, KindPrefix, GraphKind, GraphBuilder.Valid;
    var id := NodeId(KindPrefix(GraphKind(a.assetType)), a.url);
    b.AddNode(id, GraphKind(a.assetType), a.url, 0.0);
    b.AddEdge(target, id, "contains");
    match PortOf(a.url) {
      case None =>
      case Some(port) =>
        var (serviceId, portId) := (NodeId("service", a.url), "port:" + port);
        b.AddNode(serviceId, Kind.Service, a.url, 0.0);
        b.AddNode(portId, Port, portId, 0.0);
        b.AddEdge(serviceId, portId, "listens_on");
    }
  }

  /** The nodes of a service: its host, itself, its port and its exposure. */
  method AddServiceNodes(b: GraphBuilder, s: ServiceRecord, hostId: string, serviceId: string, portId: string,
      exposureId: string)
    requires b.Valid()
    modifies b
    ensures b.Valid() && Gained(b,
      [Addition(hostId, Kind.Ip, HostLabel(s), 0.0), Addition(serviceId, Kind.Service, s.endpoint, s.risk),
       Addition(portId, Port, s.port, 0.0),
       Addition(exposureId, Exposure, ExposureLabel(s), if s.isPublic then 55.0 else 10.0)], {})
    ensures hostId in b.nodes && serviceId in b.nodes && portId in b.nodes && exposureId in b.nodes
  {
    hide HostLabel, ExposureLabel, GraphBuilder.Valid;
    b.AddNode(hostId, Kind.Ip, HostLabel(s), 0.0);
    b.AddNode(serviceId, Kind.Service, s.endpoint, s.risk);
    b.AddNode(portId, Port, s.port, 0.0);
    b.AddNode(exposureId, Exposure, ExposureLabel(s), if s.isPublic then 55.0 else 10.0);
  }

  method AddProduct(b: GraphBuilder, serviceId: string, caption: string, confidence: real)
    requires b.Valid() && serviceId in b.nodes
    modifies b
    ensures b.Valid()
      && Gained(b, [TechAddition(caption, confidence)], {Edge(serviceId, NodeId("tech", caption), "runs")})
  {
    hide NodeId, GraphBuilder.Valid;
    b.AddNode(NodeId("tech", caption), Technology, caption, confidence * 10.0);
    b.AddEdge(serviceId, NodeId("tech", caption), "runs");
  }

  method AddService(b: GraphBuilder, target: string, s: ServiceRecord)
    requires b.Valid() && target in b.nodes
    modifies b
    ensures b.Valid() && Gained(b, ServiceAdditions(s), ServiceEdges(target, s))
  {
    hide NodesOf, Added, Closed, NodeId, HostLabel, ExposureLabel, Labelled, TechAddition, GraphBuilder.Valid;
    var (hostId, serviceId) := (NodeId("ip", HostLabel(s)), NodeId("service", s.endpoint));
    var (portId, exposureId) := ("port:" + s.port, NodeId("exposure", ExposureLabel(s)));
    AddServiceNodes(b, s, hostId, serviceId, portId, exposureId);
    b.AddEdge(target, hostId, "contains_host");
    b.AddEdge(hostId, serviceId, "exposes");
    b.AddEdge(serviceId, portId, "listens_on");
    b.AddEdge(serviceId, exposureId, "has_exposure");
    if s.product.Some? {
      AddProduct(b, serviceId, Labelled(s.product.value, s.version), s.confidence);
    }
  }

  method AddStack(b: GraphBuilder, target: string, s: Stack)
    requires b.Valid() && target in b.nodes
    modifies b
    ensures b.Valid() && Gained(b, StackAdditions(s), StackEdges(target, s))
  {
    hide NodesOf, Added, Closed, NodeId, Labelled, GraphBuilder.Valid;
    var endpointId := NodeId("endpoint", s.url);
    b.AddNode(endpointId, Endpoint, s.url, 0.0);
    b.AddEdge(target, endpointId, "has_endpoint");
    ghost var (log, edges) := (b.log, b.edges);
    for i := 0 to |s.techs|
      invariant b.Valid() && endpointId in b.nodes && old(b.nodes).Keys <= b.nodes.Keys
      invariant b.log == log + TechAdditions(s.techs[..i]) && b.edges == edges + TechEdges(s.url, s.techs[..i])
    {
      assert s.techs[..i + 1] == s.techs[..i] + [s.techs[i]];
      var caption := Labelled(s.techs[i].name, s.techs[i].version);
      b.AddNode(NodeId("tech", caption), Technology, caption, s.techs[i].confidence * 10.0);
      b.AddEdge(endpointId, NodeId("tech", caption), "runs");
      TechStep(s.url, s.techs, i);
    }
    assert s.techs[..|s.techs|] == s.techs;
  }

  lemma TechStep(url: string, techs: seq<Tech>, i: nat)
    requires i < |techs|
    ensures
      var caption := Labelled(techs[i].name, techs[i].version);
      && TechAdditions(techs[..i + 1]) == TechAdditions(techs[..i]) + [TechAddition(caption, techs[i].confidence)]
      && TechEdges(url, techs[..i + 1])
        == TechEdges(url, techs[..i]) + {Edge(NodeId("endpoint", url), NodeId("tech", caption), "runs")}
  {
    hide NodeId, Labelled;
    assert techs[..i + 1][..i] == techs[..i];
    var (before, after) := (techs[..i], techs[..i + 1]);
    assert after[i] == techs[i] && forall j :: 0 <= j < i ==> after[j] == before[j];
  }

  /** A finding about a known vulnerability: its reference, and the product it affects. */
  method AddReference(b: GraphBuilder, services: seq<ServiceRecord>, f: Deduped)
    requires b.Valid() && NodeId("finding", f.key) in b.nodes
    modifies b
    ensures b.Valid() && Gained(b, ReferenceAdditions(services, f), ReferenceEdges(services, f))
  {
    hide NodesOf, Added, Closed, NodeId, Labelled, ServiceAt, GraphBuilder.Valid;
    var cveId := NodeId("cve", f.ruleId);
    b.AddNode(cveId, Cve, f.ruleId, f.risk);
    b.AddEdge(NodeId("finding", f.key), cveId, "references");
    var service := ServiceAt(services, f.url);
    if service.Some? && service.value.product.Some? {
      var caption := Labelled(service.value.product.value, service.value.version);
      b.AddNode(NodeId("tech", caption), Technology, caption, service.value.confidence * 10.0);
      b.AddEdge(NodeId("tech", caption), cveId, "affected_by");
    }
  }

  method AddCarrier(b: GraphBuilder, f: Deduped, findingId: string)
    requires b.Valid() && findingId == NodeId("finding", f.key) && findingId in b.nodes
    modifies b
    ensures b.Valid() && Gained(b, CarrierAdditions(f), CarrierEdges(f))
  {
    hide NodesOf, Added, Closed, NodeId, GraphBuilder.Valid;
    if "tcp://" <= f.url {
      var serviceId := NodeId("service", f.url);
      b.AddNode(serviceId, Kind.Service, f.url, f.risk);
      b.AddEdge(serviceId, findingId, "has_finding");
    }
  }

  method AddFinding(b: GraphBuilder, services: seq<ServiceRecord>, f: Deduped)
    requires b.Valid()
    modifies b
    ensures b.Valid() && Gained(b, FindingAdditions(services, f), FindingEdges(services, f))
  {
    hide NodesOf, Added, Closed, NodeId, ServiceAt, CarrierAdditions, CarrierEdges, ReferenceAdditions, ReferenceEdges,
      GraphBuilder.Valid;
    var findingId := NodeId("finding", f.key);
    b.AddNode(findingId, Finding, f.name, f.risk);
    var endpointId := NodeId("endpoint", f.url);
    b.AddNode(endpointId, Endpoint, f.url, 0.0);
    b.AddEdge(endpointId, findingId, "has_finding");
    AddCarrier(b, f, findingId);
    if "CVE-" <= f.ruleId {
      AddReference(b, services, f);
    }
  }

  method AddAssets(b: GraphBuilder, target: string, assets: seq<AssetRecord>)
    requires b.Valid() && target in b.nodes
    modifies b
    ensures b.Valid() && Gained(b, AssetsLog(assets), AssetsEdges(target, assets))
  {
    hide AssetAdditions, AssetEdges, GraphBuilder.Valid;
    for i := 0 to |assets|
      invariant b.Valid() && Gained(b, AssetsLog(assets[..i]), AssetsEdges(target, assets[..i]))
    {
      AddAsset(b, target, assets[i]);
      assert assets[..i + 1][..i] == assets[..i];
      AssetsEdgesStep(target, assets, i);
    }
    assert assets[..|assets|] == assets;
  }

  lemma AssetsEdgesStep(target: string, assets: seq<AssetRecord>, i: nat)
    requires i < |assets|
    ensures AssetsEdges(target, assets[..i + 1]) == AssetsEdges(target, assets[..i]) + AssetEdges(target, assets[i])
  {
    hide AssetEdges;
    assert assets[..i + 1] == assets[..i] + [assets[i]];
  }

  method AddServices(b: GraphBuilder, target: string, services: seq<ServiceRecord>)
    requires b.Valid() && target in b.nodes
    modifies b
    ensures b.Valid() && Gained(b, ServicesLog(services), ServicesEdges(target, services))
  {
    hide ServiceAdditions, ServiceEdges, GraphBuilder.Valid;
    for i := 0 to |services|
      invariant b.Valid() && Gained(b, ServicesLog(services[..i]), ServicesEdges(target, services[..i]))
    {
      AddService(b, target, services[i]);
      assert services[..i + 1][..i] == services[..i];
      ServicesEdgesStep(target, services, i);
    }
    assert services[..|services|] == services;
  }

  lemma ServicesEdgesStep(target: string, services: seq<ServiceRecord>, i: nat)
    requires i < |services|
    ensures ServicesEdges(target, services[..i + 1])
      == ServicesEdges(target, services[..i]) + ServiceEdges(target, services[i])
  {
    hide ServiceEdges;
    assert services[..i + 1] == services[..i] + [services[i]];
  }

  method AddStacks(b: GraphBuilder, target: string, stacks: seq<Stack>)
    requires b.Valid() && target in b.nodes
    modifies b
    ensures b.Valid() && Gained(b, StacksLog(stacks), StacksEdges(target, stacks))
  {
    hide StackAdditions, StackEdges, GraphBuilder.Valid;
    for i := 0 to |stacks|
      invariant b.Valid() && Gained(b, StacksLog(stacks[..i]), StacksEdges(target, stacks[..i]))
    {
      AddStack(b, target, stacks[i]);
      assert stacks[..i + 1][..i] == stacks[..i];
      StacksEdgesStep(target, stacks, i);
    }
    assert stacks[..|stacks|] == stacks;
  }

  lemma StacksEdgesStep(target: string, stacks: seq<Stack>, i: nat)
    requires i < |stacks|
    ensures StacksEdges(target, stacks[..i + 1]) == StacksEdges(target, stacks[..i]) + StackEdges(target, stacks[i])
  {
    hide StackEdges;
    assert stacks[..i + 1] == stacks[..i] + [stacks[i]];
  }

  method AddFindings(b: GraphBuilder, services: seq<ServiceRecord>, groups: seq<Deduped>)
    requires b.Valid()
    modifies b
    ensures b.Valid() && Gained(b, FindingsLog(services, groups), FindingsEdges(services, groups))
  {
    hide FindingAdditions, FindingEdges, GraphBuilder.Valid;
    for i := 0 to |groups|
      invariant b.Valid() && Gained(b, FindingsLog(services, groups[..i]), FindingsEdges(services, groups[..i]))
    {
      AddFinding(b, services, groups[i]);
      assert groups[..i + 1][..i] == groups[..i];
      FindingsEdgesStep(services, groups, i);
    }
    assert groups[..|groups|] == groups;
  }

  lemma FindingsEdgesStep(services: seq<ServiceRecord>, groups: seq<Deduped>, i: nat)
    requires i < |groups|
    ensures FindingsEdges(services, groups[..i + 1])
      == FindingsEdges(services, groups[..i]) + FindingEdges(services, groups[i])
  {
    hide FindingEdges;
    assert groups[..i + 1] == groups[..i] + [groups[i]];
  }

  /** Everything but the findings. */
  method AddSurface(b: GraphBuilder, target: string, result: ScanResult)
    requires b.Valid() && target in b.nodes
    modifies b
    ensures b.Valid() && Gained(b, SurfaceLog(result), SurfaceEdges(target, result))
  {
    hide AssetsLog, ServicesLog, StacksLog, AssetsEdges, ServicesEdges, StacksEdges, GraphBuilder.Valid;
    AddAssets(b, target, result.assets);
    AddServices(b, target, result.services);
    AddStacks(b, target, result.stacks);
  }

  lemma RootAdded(target: string, caption: string, nodes: map<string, Node>)
    requires nodes == Added(map[], Addition(target, Domain, caption, 0.0))
    ensures target in nodes
  {
  }

  /**
   The graph of a scan: exactly the edges and node additions its parts call for. No edge leads to a missing
   node; with `NodeFacts`, each node's risk is the maximum the log holds for its id.
   */
  method BuildAssetGraph(result: ScanResult)
    returns (nodes: map<string, Node>, edges: set<Edge>, groups: seq<Deduped>)
    ensures IsDeduplicated(result.vulnerabilities, groups) && IsGraphOf(result, groups, nodes, edges)
    ensures Covers(result.vulnerabilities, groups) && IsSorted(groups)
    ensures nodes == NodesOf(GraphLog(result, groups)) && edges == GraphEdges(result, groups)
    ensures Closed(nodes, edges)
  {
    var b := new GraphBuilder();
    var target := NodeId("domain", result.target);
    hide NodesOf, Closed, Covers, IsSorted, NodeId, Added, GraphBuilder.Valid, SurfaceLog, SurfaceEdges, FindingsLog,
      FindingsEdges, IsGraphOf, IsDeduplicated;
    b.AddNode(target, Domain, result.target, 0.0);
    assert b.log == [Addition(target, Domain, result.target, 0.0)];
    RootAdded(target, result.target, b.nodes);
    AddSurface(b, target, result);
    groups := DeduplicateFindings(result.vulnerabilities);
    AddFindings(b, result.services, groups);
    b.ValidMeans();
    assert b.log == GraphLog(result, groups) && b.edges == GraphEdges(result, groups);
    GraphIs(result, groups);
    nodes, edges := b.nodes, b.edges;
  }

  // ----- what an id says -----

  /** The id begins with the name of the kind. */
  predicate NamesKind(a: Addition) {
    KindPrefix(a.kind) + ":" <= a.id
  }

  /** No name of a kind is the start of another with the colon behind it. */
  lemma IdTellsKind(id: string, k: Kind, l: Kind)
    requires KindPrefix(k) + ":" <= id && KindPrefix(l) + ":" <= id
    ensures k == l
  {
    assert id[0] == KindPrefix(k)[0] == KindPrefix(l)[0];
    assert id[1] == (KindPrefix(k) + ":")[1] == (KindPrefix(l) + ":")[1];
  }

  lemma PrefixOfId(k: Kind, value: string)
    ensures KindPrefix(k) + ":" <= NodeId(KindPrefix(k), value)
  {
  }

  /** The id begins with the name of the kind, and the node is no finding's. */
  predicate IsPlain(a: Addition) {
    NamesKind(a) && a.kind != Finding
  }

  predicate AllPlain(log: seq<Addition>) {
    forall i :: 0 <= i < |log| ==> IsPlain(log[i])
  }

  lemma PlainAdditions(k: Kind, value: string, caption: string, risk: real)
    requires k != Finding
    ensures IsPlain(Addition(NodeId(KindPrefix(k), value), k, caption, risk))
  {
    PrefixOfId(k, value);
  }

  lemma TechIsPlain(caption: string, confidence: real)
    ensures IsPlain(TechAddition(caption, confidence))
  {
    PlainAdditions(Technology, caption, caption, confidence * 10.0);
  }

  lemma PortIsPlain(port: string, caption: string, risk: real)
    ensures IsPlain(Addition("port:" + port, Port, caption, risk))
  {
    assert KindPrefix(Port) + ":" == "port:";
  }

  lemma AssetIsPlain(a: AssetRecord)
    ensures AllPlain(AssetAdditions(a))
  {
    PlainAdditions(GraphKind(a.assetType), a.url, a.url, 0.0);
    PlainAdditions(Kind.Service, a.url, a.url, 0.0);
    match PortOf(a.url) {
      case None =>
      case Some(port) => PortIsPlain(port, "port:" + port, 0.0);
    }
  }

  lemma ServiceIsPlain(s: ServiceRecord)
    ensures AllPlain(ServiceAdditions(s))
  {
    PlainAdditions(Kind.Ip, HostLabel(s), HostLabel(s), 0.0);
    PlainAdditions(Kind.Service, s.endpoint, s.endpoint, s.risk);
    PortIsPlain(s.port, s.port, 0.0);
    PlainAdditions(Exposure, ExposureLabel(s), ExposureLabel(s), if s.isPublic then 55.0 else 10.0);
    if s.product.Some? {
      TechIsPlain(Labelled(s.product.value, s.version), s.confidence);
    }
    hide NodeId, IsPlain, HostLabel, ExposureLabel, Labelled, TechAddition;
  }

  lemma {:induction false} TechsArePlain(techs: seq<Tech>)
    ensures AllPlain(TechAdditions(techs))
  {
    if techs != [] {
      var last := techs[|techs| - 1];
      TechsArePlain(techs[..|techs| - 1]);
      TechIsPlain(Labelled(last.name, last.version), last.confidence);
    }
    hide IsPlain, TechAddition;
  }

  lemma StackIsPlain(s: Stack)
    ensures AllPlain(StackAdditions(s))
  {
    PlainAdditions(Endpoint, s.url, s.url, 0.0);
    TechsArePlain(s.techs);
    hide IsPlain, TechAdditions;
  }

  lemma {:induction false} AssetsArePlain(assets: seq<AssetRecord>)
    ensures AllPlain(AssetsLog(assets))
  {
    if assets != [] {
      AssetsArePlain(assets[..|assets| - 1]);
      AssetIsPlain(assets[|assets| - 1]);
    }
    hide IsPlain, AssetAdditions;
  }

  lemma {:induction false} ServicesArePlain(services: seq<ServiceRecord>)
    ensures AllPlain(ServicesLog(services))
  {
    if services != [] {
      ServicesArePlain(services[..|services| - 1]);
      ServiceIsPlain(services[|services| - 1]);
    }
    hide IsPlain, ServiceAdditions;
  }

  lemma {:induction false} StacksArePlain(stacks: seq<Stack>)
    ensures AllPlain(StacksLog(stacks))
  {
    if stacks != [] {
      StacksArePlain(stacks[..|stacks| - 1]);
      StackIsPlain(stacks[|stacks| - 1]);
    }
    hide IsPlain, StackAdditions;
  }

  /** Everything that is added before the findings. */
  function Ground(result: ScanResult): seq<Addition> {
    [Addition(NodeId("domain", result.target), Domain, result.target, 0.0)] + SurfaceLog(result)
  }

  lemma GroundIsPlain(result: ScanResult)
    ensures AllPlain(Ground(result))
  {
    PlainAdditions(Domain, result.target, result.target, 0.0);
    AssetsArePlain(result.assets);
    ServicesArePlain(result.services);
    StacksArePlain(result.stacks);
    hide NodeId, IsPlain, AssetsLog, ServicesLog, StacksLog;
  }

  // ----- the nodes of findings -----

  function FindingAddition(f: Deduped): Addition {
    Addition(NodeId("finding", f.key), Finding, f.name, f.risk)
  }

  /** What a finding adds besides its own node. */
  function Companions(services: seq<ServiceRecord>, f: Deduped): seq<Addition> {
    FindingAdditions(services, f)[1..]
  }

  lemma ReferenceIsPlain(services: seq<ServiceRecord>, f: Deduped)
    ensures AllPlain(ReferenceAdditions(services, f))
  {
    PlainAdditions(Cve, f.ruleId, f.ruleId, f.risk);
    match AffectedProduct(services, f.url) {
      case None =>
      case Some((caption, confidence)) => TechIsPlain(caption, confidence);
    }
    hide NodeId, IsPlain, AffectedProduct, TechAddition;
  }

  lemma CompanionsArePlain(services: seq<ServiceRecord>, f: Deduped)
    ensures FindingAdditions(services, f) == [FindingAddition(f)] + Companions(services, f)
    ensures AllPlain(Companions(services, f))
  {
    PlainAdditions(Endpoint, f.url, f.url, 0.0);
    PlainAdditions(Kind.Service, f.url, f.url, f.risk);
    ReferenceIsPlain(services, f);
    hide NodeId, IsPlain, ReferenceAdditions;
  }

  /** Additions of other kinds leave the node of a finding as it was. */
  lemma {:induction false} PlainKeeps(log: seq<Addition>, more: seq<Addition>, key: string)
    requires AllPlain(more)
    ensures
      var (before, after, id) := (NodesOf(log), NodesOf(log + more), NodeId("finding", key));
      (id in after <==> id in before) && (id in before ==> after[id] == before[id])
    decreases |more|
  {
    if more == [] {
      assert log + more == log;
    } else {
      var (front, last) := (more[..|more| - 1], more[|more| - 1]);
      PlainKeeps(log, front, key);
      assert (log + more)[..|log + more| - 1] == log + front;
      assert IsPlain(last);
      PrefixOfId(Finding, key);
      if last.id == NodeId("finding", key) {
        IdTellsKind(last.id, last.kind, Finding);
      }
      hide NodeId, IsPlain;
    }
  }

  /** Two keys that differ in letter case at most. */
  predicate Alike(a: string, b: string) {
    Lower(a) == Lower(b)
  }

  /** Groups share a node exactly if their keys are alike. */
  lemma SharedNodeIff(a: string, b: string)
    ensures NodeId("finding", a) == NodeId("finding", b) <==> Alike(a, b)
  {
    var prefix := "finding" + ":";
    assert (prefix + Lower(a))[|prefix|..] == Lower(a);
    assert (prefix + Lower(b))[|prefix|..] == Lower(b);
  }

  predicate IsLike(groups: seq<Deduped>, i: int, key: string) {
    0 <= i < |groups| && Alike(groups[i].key, key)
  }

  /** The first group with a key like this one, or the number of groups. */
  function Lead(groups: seq<Deduped>, key: string): (i: nat)
    ensures i <= |groups| && forall j :: IsLike(groups, j, key) ==> i <= j
    ensures i < |groups| ==> IsLike(groups, i, key)
  {
    if groups == [] then 0
    else
      var i := Lead(groups[..|groups| - 1], key);
      assert forall j :: 0 <= j < |groups| - 1 ==> IsLike(groups, j, key) == IsLike(groups[..|groups| - 1], j, key);
      if i == |groups| - 1 && !Alike(groups[i].key, key) then |groups| else i
  }

  /** The node carries the name of the first group with a key like this one, and the largest risk of those groups. */
  ghost predicate Stands(nodes: map<string, Node>, groups: seq<Deduped>, key: string) {
    var (id, lead) := (NodeId("finding", key), Lead(groups, key));
    if lead == |groups| then id !in nodes
    else
      && id in nodes
      && nodes[id] == Node(id, Finding, groups[lead].name, nodes[id].risk)
      && (forall j :: IsLike(groups, j, key) ==> groups[j].risk <= nodes[id].risk)
      && (exists j :: IsLike(groups, j, key) && groups[j].risk == nodes[id].risk)
  }

  lemma StandsWithOneMore(nodes: map<string, Node>, groups: seq<Deduped>, key: string)
    requires groups != [] && Stands(nodes, groups[..|groups| - 1], key)
    ensures Stands(Added(nodes, FindingAddition(groups[|groups| - 1])), groups, key)
  {
    var (front, last) := (groups[..|groups| - 1], groups[|groups| - 1]);
    SharedNodeIff(last.key, key);
    hide NodeId, Alike;
    assert forall j :: IsLike(groups, j, key) <==> IsLike(front, j, key) || (j == |front| && Alike(last.key, key));
    assert forall j :: IsLike(front, j, key) ==> front[j] == groups[j];
    var id := NodeId("finding", key);
    if Lead(front, key) < |front| {
      var j :| IsLike(front, j, key) && front[j].risk == nodes[id].risk;
      assert IsLike(groups, j, key) && groups[j].risk == nodes[id].risk;
    }
    if Alike(last.key, key) {
      assert IsLike(groups, |front|, key);
    }
  }

  lemma StandsAfterOthers(log: seq<Addition>, more: seq<Addition>, groups: seq<Deduped>, key: string)
    requires AllPlain(more) && Stands(NodesOf(log), groups, key)
    ensures Stands(NodesOf(log + more), groups, key)
  {
    PlainKeeps(log, more, key);
    hide NodeId, AllPlain, NodesOf, Lead, IsLike;
  }

  /** What one more finding appends: its own node, and then the others. */
  lemma OneFindingMore(log: seq<Addition>, services: seq<ServiceRecord>, groups: seq<Deduped>)
    requires groups != []
    ensures
      var (front, last) := (groups[..|groups| - 1], groups[|groups| - 1]);
      log + FindingsLog(services, groups)
      == ((log + FindingsLog(services, front)) + [FindingAddition(last)]) + Companions(services, last)
  {
    hide *;
    var (front, last) := (groups[..|groups| - 1], groups[|groups| - 1]);
    CompanionsArePlain(services, last);
    LogGrows(services, groups);
    Regroup(log, FindingsLog(services, front), [FindingAddition(last)], Companions(services, last));
  }

  lemma Regroup<T>(a: seq<T>, b: seq<T>, c: seq<T>, d: seq<T>)
    ensures a + (b + (c + d)) == ((a + b) + c) + d
  {
  }

  lemma LogGrows(services: seq<ServiceRecord>, groups: seq<Deduped>)
    requires groups != []
    ensures FindingsLog(services, groups)
         == FindingsLog(services, groups[..|groups| - 1]) + FindingAdditions(services, groups[|groups| - 1])
  {
    hide FindingAdditions;
  }

  lemma AddedLast(log: seq<Addition>, a: Addition)
    ensures NodesOf(log + [a]) == Added(NodesOf(log), a)
  {
    assert (log + [a])[..|log + [a]| - 1] == log;
  }

  lemma {:induction false} FindingsStand(log: seq<Addition>, services: seq<ServiceRecord>, groups: seq<Deduped>,
      key: string)
    requires Stands(NodesOf(log), [], key)
    ensures Stands(NodesOf(log + FindingsLog(services, groups)), groups, key)
    decreases |groups|
  {
    if groups == [] {
      assert log + [] == log;
    } else {
      hide *;
      var (front, last) := (groups[..|groups| - 1], groups[|groups| - 1]);
      FindingsStand(log, services, front, key);
      OneFindingMore(log, services, groups);
      var before := log + FindingsLog(services, front);
      StandsWithOneMore(NodesOf(before), groups, key);
      AddedLast(before, FindingAddition(last));
      CompanionsArePlain(services, last);
      StandsAfterOthers(before + [FindingAddition(last)], Companions(services, last), groups, key);
    }
  }

  lemma {:induction false} NoFindingsYet(log: seq<Addition>, key: string)
    requires AllPlain(log)
    ensures Stands(NodesOf(log), [], key)
  {
    PlainKeeps([], log, key);
    assert [] + log == log;
  }

  /**
   The nodes of findings, for every key: there is one exactly if some group's key is like it, named by the
   first such group and as risky as the riskiest of them.
   */
  lemma FindingNodes(result: ScanResult, groups: seq<Deduped>, key: string)
    ensures Stands(NodesOf(GraphLog(result, groups)), groups, key)
  {
    hide *;
    GroundIsPlain(result);
    NoFindingsYet(Ground(result), key);
    FindingsStand(Ground(result), result.services, groups, key);
    GroundThenFindings(result, groups);
  }

  lemma GroundThenFindings(result: ScanResult, groups: seq<Deduped>)
    ensures GraphLog(result, groups) == Ground(result) + FindingsLog(result.services, groups)
  {
    hide NodeId, SurfaceLog, FindingsLog;
  }

  /**
   The node of a finding is there with at least that finding's risk, and with just that risk exactly if no
   group whose key differs in letter case at most is riskier.
   */
  lemma FindingNodeCarriesItsRisk(result: ScanResult, groups: seq<Deduped>, i: nat)
    requires i < |groups|
    ensures
      var nodes := NodesOf(GraphLog(result, groups));
      var id := NodeId("finding", groups[i].key);
      && id in nodes && groups[i].risk <= nodes[id].risk
      && (nodes[id].risk == groups[i].risk
        <==> forall j :: IsLike(groups, j, groups[i].key) ==> groups[j].risk <= groups[i].risk)
  {
    FindingNodes(result, groups, groups[i].key);
    assert IsLike(groups, i, groups[i].key);
    hide NodesOf, GraphLog, NodeId, Alike;
  }

  /** In the order deduplication gives, the first group with such a key gives both the name and the risk. */
  lemma SortedLeadRules(result: ScanResult, groups: seq<Deduped>, i: nat)
    requires IsSorted(groups) && i < |groups|
    ensures
      var (id, lead) := (NodeId("finding", groups[i].key), Lead(groups, groups[i].key));
      && lead < |groups| && id in NodesOf(GraphLog(result, groups))
      && NodesOf(GraphLog(result, groups))[id] == Node(id, Finding, groups[lead].name, groups[lead].risk)
  {
    hide *;
    FindingNodes(result, groups, groups[i].key);
    SortedStands(NodesOf(GraphLog(result, groups)), groups, i);
  }

  lemma SortedStands(nodes: map<string, Node>, groups: seq<Deduped>, i: nat)
    requires IsSorted(groups) && i < |groups| && Stands(nodes, groups, groups[i].key)
    ensures
      var (id, lead) := (NodeId("finding", groups[i].key), Lead(groups, groups[i].key));
      lead < |groups| && id in nodes && nodes[id] == Node(id, Finding, groups[lead].name, groups[lead].risk)
  {
    var key := groups[i].key;
    assert IsLike(groups, i, key);
    hide NodeId, Alike;
    var lead := Lead(groups, key);
    var j :| IsLike(groups, j, key) && groups[j].risk == nodes[NodeId("finding", key)].risk;
    RiskFalls(groups, lead, j);
    hide IsSorted;
  }

  lemma RiskFalls(groups: seq<Deduped>, i: int, j: int)
    requires IsSorted(groups) && 0 <= i <= j < |groups|
    ensures groups[i].risk >= groups[j].risk
  {
    assert i == j || Before(groups[i], groups[j]);
  }

  lemma LowerOfSum(a: string, b: string)
    ensures Lower(a + b) == Lower(a) + Lower(b)
  {
  }

  /** Findings whose rules differ in letter case only are two groups, but one node. */
  lemma CaseTwinsShareANode(findings: seq<Vulnerability>, groups: seq<Deduped>, v: Vulnerability, w: Vulnerability)
    requires Covers(findings, groups) && v in findings && w in findings
    requires v.url == w.url && v.parameter == w.parameter
    requires v.id != w.id && Alike(v.id, w.id) && ("SEC-HEADER-" <= v.id <==> "SEC-HEADER-" <= w.id)
    ensures exists i, j ::
      && 0 <= i < |groups| && 0 <= j < |groups| && i != j
      && groups[i].key == RootCauseKey(v) && groups[j].key == RootCauseKey(w)
      && NodeId("finding", groups[i].key) == NodeId("finding", groups[j].key)
  {
    TwinKeys(v, w);
    SharedNodeIff(RootCauseKey(v), RootCauseKey(w));
    hide RootCauseKey, NodeId, Alike;
    var i :| 0 <= i < |groups| && groups[i].key == RootCauseKey(v);
    var j :| 0 <= j < |groups| && groups[j].key == RootCauseKey(w);
    assert i != j;
  }

  lemma TwinKeys(v: Vulnerability, w: Vulnerability)
    requires v.url == w.url && v.parameter == w.parameter
    requires v.id != w.id && Alike(v.id, w.id) && ("SEC-HEADER-" <= v.id <==> "SEC-HEADER-" <= w.id)
    ensures RootCauseKey(v) != RootCauseKey(w) && Alike(RootCauseKey(v), RootCauseKey(w))
  {
    assert Scope(v) == Scope(w) by {
      hide HostFromUrl, Alike;
    }
    var rest := ":" + Scope(v);
    hide Scope;
    assert RootCauseKey(v) == v.id + rest && RootCauseKey(w) == w.id + rest;
    TwinsExtended(v.id, w.id, rest);
  }

  lemma TwinsExtended(a: string, b: string, rest: string)
    requires a != b && Alike(a, b)
    ensures a + rest != b + rest && Alike(a + rest, b + rest)
  {
    assert |a| == |Lower(a)| == |b|;
    assert (a + rest)[..|a|] == a && (b + rest)[..|a|] == b;
    LowerOfSum(a, rest);
    LowerOfSum(b, rest);
    hide Lower;
  }

  /** Every node's kind is the one its id names, so no two parts of a scan disagree about a node's kind. */
  lemma KindIsInTheId(result: ScanResult, groups: seq<Deduped>, id: string)
    requires id in NodesOf(GraphLog(result, groups))
    ensures forall k :: NodesOf(GraphLog(result, groups))[id].kind == k <==> KindPrefix(k) + ":" <= id
  {
    var log := GraphLog(result, groups);
    NodeFacts(log, id);
    var n := NodesOf(log)[id];
    var i :| Names(log, i, id) && log[i].kind == n.kind;
    GroundIsPlain(result);
    FindingsNameKinds(result.services, groups);
    GroundThenFindings(result, groups);
    hide GraphLog, NodesOf, FindingsLog, Ground;
    assert NamesKind(log[i]) by {
      if i >= |Ground(result)| {
        assert log[i] == FindingsLog(result.services, groups)[i - |Ground(result)|];
      } else {
        assert IsPlain(Ground(result)[i]);
      }
    }
    forall k | KindPrefix(k) + ":" <= id
      ensures k == n.kind
    {
      IdTellsKind(id, k, n.kind);
    }
  }

  lemma {:induction false} FindingsNameKinds(services: seq<ServiceRecord>, groups: seq<Deduped>)
    ensures forall j :: 0 <= j < |FindingsLog(services, groups)| ==> NamesKind(FindingsLog(services, groups)[j])
  {
    if groups != [] {
      var (front, last) := (groups[..|groups| - 1], groups[|groups| - 1]);
      FindingsNameKinds(services, front);
      CompanionsArePlain(services, last);
      PrefixOfId(Finding, last.key);
      hide NodeId, FindingAdditions, Companions;
    }
  }
}
