/** The layered layout of a topology graph: one layer a kind, sorted by name, services moved near their workloads. */
module Layout {
  import opened Common
  import opened Text
  import opened Sorting

  datatype Object = Object(ns: string, name: string)

  datatype Workload = Workload(obj: Object, labels: map<string, string>)

  datatype Service = Service(obj: Object, selector: map<string, string>)

  datatype Graph = Graph(
    namespaces: seq<string>, workloads: seq<Workload>, pods: seq<Object>, services: seq<Service>, ingresses: seq<Object>)

  datatype Kind = NamespaceKind | WorkloadKind | PodKind | ServiceKind | IngressKind

  datatype Node = Node(id: string, kind: Kind, name: string)

  datatype LayoutNode = LayoutNode(node: Node, x: nat, y: nat)

  const LAYER_SPACING: nat := 140
  const NODE_SPACING: nat := 180

  // ---- ids ----

  function KindText(kind: Kind): string {
    match kind
    case NamespaceKind => "namespace"
    case WorkloadKind => "workload"
    case PodKind => "pod"
    case ServiceKind => "service"
    case IngressKind => "ingress"
  }

  function LayoutId(kind: Kind, o: Object): string {
    if o.ns == "" then KindText(kind) + ("/" + o.name) else KindText(kind) + ("/" + (o.ns + ("/" + o.name)))
  }

  predicate PlainName(s: string) { '/' !in s }

  predicate Plain(o: Object) { PlainName(o.ns) && PlainName(o.name) }

  lemma KindTextIsPlain(kind: Kind)
    ensures PlainName(KindText(kind)) && KindText(kind) != ""
  {
  }

  lemma KindTextInjective(a: Kind, b: Kind)
    requires KindText(a) == KindText(b)
    ensures a == b
  {
    assert |KindText(a)| == |KindText(b)| && KindText(a)[0] == KindText(b)[0];
  }

  /** The parts of an id, read back. */
  lemma PartsOfId(kind: Kind, o: Object)
    requires Plain(o)
    ensures Split(LayoutId(kind, o), '/') == if o.ns == "" then [KindText(kind), o.name] else [KindText(kind), o.ns, o.name]
  {
    KindTextIsPlain(kind);
    var parts := if o.ns == "" then [KindText(kind), o.name] else [KindText(kind), o.ns, o.name];
    SplitUndoesJoin(parts, '/');
    if o.ns == "" {
      assert parts[1..] == [o.name];
    } else {
      assert parts[1..] == [o.ns, o.name] && parts[1..][1..] == [o.name];
      assert Join([o.ns, o.name], '/') == o.ns + ("/" + o.name);
    }
  }

  /** Objects whose names hold no slash have the same id only when they are the same. */
  lemma LayoutIdInjective(a: Kind, o: Object, b: Kind, p: Object)
    requires Plain(o) && Plain(p) && LayoutId(a, o) == LayoutId(b, p)
    ensures a == b && o == p
  {
    PartsOfId(a, o);
    PartsOfId(b, p);
    var parts := Split(LayoutId(a, o), '/');
    assert parts[0] == KindText(a) && parts[0] == KindText(b);
    KindTextInjective(a, b);
  }

  // ---- layers before the barycenter pass ----

  function WorkloadObjects(ws: seq<Workload>): (r: seq<Object>)
    ensures |r| == |ws| && forall i :: 0 <= i < |ws| ==> r[i] == ws[i].obj
  {
    seq(|ws|, i requires 0 <= i < |ws| => ws[i].obj)
  }

  function ServiceObjects(ss: seq<Service>): (r: seq<Object>)
    ensures |r| == |ss| && forall i :: 0 <= i < |ss| ==> r[i] == ss[i].obj
  {
    seq(|ss|, i requires 0 <= i < |ss| => ss[i].obj)
  }

  function NamespaceObjects(names: seq<string>): (r: seq<Object>)
    ensures |r| == |names| && forall i :: 0 <= i < |names| ==> r[i] == Object("", names[i])
  {
    seq(|names|, i requires 0 <= i < |names| => Object("", names[i]))
  }

  function Members(g: Graph, kind: Kind): seq<Object> {
    match kind
    case NamespaceKind => NamespaceObjects(g.namespaces)
    case WorkloadKind => WorkloadObjects(g.workloads)
    case PodKind => g.pods
    case ServiceKind => ServiceObjects(g.services)
    case IngressKind => g.ingresses
  }

  function NodeOf(kind: Kind, o: Object): Node { Node(LayoutId(kind, o), kind, o.name) }

  function NodesOf(kind: Kind, objects: seq<Object>): (r: seq<Node>)
    ensures |r| == |objects| && forall i :: 0 <= i < |objects| ==> r[i] == NodeOf(kind, objects[i])
  {
    seq(|objects|, i requires 0 <= i < |objects| => NodeOf(kind, objects[i]))
  }

  predicate NameLe(a: Node, b: Node) { TextLe(a.name, b.name) }

  function ByName(kind: Kind, objects: seq<Object>): seq<Node> { StableSort(NodesOf(kind, objects), NameLe) }

  lemma NameLeIsPreorder()
    ensures TotalPreorder(NameLe)
  {
    forall a: Node, b: Node ensures NameLe(a, b) || NameLe(b, a) { TextLeTotal(a.name, b.name); }
    forall a: Node, b: Node, c: Node | NameLe(a, b) && NameLe(b, c) ensures NameLe(a, c) {
      TextLeTransitive(a.name, b.name, c.name);
    }
  }

  // ---- the barycenter pass ----

  predicate SelectorMatches(selector: map<string, string>, labels: map<string, string>) {
    selector != map[] && forall k :: k in selector ==> k in labels && labels[k] == selector[k]
  }

  predicate Selects(s: Service, w: Workload) {
    w.obj.ns == s.obj.ns && SelectorMatches(s.selector, w.labels)
  }

  /** The index of each id in the layer; a repeated id keeps its last index. */
  function IndexOf(nodes: seq<Node>): map<string, nat> {
    if nodes == [] then map[] else IndexOf(nodes[..|nodes| - 1])[nodes[|nodes| - 1].id := |nodes| - 1]
  }

  /** The indices of the workloads a service selects. */
  function Positions(s: Service, ws: seq<Workload>, index: map<string, nat>): seq<nat> {
    if ws == [] then []
    else
      var w, id := ws[|ws| - 1], LayoutId(WorkloadKind, ws[|ws| - 1].obj);
      Positions(s, ws[..|ws| - 1], index) + if Selects(s, w) && id in index then [index[id]] else []
  }

  function Sum(xs: seq<nat>): nat { if xs == [] then 0 else Sum(xs[..|xs| - 1]) + xs[|xs| - 1] }

  /** A service selecting no workload sorts after all others. */
  datatype Mean = Connected(value: real) | Unconnected

  function MeanOf(xs: seq<nat>): Mean {
    if xs == [] then Unconnected else Connected(Sum(xs) as real / |xs| as real)
  }

  predicate MeanLe(a: Mean, b: Mean) { b.Unconnected? || (a.Connected? && a.value <= b.value) }

  datatype Entry = Entry(mean: Mean, id: string)

  predicate EntryLe(a: Entry, b: Entry) { MeanLe(a.mean, b.mean) }

  lemma EntryLeIsPreorder()
    ensures TotalPreorder(EntryLe)
  {
  }

  function EntryOf(g: Graph, s: Service): Entry {
    Entry(MeanOf(Positions(s, g.workloads, WorkloadIndexOf(g))), LayoutId(ServiceKind, s.obj))
  }

  function Entries(g: Graph, services: seq<Service>): (r: seq<Entry>)
    ensures |r| == |services| && forall i :: 0 <= i < |services| ==> r[i] == EntryOf(g, services[i])
  {
    seq(|services|, i requires 0 <= i < |services| => EntryOf(g, services[i]))
  }

  /** The nodes by id; a repeated id keeps its last node. */
  function NodeMap(nodes: seq<Node>): map<string, Node> {
    if nodes == [] then map[] else NodeMap(nodes[..|nodes| - 1])[nodes[|nodes| - 1].id := nodes[|nodes| - 1]]
  }

  /** Take the nodes out of the map in the order of the entries; an id taken once is gone. */
  function Pick(order: seq<Entry>, nodes: map<string, Node>): seq<Node>
    decreases |order|
  {
    if order == [] then []
    else
      var id := order[0].id;
      if id in nodes then [nodes[id]] + Pick(order[1..], nodes - {id}) else Pick(order[1..], nodes)
  }

  function Ordered(g: Graph): seq<Entry> { StableSort(Entries(g, g.services), EntryLe) }

  function ServiceLayer(g: Graph): seq<Node> { Pick(Ordered(g), NodeMap(ByName(ServiceKind, Members(g, ServiceKind)))) }

  function Layer(g: Graph, kind: Kind): seq<Node> {
    if kind.ServiceKind? then ServiceLayer(g) else ByName(kind, Members(g, kind))
  }

  const KINDS: seq<Kind> := [NamespaceKind, WorkloadKind, PodKind, ServiceKind, IngressKind]

  /** The layers in rank order. */
  function Layers(g: Graph): (r: seq<seq<Node>>)
    ensures |r| == |KINDS| && forall i :: 0 <= i < |KINDS| ==> r[i] == Layer(g, KINDS[i])
  {
    seq(|KINDS|, i requires 0 <= i < |KINDS| => Layer(g, KINDS[i]))
  }

  // ---- placing ----

  function PlaceLayer(nodes: seq<Node>, rank: nat): (r: seq<LayoutNode>)
    ensures |r| == |nodes|
    ensures forall i :: 0 <= i < |nodes| ==> r[i] == LayoutNode(nodes[i], i * NODE_SPACING, rank * LAYER_SPACING)
  {
    seq(|nodes|, i requires 0 <= i < |nodes| => LayoutNode(nodes[i], i * NODE_SPACING, rank * LAYER_SPACING))
  }

  function PlaceAll(layers: seq<seq<Node>>): seq<LayoutNode> {
    if layers == [] then []
    else PlaceAll(layers[..|layers| - 1]) + PlaceLayer(layers[|layers| - 1], |layers| - 1)
  }

  ghost predicate Apart(nodes: seq<LayoutNode>) {
    forall i, j :: 0 <= i < j < |nodes| ==> nodes[i].x != nodes[j].x || nodes[i].y != nodes[j].y
  }

  /** No two nodes share a position. */
  lemma {:induction false} PositionsAreDistinct(layers: seq<seq<Node>>)
    ensures Apart(PlaceAll(layers))
    ensures forall i :: 0 <= i < |PlaceAll(layers)| ==> PlaceAll(layers)[i].y < |layers| * LAYER_SPACING
  {
    if layers != [] {
      var front, rank := layers[..|layers| - 1], |layers| - 1;
      PositionsAreDistinct(front);
      LayerApart(layers[rank], rank);
    }
  }

  lemma LayerApart(nodes: seq<Node>, rank: nat)
    ensures Apart(PlaceLayer(nodes, rank))
  {
  }

  // ---- the map the services go through ----

  function IdsOf(nodes: seq<Node>): (r: seq<string>)
    ensures |r| == |nodes| && forall i :: 0 <= i < |nodes| ==> r[i] == nodes[i].id
  {
    seq(|nodes|, i requires 0 <= i < |nodes| => nodes[i].id)
  }

  function EntryIds(order: seq<Entry>): (r: seq<string>)
    ensures |r| == |order| && forall i :: 0 <= i < |order| ==> r[i] == order[i].id
  {
    seq(|order|, i requires 0 <= i < |order| => order[i].id)
  }

  /** Every node of the map sits under its own id. */
  predicate ByOwnId(nodes: map<string, Node>) { forall id :: id in nodes ==> nodes[id].id == id }

  lemma {:induction false} NodeMapHolds(nodes: seq<Node>)
    ensures ByOwnId(NodeMap(nodes)) && NodeMap(nodes).Keys == Elems(IdsOf(nodes))
    ensures forall id :: id in NodeMap(nodes) ==> NodeMap(nodes)[id] in nodes
  {
    if nodes == [] {
    } else {
      var front, last := nodes[..|nodes| - 1], nodes[|nodes| - 1];
      NodeMapHolds(front);
      assert nodes == front + [last];
      assert IdsOf(nodes) == IdsOf(front) + [last.id];
    }
  }

  /** Each id of the order that the map holds is picked exactly once. */
  lemma {:induction false} PickIds(order: seq<Entry>, nodes: map<string, Node>)
    requires ByOwnId(nodes)
    ensures NoDup(IdsOf(Pick(order, nodes)))
    ensures Elems(IdsOf(Pick(order, nodes))) == Elems(EntryIds(order)) * nodes.Keys
    decreases |order|
  {
    if order != [] {
      var id, rest := order[0].id, order[1..];
      assert EntryIds(order) == [id] + EntryIds(rest);
      if id in nodes {
        var picked := Pick(rest, nodes - {id});
        PickIds(rest, nodes - {id});
        assert IdsOf(Pick(order, nodes)) == [id] + IdsOf(picked);
        FirstIsNew(id, IdsOf(picked));
      } else {
        PickIds(rest, nodes);
      }
    }
  }

  lemma FirstIsNew(id: string, rest: seq<string>)
    requires NoDup(rest) && id !in Elems(rest)
    ensures NoDup([id] + rest) && Elems([id] + rest) == {id} + Elems(rest)
  {
    assert forall i :: 0 <= i < |rest| ==> rest[i] in Elems(rest);
  }

  lemma RestIsCovered(order: seq<Entry>, nodes: map<string, Node>)
    requires order != [] && NoDup(EntryIds(order)) && Elems(EntryIds(order)) <= nodes.Keys
    ensures EntryIds(order[1..]) == EntryIds(order)[1..] && NoDup(EntryIds(order[1..]))
    ensures Elems(EntryIds(order[1..])) <= nodes.Keys - {order[0].id}
  {
    var ids := EntryIds(order);
    assert EntryIds(order[1..]) == ids[1..];
    forall id | id in ids[1..] ensures id in nodes.Keys - {order[0].id} {
      var i :| 0 <= i < |ids[1..]| && ids[1..][i] == id;
      assert ids[i + 1] in Elems(ids);
    }
  }

  /** When no id repeats, picking just looks every id up. */
  lemma {:induction false} PickAll(order: seq<Entry>, nodes: map<string, Node>)
    requires NoDup(EntryIds(order)) && Elems(EntryIds(order)) <= nodes.Keys
    ensures |Pick(order, nodes)| == |order|
    ensures forall i :: 0 <= i < |order| ==> EntryIds(order)[i] in nodes && Pick(order, nodes)[i] == nodes[EntryIds(order)[i]]
    decreases |order|
  {
    if order != [] {
      var id, rest := order[0].id, order[1..];
      var ids := EntryIds(order);
      assert ids[0] in Elems(ids);
      RestIsCovered(order, nodes);
      PickAll(rest, nodes - {id});
      forall i | 0 <= i < |order| ensures ids[i] in nodes && Pick(order, nodes)[i] == nodes[ids[i]] {
        if i > 0 { assert ids[i] == EntryIds(rest)[i - 1]; }
      }
    }
  }

  // ---- the service layer ----

  function ServiceIds(g: Graph): seq<string> { IdsOf(NodesOf(ServiceKind, Members(g, ServiceKind))) }

  lemma EntryIdsAreServiceIds(g: Graph)
    ensures EntryIds(Entries(g, g.services)) == ServiceIds(g)
  {
  }

  lemma {:induction false} ElemsOfSorted(s: seq<Entry>)
    ensures Elems(EntryIds(StableSort(s, EntryLe))) == Elems(EntryIds(s))
  {
    var r := StableSort(s, EntryLe);
    SortKeepsElements(s, EntryLe);
    forall id ensures id in EntryIds(r) <==> id in EntryIds(s) {
      if id in EntryIds(r) {
        var i :| 0 <= i < |r| && r[i].id == id;
        assert r[i] in multiset(s);
        var j :| 0 <= j < |s| && s[j] == r[i];
        assert EntryIds(s)[j] == id;
      }
      if id in EntryIds(s) {
        var i :| 0 <= i < |s| && s[i].id == id;
        assert s[i] in multiset(r);
        var j :| 0 <= j < |r| && r[j] == s[i];
        assert EntryIds(r)[j] == id;
      }
    }
  }

  lemma {:induction false} IdsOfSortedNodes(s: seq<Node>)
    ensures Elems(IdsOf(StableSort(s, NameLe))) == Elems(IdsOf(s))
  {
    var r := StableSort(s, NameLe);
    SortKeepsElements(s, NameLe);
    forall id ensures id in IdsOf(r) <==> id in IdsOf(s) {
      if id in IdsOf(r) {
        var i :| 0 <= i < |r| && r[i].id == id;
        assert r[i] in multiset(s);
        var j :| 0 <= j < |s| && s[j] == r[i];
        assert IdsOf(s)[j] == id;
      }
      if id in IdsOf(s) {
        var i :| 0 <= i < |s| && s[i].id == id;
        assert s[i] in multiset(r);
        var j :| 0 <= j < |r| && r[j] == s[i];
        assert IdsOf(r)[j] == id;
      }
    }
  }

  function ServiceNodeMap(g: Graph): map<string, Node> { NodeMap(ByName(ServiceKind, Members(g, ServiceKind))) }

  /** The order names exactly the ids in the map: nothing is left over. */
  lemma OrderCoversMap(g: Graph)
    ensures ByOwnId(ServiceNodeMap(g))
    ensures Elems(EntryIds(Ordered(g))) == Elems(ServiceIds(g)) == ServiceNodeMap(g).Keys
    ensures ServiceNodeMap(g) - Elems(EntryIds(Ordered(g))) == map[]
  {
    var nodes := NodesOf(ServiceKind, Members(g, ServiceKind));
    NodeMapHolds(StableSort(nodes, NameLe));
    IdsOfSortedNodes(nodes);
    ElemsOfSorted(Entries(g, g.services));
    EntryIdsAreServiceIds(g);
  }

  lemma NoDupIff<T>(s: seq<T>)
    ensures |Elems(s)| <= |s|
    ensures |Elems(s)| == |s| <==> NoDup(s)
  {
    if NoDup(s) {
      NoDupCardinality(s);
    } else {
      FewerElements(s);
    }
    ElemsSmaller(s);
  }

  lemma FewerElements<T>(s: seq<T>)
    requires !NoDup(s)
    ensures |Elems(s)| < |s|
  {
    var i, j :| 0 <= i < j < |s| && s[i] == s[j];
    var rest := s[..j] + s[j + 1..];
    ElemsSmaller(rest);
    forall x ensures x in Elems(s) <==> x in Elems(rest) {
      if x in s {
        var k :| 0 <= k < |s| && s[k] == x;
        if k < j { assert rest[k] == x; }
        else if k == j { assert rest[i] == x; }
        else { assert rest[k - 1] == x; }
      }
    }
    assert Elems(s) == Elems(rest);
  }

  /** The pass keeps one node for each service id, and loses none exactly when the ids are distinct. */
  lemma ServicesLosslessIff(g: Graph)
    ensures NoDup(IdsOf(ServiceLayer(g))) && Elems(IdsOf(ServiceLayer(g))) == Elems(ServiceIds(g))
    ensures |ServiceLayer(g)| == |g.services| <==> NoDup(ServiceIds(g))
  {
    LayerIds(g);
    SameSetCounts(IdsOf(ServiceLayer(g)), ServiceIds(g));
  }

  lemma LayerIds(g: Graph)
    ensures NoDup(IdsOf(ServiceLayer(g))) && Elems(IdsOf(ServiceLayer(g))) == Elems(ServiceIds(g))
  {
    OrderCoversMap(g);
    PickIds(Ordered(g), ServiceNodeMap(g));
  }

  lemma SameSetCounts<T>(a: seq<T>, b: seq<T>)
    requires NoDup(a) && Elems(a) == Elems(b)
    ensures |a| == |b| <==> NoDup(b)
  {
    NoDupCardinality(a);
    NoDupIff(b);
  }

  lemma OrderedIdsDistinct(g: Graph)
    requires NoDup(ServiceIds(g))
    ensures NoDup(EntryIds(Ordered(g))) && |Ordered(g)| == |g.services|
  {
    OrderCoversMap(g);
    SortKeepsElements(Entries(g, g.services), EntryLe);
    NoDupIff(ServiceIds(g));
    NoDupIff(EntryIds(Ordered(g)));
  }

  lemma LayerFollowsOrder(g: Graph)
    requires NoDup(ServiceIds(g))
    ensures IdsOf(ServiceLayer(g)) == EntryIds(Ordered(g))
  {
    OrderCoversMap(g);
    OrderedIdsDistinct(g);
    PickAll(Ordered(g), ServiceNodeMap(g));
  }

  /** No service stands before another whose mean comes first: smaller means first, services without a mean last. */
  lemma OrderIsByMean(g: Graph)
    ensures multiset(Ordered(g)) == multiset(Entries(g, g.services)) && Sorted(Ordered(g), EntryLe)
    ensures forall i, j :: 0 <= i < j < |Ordered(g)| ==> !StandsBefore(Ordered(g)[j].mean, Ordered(g)[i].mean)
  {
    EntryLeIsPreorder();
    SortKeepsElements(Entries(g, g.services), EntryLe);
    SortSorts(Entries(g, g.services), EntryLe);
    forall i, j | 0 <= i < j < |Ordered(g)| ensures !StandsBefore(Ordered(g)[j].mean, Ordered(g)[i].mean) {
      assert EntryLe(Ordered(g)[i], Ordered(g)[j]);
    }
  }

  /** Services of equal mean keep the order of the graph. */
  lemma EqualMeansKeepOrder(g: Graph, e: Entry)
    ensures TiesOf(Ordered(g), e, EntryLe) == TiesOf(Entries(g, g.services), e, EntryLe)
  {
    EntryLeIsPreorder();
    SortIsStable(Entries(g, g.services), e, EntryLe);
  }

  /**
   * Services with distinct ids stand in the order of their means: sorted, those without a workload last, and
   * services with equal means in the order of the graph.
   */
  lemma ServicesStandByMean(g: Graph, e: Entry)
    requires NoDup(ServiceIds(g))
    ensures IdsOf(ServiceLayer(g)) == EntryIds(Ordered(g))
    ensures multiset(Ordered(g)) == multiset(Entries(g, g.services)) && Sorted(Ordered(g), EntryLe)
    ensures forall i, j :: 0 <= i < j < |Ordered(g)| ==> !StandsBefore(Ordered(g)[j].mean, Ordered(g)[i].mean)
    ensures TiesOf(Ordered(g), e, EntryLe) == TiesOf(Entries(g, g.services), e, EntryLe)
  {
    LayerFollowsOrder(g);
    OrderIsByMean(g);
    EqualMeansKeepOrder(g, e);
  }

  /** The service's mean comes first: it has one and the other has none, or it is smaller. */
  ghost predicate StandsBefore(a: Mean, b: Mean) {
    a.Connected? && (b.Connected? ==> a.value < b.value)
  }

  lemma EntryStands(g: Graph, i: nat) returns (p: nat)
    requires NoDup(ServiceIds(g)) && i < |g.services|
    ensures p < |Ordered(g)| && Ordered(g)[p] == EntryOf(g, g.services[i])
    ensures p < |ServiceLayer(g)| && ServiceLayer(g)[p].id == LayoutId(ServiceKind, g.services[i].obj)
  {
    OrderIsByMean(g);
    LayerFollowsOrder(g);
    var e := Entries(g, g.services)[i];
    assert e in multiset(Entries(g, g.services));
    assert e in multiset(Ordered(g));
    p :| 0 <= p < |Ordered(g)| && Ordered(g)[p] == e;
    assert EntryIds(Ordered(g))[p] == e.id;
    assert IdsOf(ServiceLayer(g))[p] == e.id;
  }

  /** Of two services with different means the one whose mean comes first stands further left. */
  lemma SmallerMeanStandsLeft(g: Graph, i: nat, j: nat) returns (p: nat, q: nat)
    requires NoDup(ServiceIds(g)) && i < |g.services| && j < |g.services|
    requires StandsBefore(EntryOf(g, g.services[i]).mean, EntryOf(g, g.services[j]).mean)
    ensures p < q < |ServiceLayer(g)|
    ensures ServiceLayer(g)[p].id == LayoutId(ServiceKind, g.services[i].obj)
    ensures ServiceLayer(g)[q].id == LayoutId(ServiceKind, g.services[j].obj)
  {
    p := EntryStands(g, i);
    q := EntryStands(g, j);
    OrderIsByMean(g);
  }

  lemma InSorted(kind: Kind, objects: seq<Object>, n: Node)
    ensures n in ByName(kind, objects) <==> exists k :: 0 <= k < |objects| && n == NodeOf(kind, objects[k])
    ensures |ByName(kind, objects)| == |objects|
  {
    var nodes := NodesOf(kind, objects);
    SortKeepsElements(nodes, NameLe);
    assert n in multiset(StableSort(nodes, NameLe)) <==> n in multiset(nodes);
    assert |multiset(StableSort(nodes, NameLe))| == |multiset(nodes)|;
    if n in nodes { var k :| 0 <= k < |nodes| && nodes[k] == n; }
    if k :| 0 <= k < |objects| && n == NodeOf(kind, objects[k]) { assert nodes[k] == n; }
  }

  /** Each layer but the services' holds one node for each object of its kind, and nothing else. */
  lemma LayersHoldTheObjects(g: Graph, n: Node)
    ensures n in Layer(g, NamespaceKind) <==>
      exists k :: 0 <= k < |g.namespaces| && n == Node(LayoutId(NamespaceKind, Object("", g.namespaces[k])), NamespaceKind, g.namespaces[k])
    ensures n in Layer(g, WorkloadKind) <==>
      exists k :: 0 <= k < |g.workloads| && n == Node(LayoutId(WorkloadKind, g.workloads[k].obj), WorkloadKind, g.workloads[k].obj.name)
    ensures n in Layer(g, PodKind) <==> exists k :: 0 <= k < |g.pods| && n == Node(LayoutId(PodKind, g.pods[k]), PodKind, g.pods[k].name)
    ensures n in Layer(g, IngressKind) <==>
      exists k :: 0 <= k < |g.ingresses| && n == Node(LayoutId(IngressKind, g.ingresses[k]), IngressKind, g.ingresses[k].name)
    ensures |Layer(g, NamespaceKind)| == |g.namespaces| && |Layer(g, WorkloadKind)| == |g.workloads|
    ensures |Layer(g, PodKind)| == |g.pods| && |Layer(g, IngressKind)| == |g.ingresses|
  {
    InSorted(NamespaceKind, Members(g, NamespaceKind), n);
    InSorted(WorkloadKind, Members(g, WorkloadKind), n);
    InSorted(PodKind, Members(g, PodKind), n);
    InSorted(IngressKind, Members(g, IngressKind), n);
  }

  /** The layers from top to bottom. */
  lemma LayersInRankOrder(g: Graph)
    ensures |Layers(g)| == 5
    ensures Layers(g)[0] == Layer(g, NamespaceKind) && Layers(g)[1] == Layer(g, WorkloadKind) && Layers(g)[2] == Layer(g, PodKind)
    ensures Layers(g)[3] == ServiceLayer(g) && Layers(g)[4] == Layer(g, IngressKind)
  {
  }

  /** Every node of a layer is placed, 180 to the right of the one before and 140 below the layer above. */
  lemma {:induction false} NodesArePlaced(layers: seq<seq<Node>>, rank: nat, i: nat)
    requires rank < |layers| && i < |layers[rank]|
    ensures LayoutNode(layers[rank][i], 180 * i, 140 * rank) in PlaceAll(layers)
  {
    var front, last := layers[..|layers| - 1], layers[|layers| - 1];
    if rank < |layers| - 1 {
      NodesArePlaced(front, rank, i);
    } else {
      assert PlaceLayer(last, rank)[i] == LayoutNode(last[i], i * NODE_SPACING, rank * LAYER_SPACING);
    }
  }

  // ---- what the means are made of ----

  lemma {:induction false} IndexIsLast(nodes: seq<Node>, id: string)
    ensures id in IndexOf(nodes) <==> id in IdsOf(nodes)
    ensures id in IndexOf(nodes) ==>
              var i := IndexOf(nodes)[id]; i < |nodes| && nodes[i].id == id && forall j :: i < j < |nodes| ==> nodes[j].id != id
  {
    if nodes != [] {
      var front, last := nodes[..|nodes| - 1], nodes[|nodes| - 1];
      IndexIsLast(front, id);
      assert IdsOf(nodes) == IdsOf(front) + [last.id];
    }
  }

  lemma {:induction false} NoPositionsIff(s: Service, ws: seq<Workload>, index: map<string, nat>)
    requires forall i :: 0 <= i < |ws| ==> LayoutId(WorkloadKind, ws[i].obj) in index
    ensures Positions(s, ws, index) == [] <==> forall i :: 0 <= i < |ws| ==> !Selects(s, ws[i])
  {
    if ws != [] {
      NoPositionsIff(s, ws[..|ws| - 1], index);
      assert forall i :: 0 <= i < |ws| - 1 ==> ws[..|ws| - 1][i] == ws[i];
    }
  }

  /** Every workload has its place in the index. */
  lemma WorkloadsAreIndexed(g: Graph)
    ensures forall i :: 0 <= i < |g.workloads| ==> LayoutId(WorkloadKind, g.workloads[i].obj) in WorkloadIndexOf(g)
  {
    var nodes := NodesOf(WorkloadKind, Members(g, WorkloadKind));
    forall i | 0 <= i < |g.workloads| ensures LayoutId(WorkloadKind, g.workloads[i].obj) in WorkloadIndexOf(g) {
      var id := LayoutId(WorkloadKind, g.workloads[i].obj);
      assert IdsOf(nodes)[i] == id;
      IdsOfSortedNodes(nodes);
      IndexIsLast(StableSort(nodes, NameLe), id);
      assert id in Elems(IdsOf(nodes));
    }
  }

  function WorkloadIndexOf(g: Graph): map<string, nat> { IndexOf(ByName(WorkloadKind, Members(g, WorkloadKind))) }

  /** Every pair of a non-empty selector is among the labels of a workload in the service's namespace. */
  ghost predicate PairsMatch(s: Service, w: Workload) {
    w.obj.ns == s.obj.ns && s.selector != map[] && s.selector.Items <= w.labels.Items
  }

  lemma SelectsIff(s: Service, w: Workload)
    ensures Selects(s, w) <==> PairsMatch(s, w)
  {
    if s.selector.Items <= w.labels.Items {
      forall k | k in s.selector ensures k in w.labels && w.labels[k] == s.selector[k] {
        assert (k, s.selector[k]) in s.selector.Items;
        assert (k, s.selector[k]) in w.labels.Items;
      }
    }
  }

  /**
   * A service counts as unconnected exactly when every workload is in another namespace or lacks a pair of its
   * selector, or the selector is empty.
   */
  lemma UnconnectedIff(g: Graph, s: Service)
    ensures EntryOf(g, s).mean.Unconnected? <==>
      forall w :: w in g.workloads ==> w.obj.ns != s.obj.ns || s.selector == map[] || !(s.selector.Items <= w.labels.Items)
  {
    WorkloadsAreIndexed(g);
    NoPositionsIff(s, g.workloads, WorkloadIndexOf(g));
    forall w ensures Selects(s, w) <==> PairsMatch(s, w) { SelectsIff(s, w); }
    if forall i :: 0 <= i < |g.workloads| ==> !Selects(s, g.workloads[i]) {
      forall w | w in g.workloads ensures !Selects(s, w) {
        var i :| 0 <= i < |g.workloads| && g.workloads[i] == w;
      }
    }
  }

  /** The workloads a service selects, by their places in the graph, in order. */
  ghost predicate AreSelected(s: Service, ws: seq<Workload>, picked: seq<nat>) {
    && (forall k :: 0 <= k < |picked| ==> picked[k] < |ws|)
    && (forall k, l :: 0 <= k < l < |picked| ==> picked[k] < picked[l])
    && (forall i :: 0 <= i < |ws| ==> (i in picked <==> PairsMatch(s, ws[i])))
  }

  /** Their places in the layer of the workloads. */
  ghost predicate PlacesOf(ws: seq<Workload>, picked: seq<nat>, index: map<string, nat>, places: seq<nat>) {
    && |places| == |picked|
    && forall k :: 0 <= k < |picked| ==> picked[k] < |ws| && PlaceIs(ws[picked[k]], index, places[k])
  }

  ghost predicate PlaceIs(w: Workload, index: map<string, nat>, place: nat) {
    LayoutId(WorkloadKind, w.obj) in index && index[LayoutId(WorkloadKind, w.obj)] == place
  }

  lemma PickNext(s: Service, front: seq<Workload>, w: Workload, before: seq<nat>)
    requires AreSelected(s, front, before)
    ensures AreSelected(s, front + [w], if PairsMatch(s, w) then before + [|front|] else before)
  {
    var ws, picked := front + [w], if PairsMatch(s, w) then before + [|front|] else before;
    forall i | 0 <= i < |ws| ensures i in picked <==> PairsMatch(s, ws[i]) {
      if i < |front| { assert ws[i] == front[i]; }
    }
  }

  lemma PlaceNext(front: seq<Workload>, w: Workload, before: seq<nat>, index: map<string, nat>, places: seq<nat>, place: nat)
    requires PlacesOf(front, before, index, places)
    ensures PlacesOf(front + [w], before, index, places)
    ensures PlaceIs(w, index, place) ==> PlacesOf(front + [w], before + [|front|], index, places + [place])
  {
    var ws := front + [w];
    assert forall k :: 0 <= k < |before| ==> ws[before[k]] == front[before[k]];
  }

  lemma PositionsNext(s: Service, front: seq<Workload>, w: Workload, index: map<string, nat>, place: nat)
    requires PlaceIs(w, index, place)
    ensures Positions(s, front + [w], index) == if PairsMatch(s, w) then Positions(s, front, index) + [place] else Positions(s, front, index)
  {
    SelectsIff(s, w);
    assert (front + [w])[..|front|] == front;
  }

  ghost predicate AllIndexed(ws: seq<Workload>, index: map<string, nat>) {
    forall i :: 0 <= i < |ws| ==> LayoutId(WorkloadKind, ws[i].obj) in index
  }

  lemma FrontIndexed(front: seq<Workload>, w: Workload, index: map<string, nat>)
    requires AllIndexed(front + [w], index)
    ensures AllIndexed(front, index) && LayoutId(WorkloadKind, w.obj) in index
  {
    assert (front + [w])[|front|] == w;
    assert forall i :: 0 <= i < |front| ==> (front + [w])[i] == front[i];
  }

  lemma {:induction false} PositionsAreTheirs(s: Service, ws: seq<Workload>, index: map<string, nat>) returns (picked: seq<nat>)
    requires AllIndexed(ws, index)
    ensures AreSelected(s, ws, picked) && PlacesOf(ws, picked, index, Positions(s, ws, index))
  {
    if ws == [] {
      picked := [];
    } else {
      var front, w := ws[..|ws| - 1], ws[|ws| - 1];
      assert ws == front + [w];
      FrontIndexed(front, w, index);
      var before := PositionsAreTheirs(s, front, index);
      picked := NextPositions(s, front, w, index, before);
    }
  }

  lemma NextPositions(s: Service, front: seq<Workload>, w: Workload, index: map<string, nat>, before: seq<nat>) returns (picked: seq<nat>)
    requires LayoutId(WorkloadKind, w.obj) in index
    requires AreSelected(s, front, before) && PlacesOf(front, before, index, Positions(s, front, index))
    ensures AreSelected(s, front + [w], picked) && PlacesOf(front + [w], picked, index, Positions(s, front + [w], index))
  {
    var place := index[LayoutId(WorkloadKind, w.obj)];
    PickNext(s, front, w, before);
    PlaceNext(front, w, before, index, Positions(s, front, index), place);
    PositionsNext(s, front, w, index, place);
    picked := if PairsMatch(s, w) then before + [|front|] else before;
  }

  /** The mean of the numbers: times how many they are it is their sum, and it lies between two of them. */
  ghost predicate Averages(mean: Mean, xs: seq<nat>) {
    && mean.Connected? && mean.value * |xs| as real == Sum(xs) as real
    && (exists k :: 0 <= k < |xs| && xs[k] as real <= mean.value) && (exists k :: 0 <= k < |xs| && mean.value <= xs[k] as real)
  }

  /** The mean of a connected service is that of the places of the workloads it selects. */
  lemma MeanIsAverage(g: Graph, s: Service) returns (picked: seq<nat>, places: seq<nat>)
    requires EntryOf(g, s).mean.Connected?
    ensures AreSelected(s, g.workloads, picked) && PlacesOf(g.workloads, picked, WorkloadIndexOf(g), places)
    ensures Averages(EntryOf(g, s).mean, places)
  {
    WorkloadsAreIndexed(g);
    picked := PositionsAreTheirs(s, g.workloads, WorkloadIndexOf(g));
    places := Positions(s, g.workloads, WorkloadIndexOf(g));
    MeanOfIsAverage(places, EntryOf(g, s).mean);
  }

  lemma MeanOfIsAverage(xs: seq<nat>, mean: Mean)
    requires xs != [] && mean == MeanOf(xs)
    ensures Averages(mean, xs)
  {
    var k, l := SumBetween(xs);
    var q, sum, n, low, high := mean.value, Sum(xs), |xs|, xs[k], xs[l];
    MeanTimes(q, sum, n);
    MeanBetween(q, sum, n, low, high);
    assert xs[k] as real <= q && q <= xs[l] as real;
  }

  lemma {:induction false} SumBetween(xs: seq<nat>) returns (k: nat, l: nat)
    requires xs != []
    ensures k < |xs| && l < |xs| && xs[k] * |xs| <= Sum(xs) <= xs[l] * |xs|
  {
    var n := |xs| - 1;
    k, l := n, n;
    if n == 0 {
      assert xs[..0] == [];
    } else {
      var front := xs[..n];
      var low, high := SumBetween(front);
      if front[low] <= xs[n] { k := low; }
      if front[high] >= xs[n] { l := high; }
      Scaled(xs[k], front[low], n);
      Scaled(front[high], xs[l], n);
    }
  }

  lemma Scaled(a: nat, b: nat, n: nat)
    requires a <= b
    ensures a * n <= b * n && a * (n + 1) == a * n + a && b * (n + 1) == b * n + b
  {
  }

  lemma MeanTimes(q: real, sum: nat, n: nat)
    requires n > 0 && q == sum as real / n as real
    ensures q * n as real == sum as real
  {
  }

  lemma MeanBetween(q: real, sum: nat, n: nat, low: nat, high: nat)
    requires n > 0 && low * n <= sum <= high * n && q * n as real == sum as real
    ensures low as real <= q <= high as real
  {
    ProductAsReal(low, n);
    ProductAsReal(high, n);
    if q < low as real { Larger(q, low as real, n as real); }
    if q > high as real { Larger(high as real, q, n as real); }
  }

  lemma {:induction false} ProductAsReal(a: nat, n: nat)
    ensures (a * n) as real == a as real * n as real
  {
  }

  lemma Larger(a: real, b: real, m: real)
    requires a < b && m > 0.0
    ensures a * m < b * m
  {
  }

  // ---- the whole layout ----

  function Flatten(layers: seq<seq<Node>>): seq<Node> {
    if layers == [] then [] else Flatten(layers[..|layers| - 1]) + layers[|layers| - 1]
  }

  function NodesIn(placed: seq<LayoutNode>): (r: seq<Node>)
    ensures |r| == |placed| && forall i :: 0 <= i < |placed| ==> r[i] == placed[i].node
  {
    seq(|placed|, i requires 0 <= i < |placed| => placed[i].node)
  }

  lemma {:induction false} PlacingKeepsNodes(layers: seq<seq<Node>>)
    ensures NodesIn(PlaceAll(layers)) == Flatten(layers)
  {
    if layers != [] { PlacingKeepsNodes(layers[..|layers| - 1]); }
  }

  /** The laid-out objects of a graph, kind by kind. */
  function ObjectNodes(g: Graph): (r: seq<seq<Node>>)
    ensures |r| == |KINDS| && forall i :: 0 <= i < |KINDS| ==> r[i] == NodesOf(KINDS[i], Members(g, KINDS[i]))
  {
    seq(|KINDS|, i requires 0 <= i < |KINDS| => NodesOf(KINDS[i], Members(g, KINDS[i])))
  }

  lemma DistinctIdsDistinctNodes(nodes: seq<Node>)
    requires NoDup(IdsOf(nodes))
    ensures NoDup(nodes)
  {
    forall i, j | 0 <= i < j < |nodes| ensures nodes[i] != nodes[j] { assert IdsOf(nodes)[i] != IdsOf(nodes)[j]; }
  }

  lemma ServiceNodesKept(g: Graph)
    requires NoDup(ServiceIds(g))
    ensures multiset(ServiceLayer(g)) == multiset(NodesOf(ServiceKind, Members(g, ServiceKind)))
  {
    var nodes := NodesOf(ServiceKind, Members(g, ServiceKind));
    var layer := ServiceLayer(g);
    ServicesLosslessIff(g);
    DistinctIdsDistinctNodes(nodes);
    DistinctIdsDistinctNodes(layer);
    PickedNodesAreNodes(g);
    NoDupCardinality(nodes);
    NoDupFits(layer, Elems(nodes));
    SameElementsSameMultiset(layer, nodes);
  }

  lemma PickedNodesAreNodes(g: Graph)
    requires NoDup(ServiceIds(g))
    ensures Elems(ServiceLayer(g)) <= Elems(NodesOf(ServiceKind, Members(g, ServiceKind)))
  {
    var nodes := NodesOf(ServiceKind, Members(g, ServiceKind));
    OrderCoversMap(g);
    OrderedIdsDistinct(g);
    PickAll(Ordered(g), ServiceNodeMap(g));
    NodeMapHolds(StableSort(nodes, NameLe));
    SortKeepsMembers(nodes);
  }

  lemma SortKeepsMembers(nodes: seq<Node>)
    ensures Elems(StableSort(nodes, NameLe)) == Elems(nodes)
  {
    SortKeepsElements(nodes, NameLe);
    forall n ensures n in StableSort(nodes, NameLe) <==> n in nodes {
      assert n in multiset(StableSort(nodes, NameLe)) <==> n in multiset(nodes);
    }
  }

  lemma {:induction false} FlattenMultiset(a: seq<seq<Node>>, b: seq<seq<Node>>)
    requires |a| == |b| && forall i :: 0 <= i < |a| ==> multiset(a[i]) == multiset(b[i])
    ensures multiset(Flatten(a)) == multiset(Flatten(b))
  {
    if a != [] { FlattenMultiset(a[..|a| - 1], b[..|b| - 1]); }
  }

  lemma LayerKeepsNodes(g: Graph, kind: Kind)
    requires NoDup(ServiceIds(g))
    ensures multiset(Layer(g, kind)) == multiset(NodesOf(kind, Members(g, kind)))
  {
    if kind.ServiceKind? {
      ServiceNodesKept(g);
    } else {
      SortKeepsElements(NodesOf(kind, Members(g, kind)), NameLe);
    }
  }

  /** Exactly one node for each laid-out object, when no two services share an id. */
  lemma OneNodePerObject(g: Graph)
    requires NoDup(ServiceIds(g))
    ensures multiset(NodesIn(PlaceAll(Layers(g)))) == multiset(Flatten(ObjectNodes(g)))
  {
    PlacingKeepsNodes(Layers(g));
    forall i | 0 <= i < |KINDS| ensures multiset(Layers(g)[i]) == multiset(ObjectNodes(g)[i]) {
      LayerKeepsNodes(g, KINDS[i]);
    }
    FlattenMultiset(Layers(g), ObjectNodes(g));
  }

  /** Services without slashes in their names have distinct ids when they are distinct. */
  lemma PlainServicesHaveDistinctIds(g: Graph)
    requires forall i :: 0 <= i < |g.services| ==> Plain(g.services[i].obj)
    ensures NoDup(ServiceIds(g)) <==> NoDup(ServiceObjects(g.services))
  {
    var objects := ServiceObjects(g.services);
    forall i, j | 0 <= i < j < |objects| ensures ServiceIds(g)[i] == ServiceIds(g)[j] <==> objects[i] == objects[j] {
      if ServiceIds(g)[i] == ServiceIds(g)[j] { LayoutIdInjective(ServiceKind, objects[i], ServiceKind, objects[j]); }
    }
    if NoDup(objects) {
      forall i, j | 0 <= i < j < |objects| ensures ServiceIds(g)[i] != ServiceIds(g)[j] { assert objects[i] != objects[j]; }
    }
    if NoDup(ServiceIds(g)) {
      forall i, j | 0 <= i < j < |objects| ensures objects[i] != objects[j] { assert ServiceIds(g)[i] != ServiceIds(g)[j]; }
    }
  }

  /** Every layer but the services' is sorted by name, objects of one name in the order of the graph. */
  lemma LayersSortedByName(g: Graph, kind: Kind)
    requires !kind.ServiceKind?
    ensures Sorted(Layer(g, kind), NameLe) && multiset(Layer(g, kind)) == multiset(NodesOf(kind, Members(g, kind)))
    ensures forall n :: TiesOf(Layer(g, kind), n, NameLe) == TiesOf(NodesOf(kind, Members(g, kind)), n, NameLe)
  {
    var nodes := NodesOf(kind, Members(g, kind));
    NameLeIsPreorder();
    SortSorts(nodes, NameLe);
    SortKeepsElements(nodes, NameLe);
    forall n ensures TiesOf(Layer(g, kind), n, NameLe) == TiesOf(nodes, n, NameLe) { SortIsStable(nodes, n, NameLe); }
  }

  // ---- the computation ----

  method FillBucket(kind: Kind, objects: seq<Object>) returns (bucket: seq<Node>)
    ensures bucket == NodesOf(kind, objects)
  {
    bucket := [];
    ghost var done: seq<Object> := [];
    for i := 0 to |objects|
      invariant done == objects[..i] && bucket == NodesOf(kind, done)
    {
      NodesNext(kind, done, objects[i]);
      done := done + [objects[i]];
      bucket := bucket + [NodeOf(kind, objects[i])];
    }
    assert done == objects;
  }

  lemma NodesNext(kind: Kind, front: seq<Object>, o: Object)
    ensures NodesOf(kind, front + [o]) == NodesOf(kind, front) + [NodeOf(kind, o)]
  {
  }

  method WorkloadIndex(bucket: seq<Node>) returns (index: map<string, nat>)
    ensures index == IndexOf(bucket)
  {
    index := map[];
    for i := 0 to |bucket|
      invariant index == IndexOf(bucket[..i])
    {
      assert bucket[..i + 1][..i] == bucket[..i];
      index := index[bucket[i].id := i];
    }
    assert bucket[..|bucket|] == bucket;
  }

  /** The mean index of the workloads the service selects. */
  method MeanIndex(s: Service, ws: seq<Workload>, index: map<string, nat>) returns (mean: Mean)
    ensures mean == MeanOf(Positions(s, ws, index))
  {
    var positions: seq<nat>, sum := [], 0;
    for i := 0 to |ws|
      invariant positions == Positions(s, ws[..i], index) && sum == Sum(positions)
    {
      assert ws[..i + 1][..i] == ws[..i];
      var id := LayoutId(WorkloadKind, ws[i].obj);
      if Selects(s, ws[i]) && id in index {
        assert (positions + [index[id]])[..|positions|] == positions;
        positions, sum := positions + [index[id]], sum + index[id];
      } else {
        assert positions + [] == positions;
      }
    }
    assert ws[..|ws|] == ws;
    if positions == [] {
      mean := Unconnected;
    } else {
      mean := Connected(sum as real / |positions| as real);
    }
  }

  method ServiceOrder(g: Graph, workloads: seq<Node>) returns (order: seq<Entry>)
    requires workloads == ByName(WorkloadKind, Members(g, WorkloadKind))
    ensures order == Entries(g, g.services)
  {
    var index := WorkloadIndex(workloads);
    order := [];
    ghost var done: seq<Service> := [];
    for i := 0 to |g.services|
      invariant done == g.services[..i] && order == Entries(g, done)
    {
      EntriesNext(g, done, g.services[i]);
      done := done + [g.services[i]];
      var mean := MeanIndex(g.services[i], g.workloads, index);
      order := order + [Entry(mean, LayoutId(ServiceKind, g.services[i].obj))];
    }
    assert done == g.services;
  }

  lemma EntriesNext(g: Graph, front: seq<Service>, s: Service)
    ensures Entries(g, front + [s]) == Entries(g, front) + [EntryOf(g, s)]
  {
  }

  /** Drain the bucket into a map, then take the nodes out again in the order of the means. */
  method Reorder(order: seq<Entry>, bucket: seq<Node>) returns (ordered: seq<Node>, leftovers: map<string, Node>)
    ensures ordered == Pick(order, NodeMap(bucket))
    ensures leftovers == NodeMap(bucket) - Elems(EntryIds(order))
  {
    leftovers, ordered := map[], [];
    for i := 0 to |bucket|
      invariant leftovers == NodeMap(bucket[..i])
    {
      assert bucket[..i + 1][..i] == bucket[..i];
      leftovers := leftovers[bucket[i].id := bucket[i]];
    }
    assert bucket[..|bucket|] == bucket;
    ghost var all := leftovers;
    for i := 0 to |order|
      invariant ordered + Pick(order[i..], leftovers) == Pick(order, all)
      invariant leftovers == all - Elems(EntryIds(order[..i]))
    {
      PickStep(order, i, leftovers);
      if order[i].id in leftovers {
        ordered := ordered + [leftovers[order[i].id]];
        leftovers := leftovers - {order[i].id};
      }
    }
    assert order[..|order|] == order;
  }

  lemma PickStep(order: seq<Entry>, i: nat, nodes: map<string, Node>)
    requires i < |order|
    ensures var id := order[i].id;
      Pick(order[i..], nodes) == if id in nodes then [nodes[id]] + Pick(order[i + 1..], nodes - {id}) else Pick(order[i + 1..], nodes)
    ensures Elems(EntryIds(order[..i + 1])) == Elems(EntryIds(order[..i])) + {order[i].id}
  {
    assert order[i..][1..] == order[i + 1..];
    assert EntryIds(order[..i + 1]) == EntryIds(order[..i]) + [order[i].id];
  }

  /** The services' bucket after the barycenter pass; with no services it is left alone. */
  method Barycenter(g: Graph, workloads: seq<Node>, bucket: seq<Node>) returns (ordered: seq<Node>)
    requires workloads == ByName(WorkloadKind, Members(g, WorkloadKind))
    requires bucket == ByName(ServiceKind, Members(g, ServiceKind))
    ensures ordered == ServiceLayer(g)
  {
    var order := ServiceOrder(g, workloads);
    if order == [] {
      return bucket;
    }
    var leftovers;
    ordered, leftovers := Reorder(StableSort(order, EntryLe), bucket);
    OrderCoversMap(g);
    assert leftovers == map[];
  }

  method Place(layers: seq<seq<Node>>) returns (nodes: seq<LayoutNode>)
    ensures nodes == PlaceAll(layers)
  {
    nodes := [];
    for rank := 0 to |layers|
      invariant nodes == PlaceAll(layers[..rank])
    {
      var placed: seq<LayoutNode> := [];
      for i := 0 to |layers[rank]|
        invariant placed == PlaceLayer(layers[rank][..i], rank)
      {
        placed := placed + [LayoutNode(layers[rank][i], i * NODE_SPACING, rank * LAYER_SPACING)];
      }
      assert layers[rank][..|layers[rank]|] == layers[rank];
      assert layers[..rank + 1][..rank] == layers[..rank];
      nodes := nodes + placed;
    }
    assert layers[..|layers|] == layers;
  }

  method ComputeLayout(g: Graph) returns (nodes: seq<LayoutNode>)
    ensures nodes == PlaceAll(Layers(g))
  {
    var buckets: seq<seq<Node>> := [];
    for k := 0 to |KINDS|
      invariant |buckets| == k && forall i :: 0 <= i < k ==> buckets[i] == ByName(KINDS[i], Members(g, KINDS[i]))
    {
      var bucket := FillBucket(KINDS[k], Members(g, KINDS[k]));
      buckets := buckets + [StableSort(bucket, NameLe)];
    }
    var services := Barycenter(g, buckets[1], buckets[3]);
    buckets := buckets[3 := services];
    assert buckets == Layers(g);
    nodes := Place(buckets);
  }
}
