/**
 * `Octopus.convert_karma_graph`: rebuilding the alignment graph exported by
 * Karma (a JSON object with `nodes` and `links`) as a directed multigraph
 * with dense integer ids, plus the two id tables.
 *
 * The graph is a sequence of node-attribute records (node `n` is position
 * `n`) and a sequence of edges; `get_label` and `get_prefix` are parameters.
 */
module KarmaGraph {
  import opened Common
  import opened PyStrings

  /** An entry of `nodes`; `uri` is `node["label"]["uri"]`, `None` when absent. */
  datatype KarmaNode = KarmaNode(id: string, nodeType: string, uri: Option<string>)

  /** An entry of `links`. */
  datatype KarmaLink = KarmaLink(id: string, linkType: string, weight: real)

  datatype KarmaData = KarmaData(nodes: seq<KarmaNode>, links: seq<KarmaLink>)

  datatype NodeKind = ClassNode | DataNode

  /** The attribute dictionary of a graph node (`labelText` is its "label" entry). */
  datatype NodeAttrs = NodeAttrs(kind: NodeKind, labelText: string, lab: string, prefix: string)

  /** A multigraph edge from `src` to `tgt` under edge key `key`, with its attributes. */
  datatype Edge = Edge(src: nat, tgt: nat, key: nat, alignId: string, linkType: string,
                       weight: real, labelText: string, prefix: string)

  datatype Graph = Graph(nodes: seq<NodeAttrs>, edges: seq<Edge>,
                         nodeMap: map<string, nat>, linkMap: map<string, nat>)

  /** Separator of the three parts of a link id, and of propagated labels. */
  const Separator: string := "---"

  /** The two link kinds that copy the source's label onto the target. */
  predicate IsTerminal(linkType: string)
  {
    linkType == "DataPropertyLink" || linkType == "ClassInstanceLink"
  }

  // ---------------------------------------------------------------- id tables

  function NodeIds(nodes: seq<KarmaNode>): seq<string>
  {
    seq(|nodes|, i requires 0 <= i < |nodes| => nodes[i].id)
  }

  function LinkIds(links: seq<KarmaLink>): seq<string>
  {
    seq(|links|, i requires 0 <= i < |links| => links[i].id)
  }

  /** The dictionary that `d[ids[i]] = i` for i = 0, 1, ... leaves behind. */
  function LastIndexMap(ids: seq<string>): (m: map<string, nat>)
    ensures forall k :: k in m ==> m[k] < |ids|
  {
    if ids == [] then map[]
    else LastIndexMap(ids[..|ids| - 1])[ids[|ids| - 1] := |ids| - 1]
  }

  /**
   * `m` holds exactly the ids of `ids`, and maps each to the LAST position
   * where it occurs (a repeated id is overwritten).
   */
  ghost predicate IsLastIndexMap(m: map<string, nat>, ids: seq<string>)
  {
    && (forall k :: k in m <==> k in ids)
    && (forall k :: k in m ==>
          m[k] < |ids| && ids[m[k]] == k && forall j :: m[k] < j < |ids| ==> ids[j] != k)
  }

  lemma {:induction false} LastIndexMapIsLastIndex(ids: seq<string>)
    ensures IsLastIndexMap(LastIndexMap(ids), ids)
    decreases |ids|
  {
    if ids != [] {
      var front, n := ids[..|ids| - 1], |ids| - 1;
      var mf, m := LastIndexMap(front), LastIndexMap(ids);
      LastIndexMapIsLastIndex(front);
      assert forall i :: 0 <= i < n ==> front[i] == ids[i];
      forall k ensures k in ids <==> k in front || k == ids[n] {
        if k in ids {
          var i :| 0 <= i < |ids| && ids[i] == k;
          if i < n { assert front[i] == k; }
        }
      }
      forall k | k in m
        ensures m[k] < |ids| && ids[m[k]] == k && forall j :: m[k] < j < |ids| ==> ids[j] != k
      {
        if k != ids[n] {
          assert m[k] == mf[k];
        }
      }
    }
  }

  /** With distinct ids, every id maps to its own position. */
  lemma DistinctIdsIndexDensely(ids: seq<string>, i: nat)
    requires i < |ids|
    requires forall a, b :: 0 <= a < b < |ids| ==> ids[a] != ids[b]
    ensures ids[i] in LastIndexMap(ids) && LastIndexMap(ids)[ids[i]] == i
  {
    LastIndexMapIsLastIndex(ids);
  }

  // ------------------------------------------------------------ node pass

  /** The attribute dictionary built for one node before any link is seen. */
  function InitialAttrs(n: KarmaNode, getLabel: string -> string, getPrefix: string -> string)
    : Result<NodeAttrs>
  {
    if n.nodeType == "InternalNode" then
      match n.uri
      case None => Err(MissingUri(n.id))
      case Some(u) => Ok(NodeAttrs(ClassNode, getLabel(u), getLabel(n.id), getPrefix(u)))
    else Ok(NodeAttrs(DataNode, "", "", ""))
  }

  /** The node pass: one record per node, in order, or the first node's error. */
  function InitialNodes(nodes: seq<KarmaNode>, getLabel: string -> string,
                        getPrefix: string -> string): (r: Result<seq<NodeAttrs>>)
    ensures r.Ok? ==> |r.value| == |nodes|
  {
    if nodes == [] then Ok([])
    else
      match InitialNodes(nodes[..|nodes| - 1], getLabel, getPrefix)
      case Err(e) => Err(e)
      case Ok(attrs) =>
        match InitialAttrs(nodes[|nodes| - 1], getLabel, getPrefix)
        case Err(e) => Err(e)
        case Ok(a) => Ok(attrs + [a])
  }

  lemma {:induction false} InitialNodesErrPersists(nodes: seq<KarmaNode>, k: nat,
      getLabel: string -> string, getPrefix: string -> string, e: Error)
    requires k <= |nodes| && InitialNodes(nodes[..k], getLabel, getPrefix) == Err(e)
    ensures InitialNodes(nodes, getLabel, getPrefix) == Err(e)
    decreases |nodes| - k
  {
    if k < |nodes| {
      var front := nodes[..|nodes| - 1];
      assert front[..k] == nodes[..k];
      InitialNodesErrPersists(front, k, getLabel, getPrefix, e);
    } else {
      assert nodes[..k] == nodes;
    }
  }

  /** The node pass fails exactly when an InternalNode has no label URI. */
  lemma {:induction false} InitialNodesSpec(nodes: seq<KarmaNode>, getLabel: string -> string,
      getPrefix: string -> string)
    ensures InitialNodes(nodes, getLabel, getPrefix).Err? <==>
              exists i :: 0 <= i < |nodes| && InitialAttrs(nodes[i], getLabel, getPrefix).Err?
    ensures InitialNodes(nodes, getLabel, getPrefix).Ok? ==>
              forall i :: 0 <= i < |nodes| ==>
                InitialAttrs(nodes[i], getLabel, getPrefix) == Ok(InitialNodes(nodes, getLabel, getPrefix).value[i])
    decreases |nodes|
  {
    if nodes != [] {
      var front := nodes[..|nodes| - 1];
      InitialNodesSpec(front, getLabel, getPrefix);
      forall i | 0 <= i < |front| ensures front[i] == nodes[i] { }
    }
  }

  // ------------------------------------------------------------ link pass

  /** All keys of the node table are below `n`. */
  predicate IndexesBelow(nodeMap: map<string, nat>, n: nat)
  {
    forall k :: k in nodeMap ==> nodeMap[k] < n
  }

  /** Every edge runs between nodes below `n`. */
  predicate EdgesWithin(edges: seq<Edge>, n: nat)
  {
    forall i :: 0 <= i < |edges| ==> edges[i].src < n && edges[i].tgt < n
  }

  /** The edge built for link `l` under key `key`, or the error of its id. */
  function EdgeOf(l: KarmaLink, key: nat, nodeMap: map<string, nat>,
                  getLabel: string -> string, getPrefix: string -> string): Result<Edge>
  {
    var parts := Split(l.id, Separator);
    if |parts| != 3 then Err(BadLinkId(l.id))
    else if parts[0] !in nodeMap then Err(UnknownNode(parts[0]))
    else if parts[2] !in nodeMap then Err(UnknownNode(parts[2]))
    else Ok(Edge(nodeMap[parts[0]], nodeMap[parts[2]], key, l.id, l.linkType, l.weight,
                 getLabel(parts[1]), getPrefix(parts[1])))
  }

  /** The link pass: edge `i` for link `i`, or the first link's error. */
  function EdgesOf(links: seq<KarmaLink>, nodeMap: map<string, nat>, n: nat,
                   getLabel: string -> string, getPrefix: string -> string): (r: Result<seq<Edge>>)
    requires IndexesBelow(nodeMap, n)
    ensures r.Ok? ==> |r.value| == |links| && EdgesWithin(r.value, n)
  {
    if links == [] then Ok([])
    else
      match EdgesOf(links[..|links| - 1], nodeMap, n, getLabel, getPrefix)
      case Err(e) => Err(e)
      case Ok(edges) =>
        match EdgeOf(links[|links| - 1], |links| - 1, nodeMap, getLabel, getPrefix)
        case Err(e) => Err(e)
        case Ok(ed) => Ok(edges + [ed])
  }

  lemma {:induction false} EdgesOfErrPersists(links: seq<KarmaLink>, k: nat,
      nodeMap: map<string, nat>, n: nat, getLabel: string -> string,
      getPrefix: string -> string, e: Error)
    requires IndexesBelow(nodeMap, n)
    requires k <= |links| && EdgesOf(links[..k], nodeMap, n, getLabel, getPrefix) == Err(e)
    ensures EdgesOf(links, nodeMap, n, getLabel, getPrefix) == Err(e)
    decreases |links| - k
  {
    if k < |links| {
      var front := links[..|links| - 1];
      assert front[..k] == links[..k];
      EdgesOfErrPersists(front, k, nodeMap, n, getLabel, getPrefix, e);
    } else {
      assert links[..k] == links;
    }
  }

  /** The link pass fails exactly when some link's id is bad; otherwise edge i is link i's. */
  lemma {:induction false} EdgesOfSpec(links: seq<KarmaLink>, nodeMap: map<string, nat>, n: nat,
      getLabel: string -> string, getPrefix: string -> string)
    requires IndexesBelow(nodeMap, n)
    ensures EdgesOf(links, nodeMap, n, getLabel, getPrefix).Err? <==>
              exists i :: 0 <= i < |links| && EdgeOf(links[i], i, nodeMap, getLabel, getPrefix).Err?
    ensures EdgesOf(links, nodeMap, n, getLabel, getPrefix).Ok? ==>
              forall i :: 0 <= i < |links| ==>
                EdgeOf(links[i], i, nodeMap, getLabel, getPrefix)
                  == Ok(EdgesOf(links, nodeMap, n, getLabel, getPrefix).value[i])
    decreases |links|
  {
    if links != [] {
      var front := links[..|links| - 1];
      EdgesOfSpec(front, nodeMap, n, getLabel, getPrefix);
      forall i | 0 <= i < |front| ensures front[i] == links[i] { }
    }
  }

  // ------------------------------------------------------ label propagation

  /** The effect of one edge on the node attributes. */
  function Propagate(nodes: seq<NodeAttrs>, e: Edge): (r: seq<NodeAttrs>)
    requires e.src < |nodes| && e.tgt < |nodes|
    ensures |r| == |nodes|
  {
    if IsTerminal(e.linkType) then
      var s := nodes[e.src];
      nodes[e.tgt := nodes[e.tgt].(labelText := s.labelText + Separator + e.labelText,
                                   lab := s.lab + Separator + e.labelText,
                                   prefix := s.prefix)]
    else nodes
  }

  /** The effect of the edges, in order. */
  function PropagateAll(nodes: seq<NodeAttrs>, edges: seq<Edge>): (r: seq<NodeAttrs>)
    requires EdgesWithin(edges, |nodes|)
    ensures |r| == |nodes|
  {
    if edges == [] then nodes
    else Propagate(PropagateAll(nodes, edges[..|edges| - 1]), edges[|edges| - 1])
  }

  /** The id table after one more id. */
  lemma LastIndexMapStep(ids: seq<string>, i: nat)
    requires i < |ids|
    ensures LastIndexMap(ids[..i + 1]) == LastIndexMap(ids[..i])[ids[i] := i]
  {
    assert ids[..i + 1][..i] == ids[..i];
  }

  /** A link whose edge cannot be built ends the link pass with its error. */
  lemma EdgeErrEndsLinks(links: seq<KarmaLink>, i: nat, nodeMap: map<string, nat>, n: nat,
                         getLabel: string -> string, getPrefix: string -> string, e: Error)
    requires IndexesBelow(nodeMap, n) && i < |links|
    requires EdgesOf(links[..i], nodeMap, n, getLabel, getPrefix).Ok?
    requires EdgeOf(links[i], i, nodeMap, getLabel, getPrefix) == Err(e)
    ensures EdgesOf(links, nodeMap, n, getLabel, getPrefix) == Err(e)
  {
    assert links[..i + 1][..i] == links[..i];
    EdgesOfErrPersists(links, i + 1, nodeMap, n, getLabel, getPrefix, e);
  }

  /** The edge of the next link extends the edge list, and its relabelling extends the propagation. */
  lemma LinkLoopStep(links: seq<KarmaLink>, i: nat, nodeMap: map<string, nat>, nodes: seq<NodeAttrs>,
                     getLabel: string -> string, getPrefix: string -> string, edges: seq<Edge>, e: Edge)
    requires IndexesBelow(nodeMap, |nodes|) && i < |links|
    requires EdgesOf(links[..i], nodeMap, |nodes|, getLabel, getPrefix) == Ok(edges)
    requires EdgeOf(links[i], i, nodeMap, getLabel, getPrefix) == Ok(e)
    ensures EdgesOf(links[..i + 1], nodeMap, |nodes|, getLabel, getPrefix) == Ok(edges + [e])
    ensures e.src < |nodes| && e.tgt < |nodes| && EdgesWithin(edges, |nodes|)
    ensures PropagateAll(nodes, edges + [e]) == Propagate(PropagateAll(nodes, edges), e)
  {
    assert links[..i + 1][..i] == links[..i];
    assert (edges + [e])[..|edges|] == edges;
  }

  /** The edge `e` copies its source's attributes onto node `i`. */
  predicate Writes(e: Edge, i: nat)
  {
    IsTerminal(e.linkType) && e.tgt == i
  }

  /** A node no terminal edge points at keeps its attributes. */
  lemma {:induction false} PropagateUntouched(nodes: seq<NodeAttrs>, edges: seq<Edge>, i: nat)
    requires EdgesWithin(edges, |nodes|) && i < |nodes|
    requires forall k :: 0 <= k < |edges| ==> !Writes(edges[k], i)
    ensures PropagateAll(nodes, edges)[i] == nodes[i]
    decreases |edges|
  {
    if edges != [] {
      PropagateUntouched(nodes, edges[..|edges| - 1], i);
    }
  }

  /** Edges act one after the other. */
  lemma {:induction false} PropagateAllAppend(nodes: seq<NodeAttrs>, a: seq<Edge>, b: seq<Edge>)
    requires EdgesWithin(a + b, |nodes|)
    ensures EdgesWithin(a, |nodes|) && EdgesWithin(b, |nodes|)
    ensures PropagateAll(nodes, a + b) == PropagateAll(PropagateAll(nodes, a), b)
    decreases |b|
  {
    assert forall k :: 0 <= k < |a| ==> a[k] == (a + b)[k];
    assert forall k :: 0 <= k < |b| ==> b[k] == (a + b)[|a| + k];
    if b == [] {
      assert a + b == a;
    } else {
      var b' := b[..|b| - 1];
      assert (a + b)[..|a + b| - 1] == a + b';
      PropagateAllAppend(nodes, a, b');
    }
  }

  /**
   * The attributes of a node after all edges: when edge `j` is the last
   * terminal edge pointing at node `i`, the node carries the attributes its
   * source had when edge `j` was processed, joined with the edge's label;
   * its kind is kept.
   */
  lemma LastWriteWins(nodes: seq<NodeAttrs>, edges: seq<Edge>, i: nat, j: nat)
    requires EdgesWithin(edges, |nodes|) && i < |nodes|
    requires j < |edges| && Writes(edges[j], i)
    requires forall k :: j < k < |edges| ==> !Writes(edges[k], i)
    ensures EdgesWithin(edges[..j], |nodes|)
    ensures var s := PropagateAll(nodes, edges[..j])[edges[j].src];
            PropagateAll(nodes, edges)[i]
              == NodeAttrs(nodes[i].kind, s.labelText + Separator + edges[j].labelText,
                           s.lab + Separator + edges[j].labelText, s.prefix)
  {
    var a, b := edges[..j + 1], edges[j + 1..];
    assert edges == a + b;
    PropagateAllAppend(nodes, a, b);
    assert a[..j] == edges[..j] && a[j] == edges[j];
    var pre := PropagateAll(nodes, edges[..j]);
    var mid := PropagateAll(nodes, a);
    assert mid == Propagate(pre, edges[j]);
    var s := pre[edges[j].src];
    assert mid[i] == NodeAttrs(pre[i].kind, s.labelText + Separator + edges[j].labelText,
                               s.lab + Separator + edges[j].labelText, s.prefix);
    forall k | 0 <= k < |b| ensures !Writes(b[k], i) { assert b[k] == edges[j + 1 + k]; }
    PropagateUntouched(mid, b, i);
    KindKept(nodes, edges[..j], i);
  }

  /** Propagation never changes a node's kind. */
  lemma {:induction false} KindKept(nodes: seq<NodeAttrs>, edges: seq<Edge>, i: nat)
    requires EdgesWithin(edges, |nodes|) && i < |nodes|
    ensures PropagateAll(nodes, edges)[i].kind == nodes[i].kind
    decreases |edges|
  {
    if edges != [] {
      KindKept(nodes, edges[..|edges| - 1], i);
    }
  }

  // ------------------------------------------------------------ conversion

  /** What `convert_karma_graph` returns for `data`, or the exception it raises. */
  function Convert(data: KarmaData, getLabel: string -> string, getPrefix: string -> string)
    : Result<Graph>
  {
    var nodeMap := LastIndexMap(NodeIds(data.nodes));
    match InitialNodes(data.nodes, getLabel, getPrefix)
    case Err(e) => Err(e)
    case Ok(attrs) =>
      match EdgesOf(data.links, nodeMap, |data.nodes|, getLabel, getPrefix)
      case Err(e) => Err(e)
      case Ok(edges) =>
        Ok(Graph(PropagateAll(attrs, edges), edges, nodeMap, LastIndexMap(LinkIds(data.links))))
  }

  /**
   * The conversion as the source performs it: a node loop, then a link
   * loop, each numbering its items with a running counter and filling one
   * table and the graph in place.
   */
  method ConvertKarmaGraph(data: KarmaData, getLabel: string -> string,
                           getPrefix: string -> string) returns (r: Result<Graph>)
    ensures r == Convert(data, getLabel, getPrefix)
  {
    var attrs, nodeMap := AddNodes(data.nodes, getLabel, getPrefix);
    if attrs.Err? {
      return Err(attrs.error);
    }
    var err, g, edges, linkMap := AddLinks(data.links, nodeMap, attrs.value, getLabel, getPrefix);
    if err.Some? {
      return Err(err.value);
    }
    r := Ok(Graph(g, edges, nodeMap, linkMap));
  }

  /** The node loop: `node_map` and the initial attributes of every node. */
  method AddNodes(nodes: seq<KarmaNode>, getLabel: string -> string, getPrefix: string -> string)
    returns (r: Result<seq<NodeAttrs>>, nodeMap: map<string, nat>)
    ensures r == InitialNodes(nodes, getLabel, getPrefix)
    ensures r.Ok? ==> nodeMap == LastIndexMap(NodeIds(nodes))
  {
    nodeMap := map[];
    var attrs: seq<NodeAttrs> := [];
    var curId := 0;
    while curId < |nodes|
      invariant 0 <= curId <= |nodes|
      invariant nodeMap == LastIndexMap(NodeIds(nodes[..curId]))
      invariant InitialNodes(nodes[..curId], getLabel, getPrefix) == Ok(attrs)
    {
      var node := nodes[curId];
      assert NodeIds(nodes[..curId + 1])[..curId] == NodeIds(nodes[..curId]);
      assert nodes[..curId + 1][..curId] == nodes[..curId];
      nodeMap := nodeMap[node.id := curId];
      var nodeData;
      if node.nodeType == "InternalNode" {
        if node.uri.None? {
          InitialNodesErrPersists(nodes, curId + 1, getLabel, getPrefix, MissingUri(node.id));
          return Err(MissingUri(node.id)), nodeMap;
        }
        nodeData := NodeAttrs(ClassNode, getLabel(node.uri.value), getLabel(node.id),
                              getPrefix(node.uri.value));
      } else {
        nodeData := NodeAttrs(DataNode, "", "", "");
      }
      attrs := attrs + [nodeData];
      curId := curId + 1;
    }
    assert nodes[..curId] == nodes;
    r := Ok(attrs);
  }

  /** The edge of one link: its id split into source, uri and target, both ends looked up. */
  method LinkEdge(link: KarmaLink, curId: nat, nodeMap: map<string, nat>,
                  getLabel: string -> string, getPrefix: string -> string) returns (r: Result<Edge>)
    ensures r == EdgeOf(link, curId, nodeMap, getLabel, getPrefix)
  {
    var parts := Split(link.id, Separator);
    if |parts| != 3 {
      return Err(BadLinkId(link.id));
    }
    var source, uri, target := parts[0], parts[1], parts[2];
    if source !in nodeMap {
      return Err(UnknownNode(source));
    }
    if target !in nodeMap {
      return Err(UnknownNode(target));
    }
    r := Ok(Edge(nodeMap[source], nodeMap[target], curId, link.id, link.linkType,
                 link.weight, getLabel(uri), getPrefix(uri)));
  }

  /** The three attribute writes a terminal link makes on its target node. */
  method Relabel(g: seq<NodeAttrs>, e: Edge) returns (g': seq<NodeAttrs>)
    requires e.src < |g| && e.tgt < |g|
    ensures g' == Propagate(g, e)
  {
    g' := g;
    if e.linkType == "DataPropertyLink" || e.linkType == "ClassInstanceLink" {
      var s, t := e.src, e.tgt;
      g' := g'[t := g'[t].(labelText := g'[s].labelText + Separator + e.labelText)];
      g' := g'[t := g'[t].(lab := g'[s].lab + Separator + e.labelText)];
      g' := g'[t := g'[t].(prefix := g'[s].prefix)];
    }
  }

  /** The link loop: `link_map`, the edges, and the node attributes they propagate. */
  method AddLinks(links: seq<KarmaLink>, nodeMap: map<string, nat>, attrs: seq<NodeAttrs>,
                  getLabel: string -> string, getPrefix: string -> string)
    returns (err: Option<Error>, g: seq<NodeAttrs>, edges: seq<Edge>, linkMap: map<string, nat>)
    requires IndexesBelow(nodeMap, |attrs|)
    ensures err.Some? ==> EdgesOf(links, nodeMap, |attrs|, getLabel, getPrefix) == Err(err.value)
    ensures err.None? ==> EdgesOf(links, nodeMap, |attrs|, getLabel, getPrefix) == Ok(edges)
    ensures err.None? ==> g == PropagateAll(attrs, edges) && linkMap == LastIndexMap(LinkIds(links))
  {
    linkMap := map[];
    g := attrs;
    edges := [];
    var curId := 0;
    while curId < |links|
      invariant 0 <= curId <= |links|
      invariant linkMap == LastIndexMap(LinkIds(links)[..curId])
      invariant EdgesOf(links[..curId], nodeMap, |attrs|, getLabel, getPrefix) == Ok(edges)
      invariant g == PropagateAll(attrs, edges)
    {
      err, linkMap, g, edges := AddLink(links, curId, nodeMap, attrs, getLabel, getPrefix,
                                        linkMap, g, edges);
      if err.Some? {
        return;
      }
      curId := curId + 1;
    }
    assert links[..curId] == links;
    assert LinkIds(links)[..curId] == LinkIds(links);
    err := None;
  }

  /** One pass of the link loop, for link `curId`: its `link_map` entry, its edge and its relabelling. */
  method AddLink(links: seq<KarmaLink>, curId: nat, nodeMap: map<string, nat>, attrs: seq<NodeAttrs>,
                 getLabel: string -> string, getPrefix: string -> string,
                 linkMap: map<string, nat>, g: seq<NodeAttrs>, edges: seq<Edge>)
    returns (err: Option<Error>, linkMap': map<string, nat>, g': seq<NodeAttrs>, edges': seq<Edge>)
    requires IndexesBelow(nodeMap, |attrs|) && curId < |links|
    requires linkMap == LastIndexMap(LinkIds(links)[..curId])
    requires EdgesOf(links[..curId], nodeMap, |attrs|, getLabel, getPrefix) == Ok(edges)
    requires g == PropagateAll(attrs, edges)
    ensures linkMap' == LastIndexMap(LinkIds(links)[..curId + 1])
    ensures err.Some? ==> EdgesOf(links, nodeMap, |attrs|, getLabel, getPrefix) == Err(err.value)
    ensures err.None? ==>
              EdgesOf(links[..curId + 1], nodeMap, |attrs|, getLabel, getPrefix) == Ok(edges')
              && g' == PropagateAll(attrs, edges')
  {
    var link := links[curId];
    LastIndexMapStep(LinkIds(links), curId);
    linkMap' := linkMap[link.id := curId];
    var linkData := LinkEdge(link, curId, nodeMap, getLabel, getPrefix);
    if linkData.Err? {
      EdgeErrEndsLinks(links, curId, nodeMap, |attrs|, getLabel, getPrefix, linkData.error);
      return Some(linkData.error), linkMap', g, edges;
    }
    LinkLoopStep(links, curId, nodeMap, attrs, getLabel, getPrefix, edges, linkData.value);
    g' := Relabel(g, linkData.value);
    edges' := edges + [linkData.value];
    err := None;
  }

  // ------------------------------------------------- properties of Convert

  /** The three parts of `linkId` exist and both end parts name known nodes. */
  predicate LinkResolves(linkId: string, nodeIds: seq<string>)
  {
    var p := Split(linkId, Separator);
    |p| == 3 && p[0] in nodeIds && p[2] in nodeIds
  }

  /**
   * Dense numbering: nodes and links are numbered by array position (a
   * repeated id keeps its last position), edge `i` has key `i` and runs
   * between the nodes named by the first and third part of link `i`'s id.
   */
  lemma ConvertIndexing(data: KarmaData, getLabel: string -> string, getPrefix: string -> string)
    requires Convert(data, getLabel, getPrefix).Ok?
    ensures var g := Convert(data, getLabel, getPrefix).value;
      && |g.nodes| == |data.nodes| && |g.edges| == |data.links|
      && IsLastIndexMap(g.nodeMap, NodeIds(data.nodes))
      && IsLastIndexMap(g.linkMap, LinkIds(data.links))
      && forall i :: 0 <= i < |data.links| ==>
           var l, p := data.links[i], Split(data.links[i].id, Separator);
           && |p| == 3 && p[0] in g.nodeMap && p[2] in g.nodeMap
           && g.edges[i] == Edge(g.nodeMap[p[0]], g.nodeMap[p[2]], i, l.id, l.linkType,
                                 l.weight, getLabel(p[1]), getPrefix(p[1]))
  {
    LastIndexMapIsLastIndex(NodeIds(data.nodes));
    LastIndexMapIsLastIndex(LinkIds(data.links));
    EdgesOfSpec(data.links, LastIndexMap(NodeIds(data.nodes)), |data.nodes|, getLabel, getPrefix);
  }

  /**
   * The conversion raises exactly when an InternalNode lacks its label URI,
   * or a link id does not split into three parts whose ends are node ids.
   */
  lemma ConvertFails(data: KarmaData, getLabel: string -> string, getPrefix: string -> string)
    ensures Convert(data, getLabel, getPrefix).Err? <==>
      || (exists i :: 0 <= i < |data.nodes| &&
            data.nodes[i].nodeType == "InternalNode" && data.nodes[i].uri.None?)
      || (exists i :: 0 <= i < |data.links| && !LinkResolves(data.links[i].id, NodeIds(data.nodes)))
  {
    var ids := NodeIds(data.nodes);
    var nodeMap := LastIndexMap(ids);
    LastIndexMapIsLastIndex(ids);
    InitialNodesSpec(data.nodes, getLabel, getPrefix);
    EdgesOfSpec(data.links, nodeMap, |data.nodes|, getLabel, getPrefix);
    forall i | 0 <= i < |data.links|
      ensures EdgeOf(data.links[i], i, nodeMap, getLabel, getPrefix).Err? <==>
                !LinkResolves(data.links[i].id, ids)
    {
    }
  }

  /**
   * Node attributes: an InternalNode becomes a ClassNode labelled from its
   * URI and id, any other node a DataNode with empty labels; the kind is
   * never changed, and a node that no terminal link points at keeps these
   * attributes.
   */
  lemma ConvertNodeAttrs(data: KarmaData, getLabel: string -> string, getPrefix: string -> string,
                         i: nat)
    requires Convert(data, getLabel, getPrefix).Ok? && i < |data.nodes|
    ensures var g, n := Convert(data, getLabel, getPrefix).value, data.nodes[i];
      var initial := if n.nodeType == "InternalNode" && n.uri.Some?
                     then NodeAttrs(ClassNode, getLabel(n.uri.value), getLabel(n.id), getPrefix(n.uri.value))
                     else NodeAttrs(DataNode, "", "", "");
      && (n.nodeType == "InternalNode" ==> n.uri.Some?)
      && g.nodes[i].kind == initial.kind
      && ((forall k :: 0 <= k < |g.edges| ==> !Writes(g.edges[k], i)) ==> g.nodes[i] == initial)
  {
    InitialNodesSpec(data.nodes, getLabel, getPrefix);
    var attrs := InitialNodes(data.nodes, getLabel, getPrefix).value;
    var g := Convert(data, getLabel, getPrefix).value;
    KindKept(attrs, g.edges, i);
    if forall k :: 0 <= k < |g.edges| ==> !Writes(g.edges[k], i) {
      PropagateUntouched(attrs, g.edges, i);
    }
  }

  /**
   * Label propagation: when link `j` is the last terminal link whose target
   * is node `i`, node `i`'s label and lab are its source's label and lab AT
   * THAT POINT (after links 0..j-1) joined to the link's label by "---", and
   * its prefix is the source's prefix.
   */
  lemma ConvertPropagatesLabels(data: KarmaData, getLabel: string -> string,
                                getPrefix: string -> string, i: nat, j: nat)
    requires Convert(data, getLabel, getPrefix).Ok?
    requires var g := Convert(data, getLabel, getPrefix).value;
      && i < |g.nodes| && j < |g.edges| && Writes(g.edges[j], i)
      && forall k :: j < k < |g.edges| ==> !Writes(g.edges[k], i)
    ensures var g := Convert(data, getLabel, getPrefix).value;
      var attrs := InitialNodes(data.nodes, getLabel, getPrefix).value;
      && InitialNodes(data.nodes, getLabel, getPrefix).Ok?
      && EdgesWithin(g.edges[..j], |attrs|)
      && var s := PropagateAll(attrs, g.edges[..j])[g.edges[j].src];
         g.nodes[i] == NodeAttrs(attrs[i].kind, s.labelText + "---" + g.edges[j].labelText,
                                 s.lab + "---" + g.edges[j].labelText, s.prefix)
  {
    var attrs := InitialNodes(data.nodes, getLabel, getPrefix).value;
    var g := Convert(data, getLabel, getPrefix).value;
    LastWriteWins(attrs, g.edges, i, j);
  }

  /** The id Karma gives a link: source, uri and target joined by the separator. */
  function LinkId(source: string, uri: string, target: string): string
  {
    source + Separator + uri + Separator + target
  }

  /** A link id splits back into its three parts when none of them holds a dash. */
  lemma SplitLinkId(source: string, uri: string, target: string)
    requires '-' !in source && '-' !in uri && '-' !in target
    ensures Split(LinkId(source, uri, target), Separator) == [source, uri, target]
  {
    assert LinkId(source, uri, target) == source + Separator + (uri + Separator + target);
    SplitAtFirst(source, Separator, uri + Separator + target);
    SplitAtFirst(uri, Separator, target);
    SplitNoSeparator(target, Separator);
  }

  /**
   * The worked example: a class node "n1" for `ex:Person`, a data node "n2"
   * and a DataPropertyLink "n1---ex:name---n2".
   */
  function ExampleData(): KarmaData
  {
    KarmaData([KarmaNode("n1", "InternalNode", Some("ex:Person")), KarmaNode("n2", "DataNode", None)],
              [KarmaLink(LinkId("n1", "ex:name", "n2"), "DataPropertyLink", 1.0)])
  }

  lemma ExampleLinkResolves()
    ensures NodeIds(ExampleData().nodes) == ["n1", "n2"]
    ensures Split(ExampleData().links[0].id, Separator) == ["n1", "ex:name", "n2"]
  {
    SplitLinkId("n1", "ex:name", "n2");
  }

  lemma ExampleConverts(getLabel: string -> string, getPrefix: string -> string)
    ensures Convert(ExampleData(), getLabel, getPrefix).Ok?
  {
    var data := ExampleData();
    ExampleLinkResolves();
    var ids := NodeIds(data.nodes);
    forall i | 0 <= i < |data.nodes|
      ensures !(data.nodes[i].nodeType == "InternalNode" && data.nodes[i].uri.None?)
    {
    }
    forall i | 0 <= i < |data.links| ensures LinkResolves(data.links[i].id, ids) { assert i == 0; }
    ConvertFails(data, getLabel, getPrefix);
  }

  lemma ExampleEdge(getLabel: string -> string, getPrefix: string -> string)
    ensures Convert(ExampleData(), getLabel, getPrefix).Ok?
    ensures var g := Convert(ExampleData(), getLabel, getPrefix).value;
      |g.edges| == 1 && g.edges[0].src == 0 && g.edges[0].tgt == 1
      && g.edges[0].labelText == getLabel("ex:name")
  {
    var data := ExampleData();
    ExampleConverts(getLabel, getPrefix);
    ExampleLinkResolves();
    ConvertIndexing(data, getLabel, getPrefix);
    DistinctIdsIndexDensely(NodeIds(data.nodes), 0);
    DistinctIdsIndexDensely(NodeIds(data.nodes), 1);
  }

  lemma PersonNameLiteral()
    ensures "Person" + Separator + "name" == "Person---name"
  {
  }

  /** In the worked example, n1 is labelled "Person" and n2 "Person---name". */
  lemma PersonNameExample(getLabel: string -> string, getPrefix: string -> string)
    requires getLabel("ex:Person") == "Person" && getLabel("ex:name") == "name"
    ensures Convert(ExampleData(), getLabel, getPrefix).Ok?
    ensures Convert(ExampleData(), getLabel, getPrefix).value.nodes[0].labelText == "Person"
    ensures Convert(ExampleData(), getLabel, getPrefix).value.nodes[1].labelText == "Person---name"
  {
    var data := ExampleData();
    ExampleEdge(getLabel, getPrefix);
    var g := Convert(data, getLabel, getPrefix).value;
    ConvertNodeAttrs(data, getLabel, getPrefix, 0);
    forall k | 0 <= k < |g.edges| ensures !Writes(g.edges[k], 0) { assert k == 0; }
    ConvertPropagatesLabels(data, getLabel, getPrefix, 1, 0);
    InitialNodesSpec(data.nodes, getLabel, getPrefix);
    assert g.edges[..0] == [];
    PersonNameLiteral();
  }
}
