/** The three exported pipelines of rust/graph-wasm/src/graph_processor.rs,
    as loops over already-decoded lists, each proved to compute the
    corresponding function of GraphSpec. */
module GraphProcessor {
  import opened Types
  import opened Normalization
  import opened GraphSpec

  /** Keeps the edges at or above the threshold and collects the keys of
      their endpoints (the first loop of both processing pipelines). */
  method FilterEdgesAndConnect(edges: seq<Edge>, threshold: Weight)
    returns (filteredEdges: seq<Edge>, connected: set<string>)
    ensures filteredEdges == FilterEdges(edges, threshold)
    ensures connected == Endpoints(filteredEdges)
  {
    filteredEdges, connected := [], {};
    for i := 0 to |edges|
      invariant filteredEdges == FilterEdges(edges[..i], threshold)
      invariant connected == Endpoints(filteredEdges)
    {
      var edge := edges[i];
      assert edges[..i + 1] == edges[..i] + [edge];
      if edge.weight >= threshold {
        connected := connected + {Normalize(edge.source)};
        connected := connected + {Normalize(edge.target)};
        filteredEdges := filteredEdges + [edge];
        assert (filteredEdges)[..|filteredEdges| - 1] == FilterEdges(edges[..i], threshold);
      }
    }
    assert edges[..|edges|] == edges;
  }

  /** The node loop of `process_graph_data`: keeps the nodes whose key is
      connected or is the center's, and records the kept keys in a map that
      is only ever asked which keys it holds. */
  method FilterNodesAndKeys(nodes: seq<Artist>, connected: set<string>, centerNormalized: Option<string>)
    returns (filteredNodes: seq<GraphNode>, nodeMap: map<string, nat>)
    ensures filteredNodes == FilterNodes(nodes, connected, centerNormalized)
    ensures nodeMap.Keys == Names(filteredNodes)
  {
    filteredNodes, nodeMap := [], map[];
    for i := 0 to |nodes|
      invariant filteredNodes == FilterNodes(nodes[..i], connected, centerNormalized)
      invariant nodeMap.Keys == Names(filteredNodes)
    {
      var node := nodes[i];
      FilterNodesStep(nodes, i, connected, centerNormalized);
      var normalized := Normalize(node.name);
      var isConnected := normalized in connected;
      var isCenter := centerNormalized.Some? && normalized == centerNormalized.value;
      if isConnected || isCenter {
        var idx := |filteredNodes|;
        ghost var keys := nodeMap.Keys;
        nodeMap := nodeMap[normalized := idx];
        assert nodeMap.Keys == keys + {normalized};
        var graphNode := ToGraphNode(node).(is_center := isCenter);
        assert graphNode == ToNode(node, centerNormalized);
        NamesStep(filteredNodes, graphNode);
        filteredNodes := filteredNodes + [graphNode];
      }
    }
    assert nodes[..|nodes|] == nodes;
  }

  /** The link loop of `process_graph_data`: a link, in the edge's casing,
      for each surviving edge whose two keys belong to kept nodes. */
  method BuildGraphLinks(filteredEdges: seq<Edge>, nodeMap: map<string, nat>)
    returns (graphLinks: seq<GraphLink>)
    ensures graphLinks == BuildLinks(filteredEdges, nodeMap.Keys)
  {
    graphLinks := [];
    for i := 0 to |filteredEdges|
      invariant graphLinks == BuildLinks(filteredEdges[..i], nodeMap.Keys)
    {
      var edge := filteredEdges[i];
      assert filteredEdges[..i + 1] == filteredEdges[..i] + [edge];
      var sourceNorm := Normalize(edge.source);
      var targetNorm := Normalize(edge.target);
      if sourceNorm in nodeMap && targetNorm in nodeMap {
        graphLinks := graphLinks + [GraphLink(edge.source, edge.target, edge.weight)];
      }
    }
    assert filteredEdges[..|filteredEdges|] == filteredEdges;
  }

  /** `process_graph_data`: filter edges, then nodes, then build links. */
  method ProcessGraphData(nodes: seq<Artist>, edges: seq<Edge>, center: Option<string>, threshold: Weight)
    returns (g: ProcessedGraph)
    ensures g == Process(nodes, edges, center, threshold)
  {
    var centerNormalized := CenterKey(center);
    var filteredEdges, connected := FilterEdgesAndConnect(edges, threshold);
    var filteredNodes, nodeMap := FilterNodesAndKeys(nodes, connected, centerNormalized);
    var graphLinks := BuildGraphLinks(filteredEdges, nodeMap);
    g := ProcessedGraph(filteredNodes, graphLinks);
  }

  /** `resolve_links`: map each node's key to its position (a later node
      overwrites an earlier one with the same key), then turn each link into
      a pair of indices, dropping links with an unknown endpoint. */
  method ResolveLinks(nodes: seq<GraphNode>, links: seq<GraphLink>) returns (resolved: seq<ResolvedLink>)
    ensures resolved == Resolve(nodes, links)
  {
    var nodeIndices: map<string, u32> := map[];
    for idx := 0 to |nodes|
      invariant nodeIndices == IndexMap(nodes[..idx])
    {
      assert nodes[..idx + 1][..idx] == nodes[..idx];
      nodeIndices := nodeIndices[Normalize(nodes[idx].name) := AsU32(idx)];
    }
    assert nodes[..|nodes|] == nodes;

    resolved := [];
    for i := 0 to |links|
      invariant resolved == ResolveWith(nodeIndices, links[..i])
    {
      var link := links[i];
      assert links[..i + 1] == links[..i] + [link];
      var sourceNorm := Normalize(link.source);
      var targetNorm := Normalize(link.target);
      if sourceNorm in nodeIndices && targetNorm in nodeIndices {
        resolved := resolved + [ResolvedLink(nodeIndices[sourceNorm], nodeIndices[targetNorm], link.weight)];
      }
    }
    assert links[..|links|] == links;
  }

  /** The node loop of `process_and_resolve_graph`: keeps the nodes whose
      key is connected or is the center's, and gives each kept node's key
      its position in the output (a later node overwrites an earlier one). */
  method FilterNodesAndIndex(nodes: seq<Artist>, connected: set<string>, centerNormalized: Option<string>)
    returns (filteredNodes: seq<GraphNode>, nodeIndices: map<string, u32>)
    ensures filteredNodes == FilterNodes(nodes, connected, centerNormalized)
    ensures nodeIndices == IndexMap(filteredNodes)
  {
    filteredNodes, nodeIndices := [], map[];
    for i := 0 to |nodes|
      invariant filteredNodes == FilterNodes(nodes[..i], connected, centerNormalized)
      invariant nodeIndices == IndexMap(filteredNodes)
    {
      var node := nodes[i];
      FilterNodesStep(nodes, i, connected, centerNormalized);
      var normalized := Normalize(node.name);
      var isConnected := normalized in connected;
      var isCenter := centerNormalized.Some? && normalized == centerNormalized.value;
      if isConnected || isCenter {
        var idx := AsU32(|filteredNodes|);
        nodeIndices := nodeIndices[normalized := idx];
        var graphNode := ToGraphNode(node).(is_center := isCenter);
        assert graphNode == ToNode(node, centerNormalized);
        IndexMapStep(filteredNodes, graphNode);
        filteredNodes := filteredNodes + [graphNode];
      }
    }
    assert nodes[..|nodes|] == nodes;
  }

  /** The link loop of `process_and_resolve_graph`: resolves each edge
      whose two keys have an index straight to a pair of indices. This
      equals building the string-keyed links first and resolving those. */
  method ResolveEdges(filteredEdges: seq<Edge>, nodeIndices: map<string, u32>)
    returns (resolvedLinks: seq<ResolvedLink>)
    ensures resolvedLinks == ResolveWith(nodeIndices, BuildLinks(filteredEdges, nodeIndices.Keys))
  {
    // `links` is the string-keyed list the fused pass never builds.
    resolvedLinks := [];
    ghost var links: seq<GraphLink> := [];
    for i := 0 to |filteredEdges|
      invariant links == BuildLinks(filteredEdges[..i], nodeIndices.Keys)
      invariant resolvedLinks == ResolveWith(nodeIndices, links)
    {
      var edge := filteredEdges[i];
      assert filteredEdges[..i + 1] == filteredEdges[..i] + [edge];
      var sourceNorm := Normalize(edge.source);
      var targetNorm := Normalize(edge.target);
      if sourceNorm in nodeIndices && targetNorm in nodeIndices {
        ghost var previous := links;
        links := links + [LinkOf(edge)];
        assert links[..|links| - 1] == previous;
        resolvedLinks := resolvedLinks + [ResolvedLink(nodeIndices[sourceNorm], nodeIndices[targetNorm], edge.weight)];
      }
    }
    assert filteredEdges[..|filteredEdges|] == filteredEdges;
  }

  /** `process_and_resolve_graph`: one pass that assigns indices while
      filtering nodes and resolves surviving edges directly, without the
      intermediate string-keyed links; it equals `process_graph_data`
      followed by `resolve_links`. */
  method ProcessAndResolveGraph(nodes: seq<Artist>, edges: seq<Edge>, center: Option<string>, threshold: Weight)
    returns (g: ResolvedGraph)
    ensures g == ProcessAndResolve(nodes, edges, center, threshold)
  {
    var centerNormalized := CenterKey(center);
    var filteredEdges, connected := FilterEdgesAndConnect(edges, threshold);

    var filteredNodes, nodeIndices := FilterNodesAndIndex(nodes, connected, centerNormalized);
    assert filteredNodes == Process(nodes, edges, center, threshold).nodes;
    IndexMapKeys(filteredNodes);

    var resolvedLinks := ResolveEdges(filteredEdges, nodeIndices);

    g := ResolvedGraph(filteredNodes, resolvedLinks);
  }
}
