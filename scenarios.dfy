/** The graphs of the unit tests of rust/graph-wasm/src/graph_processor.rs,
    evaluated on the model: first for any artists with the same pattern of
    keys, then for the test artists themselves. */
module Scenarios {
  import opened Types
  import opened Normalization
  import opened GraphSpec

  function TestArtist(id: string, name: string, listeners: u32): Artist {
    Artist(Some(id), name, None, None, None, Some(listeners), None, None, None)
  }

  function Beatles(): Artist { TestArtist("1", "The Beatles", 1000000) }
  function Radiohead(): Artist { TestArtist("2", "Radiohead", 500000) }
  function PinkFloyd(): Artist { TestArtist("3", "Pink Floyd", 800000) }

  /** A name whose characters lower-case one by one to `key` has that key. */
  lemma NormalizeTo(s: string, key: string)
    requires |key| == |s|
    requires forall i :: 0 <= i < |s| ==> LowerChar(s[i]) == key[i]
    ensures Normalize(s) == key
  {
    forall i | 0 <= i < |s|
      ensures Normalize(s)[i] == key[i]
    {
      NormalizeAt(s, i);
    }
  }

  lemma BeatlesKey()
    ensures Normalize("The Beatles") == "the beatles"
  {
    NormalizeTo("The Beatles", "the beatles");
  }

  lemma ShoutedBeatlesKey()
    ensures Normalize("THE BEATLES") == "the beatles"
  {
    NormalizeTo("THE BEATLES", "the beatles");
  }

  lemma RadioheadKey()
    ensures Normalize("Radiohead") == "radiohead"
  {
    NormalizeTo("Radiohead", "radiohead");
  }

  lemma ShoutedRadioheadKey()
    ensures Normalize("RADIOHEAD") == "radiohead"
  {
    NormalizeTo("RADIOHEAD", "radiohead");
  }

  lemma PinkFloydKey()
    ensures Normalize("Pink Floyd") == "pink floyd"
  {
    NormalizeTo("Pink Floyd", "pink floyd");
  }

  lemma PunctuationKey()
    ensures Normalize("AC/DC") == "ac/dc"
  {
    NormalizeTo("AC/DC", "ac/dc");
  }

  predicate DistinctKeys(a: Artist, b: Artist, c: Artist) {
    && Normalize(a.name) != Normalize(b.name)
    && Normalize(a.name) != Normalize(c.name)
    && Normalize(b.name) != Normalize(c.name)
  }

  /** The edges of the threshold test: a-b 0.8, a-c 0.3, b-c 0.6. */
  function TestEdges(a: Artist, b: Artist, c: Artist): seq<Edge> {
    [Edge(a.name, b.name, 0.8), Edge(a.name, c.name, 0.3), Edge(b.name, c.name, 0.6)]
  }

  lemma TestEdgesFiltered(a: Artist, b: Artist, c: Artist)
    ensures FilterEdges(TestEdges(a, b, c), 0.5) == [TestEdges(a, b, c)[0], TestEdges(a, b, c)[2]]
    ensures Endpoints(FilterEdges(TestEdges(a, b, c), 0.5)) == {Normalize(a.name), Normalize(b.name), Normalize(c.name)}
  {
    var edges := TestEdges(a, b, c);
    var e0, e1, e2 := edges[0], edges[1], edges[2];
    assert [e0][..0] == [] && [e0, e1][..1] == [e0] && edges[..2] == [e0, e1];
    assert FilterEdges([e0], 0.5) == [e0];
    assert FilterEdges([e0, e1], 0.5) == [e0];
    EndpointsOfTwo(e0, e2);
  }

  lemma EndpointsOfOne(e: Edge)
    ensures Endpoints([e]) == {Normalize(e.source), Normalize(e.target)}
  {
    assert [e][..0] == [];
  }

  lemma EndpointsOfTwo(e0: Edge, e1: Edge)
    ensures Endpoints([e0, e1]) == {Normalize(e0.source), Normalize(e0.target), Normalize(e1.source), Normalize(e1.target)}
  {
    assert [e0, e1][..1] == [e0];
    EndpointsOfOne(e0);
  }

  /** Three kept artists become three nodes, in order. */
  lemma ThreeKept(a: Artist, b: Artist, c: Artist, connected: set<string>, centerKey: Option<string>)
    requires Kept(Normalize(a.name), connected, centerKey)
    requires Kept(Normalize(b.name), connected, centerKey)
    requires Kept(Normalize(c.name), connected, centerKey)
    ensures FilterNodes([a, b, c], connected, centerKey) == [ToNode(a, centerKey), ToNode(b, centerKey), ToNode(c, centerKey)]
  {
    FilterNodesAllKept([a, b, c], connected, centerKey);
  }

  lemma NamesOfThree(na: GraphNode, nb: GraphNode, nc: GraphNode)
    ensures Names([na, nb, nc]) == {Normalize(na.name), Normalize(nb.name), Normalize(nc.name)}
  {
    assert [na][..0] == [] && [na, nb][..1] == [na] && [na, nb, nc][..2] == [na, nb];
    assert Names([na]) == {Normalize(na.name)};
    assert Names([na, nb]) == {Normalize(na.name), Normalize(nb.name)};
  }

  /** Three nodes get indices 0, 1 and 2, a later key overwriting an earlier. */
  lemma ThreeIndices(na: GraphNode, nb: GraphNode, nc: GraphNode)
    ensures IndexMap([na, nb, nc])
         == map[Normalize(na.name) := 0][Normalize(nb.name) := 1][Normalize(nc.name) := 2]
  {
    assert [na][..0] == [] && [na, nb][..1] == [na] && [na, nb, nc][..2] == [na, nb];
    assert IndexMap([na]) == map[Normalize(na.name) := 0];
  }

  /** Three artists with distinct keys, edges a-b 0.8, a-c 0.3, b-c 0.6 and
      threshold 0.5: the 0.3 edge is dropped, all three artists stay
      connected and two links are built. */
  lemma ThresholdScenario(a: Artist, b: Artist, c: Artist)
    requires DistinctKeys(a, b, c)
    ensures FilterEdges(TestEdges(a, b, c), 0.5) == [TestEdges(a, b, c)[0], TestEdges(a, b, c)[2]]
    ensures Process([a, b, c], TestEdges(a, b, c), None, 0.5)
         == ProcessedGraph([ToGraphNode(a), ToGraphNode(b), ToGraphNode(c)],
                           [GraphLink(a.name, b.name, 0.8), GraphLink(b.name, c.name, 0.6)])
  {
    var edges := TestEdges(a, b, c);
    var e0, e2 := edges[0], edges[2];
    var connected := {Normalize(a.name), Normalize(b.name), Normalize(c.name)};
    var nodes := [ToGraphNode(a), ToGraphNode(b), ToGraphNode(c)];
    TestEdgesFiltered(a, b, c);
    ThreeKept(a, b, c, connected, None);
    assert ToNode(a, None) == nodes[0] && ToNode(b, None) == nodes[1] && ToNode(c, None) == nodes[2];
    NamesOfThree(nodes[0], nodes[1], nodes[2]);
    assert [e0, e2][..1] == [e0] && [e0][..0] == [];
    assert BuildLinks([e0], connected) == [LinkOf(e0)];
  }

  /** The two links of the threshold test resolve to (0, 1) and (1, 2). */
  lemma ThresholdResolveScenario(a: Artist, b: Artist, c: Artist)
    requires DistinctKeys(a, b, c)
    ensures ProcessAndResolve([a, b, c], TestEdges(a, b, c), None, 0.5).links
         == [ResolvedLink(0, 1, 0.8), ResolvedLink(1, 2, 0.6)]
  {
    ThresholdScenario(a, b, c);
    var nodes := [ToGraphNode(a), ToGraphNode(b), ToGraphNode(c)];
    var l0, l2 := GraphLink(a.name, b.name, 0.8), GraphLink(b.name, c.name, 0.6);
    ThreeIndices(nodes[0], nodes[1], nodes[2]);
    var m := IndexMap(nodes);
    assert m[Normalize(a.name)] == 0 && m[Normalize(b.name)] == 1 && m[Normalize(c.name)] == 2;
    assert [l0, l2][..1] == [l0] && [l0][..0] == [];
    assert ResolveWith(m, [l0]) == [ResolvedLink(0, 1, 0.8)];
  }

  /** The test artists at threshold 0.5 keep 2 of 3 edges and all 3 nodes. */
  lemma TestGraphScenario()
    ensures TestEdges(Beatles(), Radiohead(), PinkFloyd())
         == [ Edge("The Beatles", "Radiohead", 0.8),
              Edge("The Beatles", "Pink Floyd", 0.3),
              Edge("Radiohead", "Pink Floyd", 0.6) ]
    ensures |FilterEdges(TestEdges(Beatles(), Radiohead(), PinkFloyd()), 0.5)| == 2
    ensures |Process([Beatles(), Radiohead(), PinkFloyd()], TestEdges(Beatles(), Radiohead(), PinkFloyd()), None, 0.5).nodes| == 3
    ensures ProcessAndResolve([Beatles(), Radiohead(), PinkFloyd()], TestEdges(Beatles(), Radiohead(), PinkFloyd()), None, 0.5).links
         == [ResolvedLink(0, 1, 0.8), ResolvedLink(1, 2, 0.6)]
  {
    BeatlesKey();
    RadioheadKey();
    PinkFloydKey();
    ThresholdScenario(Beatles(), Radiohead(), PinkFloyd());
    ThresholdResolveScenario(Beatles(), Radiohead(), PinkFloyd());
  }

  /** The center is kept without an incident edge and is the only node
      flagged as center. */
  lemma CenterScenario(a: Artist, b: Artist, c: Artist)
    requires DistinctKeys(a, b, c)
    ensures Process([a, b, c], [Edge(b.name, c.name, 0.8)], Some(a.name), 0.5)
         == ProcessedGraph([ToGraphNode(a).(is_center := true), ToGraphNode(b), ToGraphNode(c)],
                           [GraphLink(b.name, c.name, 0.8)])
  {
    var e := Edge(b.name, c.name, 0.8);
    var ck := CenterKey(Some(a.name));
    assert [e][..0] == [];
    assert FilterEdges([e], 0.5) == [e];
    var connected := Endpoints([e]);
    EndpointsOfOne(e);
    ThreeKept(a, b, c, connected, ck);
    var nodes := [ToGraphNode(a).(is_center := true), ToGraphNode(b), ToGraphNode(c)];
    assert ToNode(a, ck) == nodes[0] && ToNode(b, ck) == nodes[1] && ToNode(c, ck) == nodes[2];
    NamesOfThree(nodes[0], nodes[1], nodes[2]);
    assert BuildLinks([e], Names(nodes)) == [LinkOf(e)];
  }

  /** An edge endpoint that differs from an artist's name only in case
      connects that artist. */
  lemma CaseInsensitiveScenario(a: Artist, source: string, target: string)
    requires Normalize(source) == Normalize(a.name)
    ensures Process([a], [Edge(source, target, 0.8)], None, 0.5).nodes == [ToGraphNode(a)]
  {
    var e := Edge(source, target, 0.8);
    assert [e][..0] == [];
    assert FilterEdges([e], 0.5) == [e];
    EndpointsOfOne(e);
    FilterNodesAllKept([a], Endpoints([e]), None);
  }

  /** The edge endpoint "THE BEATLES" matches the artist "The Beatles". */
  lemma TestCaseInsensitiveScenario()
    ensures Process([Beatles()], [Edge("THE BEATLES", "Radiohead", 0.8)], None, 0.5).nodes
         == [ToGraphNode(Beatles())]
  {
    BeatlesKey();
    ShoutedBeatlesKey();
    CaseInsensitiveScenario(Beatles(), "THE BEATLES", "Radiohead");
  }

  /** Empty inputs give empty outputs, with or without a center. */
  lemma EmptyScenario(center: Option<string>, threshold: Weight)
    ensures Process([], [], center, threshold) == ProcessedGraph([], [])
    ensures ProcessAndResolve([], [], center, threshold) == ResolvedGraph([], [])
  {
  }

  /** Resolving a link a-b over the node list [a, b] gives (0, 1). */
  lemma ResolveScenario(a: GraphNode, b: GraphNode, w: Weight)
    requires Normalize(a.name) != Normalize(b.name)
    ensures Resolve([a, b], [GraphLink(a.name, b.name, w)]) == [ResolvedLink(0, 1, w)]
  {
    assert [a, b][..1] == [a] && [a][..0] == [];
    assert IndexMap([a]) == map[Normalize(a.name) := 0];
    var m := IndexMap([a, b]);
    assert m == map[Normalize(a.name) := 0, Normalize(b.name) := 1];
    var l := GraphLink(a.name, b.name, w);
    assert [l][..0] == [];
    assert ResolveWith(m, [l]) == ResolveWith(m, []) + [ResolvedLink(0, 1, w)];
  }

  /** The nodes "The Beatles" (the center) and "Radiohead" resolve the link
      between them to (0, 1) with its weight. */
  lemma TestResolveScenario()
    ensures Resolve([ToGraphNode(Beatles()).(is_center := true), ToGraphNode(Radiohead())],
                    [GraphLink("The Beatles", "Radiohead", 0.8)])
         == [ResolvedLink(0, 1, 0.8)]
  {
    BeatlesKey();
    RadioheadKey();
    ResolveScenario(ToGraphNode(Beatles()).(is_center := true), ToGraphNode(Radiohead()), 0.8);
  }

  /** Two kept nodes sharing a key both stay in the node list. */
  lemma DuplicateKeyScenario(a: Artist, twin: Artist, b: Artist)
    requires Normalize(a.name) == Normalize(twin.name) != Normalize(b.name)
    ensures Process([a, twin, b], [Edge(a.name, b.name, 0.9)], None, 0.5)
         == ProcessedGraph([ToGraphNode(a), ToGraphNode(twin), ToGraphNode(b)], [GraphLink(a.name, b.name, 0.9)])
  {
    var e := Edge(a.name, b.name, 0.9);
    assert [e][..0] == [];
    assert FilterEdges([e], 0.5) == [e];
    var connected := Endpoints([e]);
    EndpointsOfOne(e);
    ThreeKept(a, twin, b, connected, None);
    var nodes := [ToGraphNode(a), ToGraphNode(twin), ToGraphNode(b)];
    assert ToNode(a, None) == nodes[0] && ToNode(twin, None) == nodes[1] && ToNode(b, None) == nodes[2];
    NamesOfThree(nodes[0], nodes[1], nodes[2]);
    assert BuildLinks([e], Names(nodes)) == [LinkOf(e)];
  }

  /** A link to the shared key resolves to the later of the two nodes. */
  lemma DuplicateKeyResolveScenario(a: Artist, twin: Artist, b: Artist)
    requires Normalize(a.name) == Normalize(twin.name) != Normalize(b.name)
    ensures ProcessAndResolve([a, twin, b], [Edge(a.name, b.name, 0.9)], None, 0.5).links
         == [ResolvedLink(1, 2, 0.9)]
  {
    DuplicateKeyScenario(a, twin, b);
    var nodes := [ToGraphNode(a), ToGraphNode(twin), ToGraphNode(b)];
    var l := GraphLink(a.name, b.name, 0.9);
    ThreeIndices(nodes[0], nodes[1], nodes[2]);
    var m := IndexMap(nodes);
    assert m[Normalize(a.name)] == 1 && m[Normalize(b.name)] == 2;
    assert [l][..0] == [];
    assert ResolveWith(m, [l]) == ResolveWith(m, []) + [ResolvedLink(1, 2, 0.9)];
  }

  /** The test artist "The Beatles" and a twin "THE BEATLES" are both kept. */
  lemma TestDuplicateScenario()
    ensures ProcessAndResolve([Beatles(), TestArtist("4", "THE BEATLES", 1), Radiohead()],
                              [Edge("The Beatles", "Radiohead", 0.9)], None, 0.5)
         == ResolvedGraph([ToGraphNode(Beatles()), ToGraphNode(TestArtist("4", "THE BEATLES", 1)), ToGraphNode(Radiohead())],
                          [ResolvedLink(1, 2, 0.9)])
  {
    BeatlesKey();
    ShoutedBeatlesKey();
    RadioheadKey();
    DuplicateKeyScenario(Beatles(), TestArtist("4", "THE BEATLES", 1), Radiohead());
    DuplicateKeyResolveScenario(Beatles(), TestArtist("4", "THE BEATLES", 1), Radiohead());
  }
}
