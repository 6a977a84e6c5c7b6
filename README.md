# graph-wasm graph processing, modelled in Dafny

This project models the graph-processing core of the `graph-wasm` crate
(`rust/graph-wasm/src/graph_processor.rs` and `rust/graph-wasm/src/types.rs`).
The crate turns a list of artists and a list of weighted similarity edges
into a graph for a force-directed layout:

- `process_graph_data` keeps the edges whose weight reaches the threshold
  (inclusive). It keeps the artists that are an endpoint of a surviving edge
  or that are the requested center artist, marks the center, and builds
  string-keyed links between kept nodes.
- `resolve_links` maps each node's normalised name to its position and
  rewrites string-keyed links into index pairs. A link with an unknown
  endpoint is dropped.
- `process_and_resolve_graph` does both in one pass, without building the
  string-keyed links.
- `normalize` lower-cases a name. Every identity comparison goes through it.
- `From<Artist> for GraphNode` copies an artist into a layout node that is not
  the center and has no position.

The model has five modules:

- `Types` holds the record types and the artist-to-node conversion.
- `Normalization` holds the identity key.
- `GraphSpec` defines each pipeline as a recursive function over decoded
  lists and proves its properties. Those properties are inclusive threshold,
  membership in both directions, input order, no de-duplication, referential
  integrity, valid indices and dropped unknown endpoints.
- `GraphProcessor` writes the three pipelines as the Rust loops. Each
  method is proved equal to its `GraphSpec` function. The fused pipeline is
  proved equal to `process_graph_data` followed by `resolve_links`.
- `Scenarios` states the unit tests' scenarios of `graph_processor.rs` as lemmas.

**Duplicate names.** When two nodes share a normalised name, the index map
holds the position of the LATER one, because `HashMap::insert` overwrites.
That holds in `resolve_links` and in the fused pipeline.
`GraphSpec.IndexMapLast` states the rule, and
`Scenarios.DuplicateKeyResolveScenario` shows a link to the shared name
resolving to the second twin.

## Model

| member | source | states |
|---|---|---|
| Types.AsU32 | rust/graph-wasm/src/graph_processor.rs:193 | `idx as u32` keeps the low 32 bits; below 2^32 the position is unchanged |
| Types.ToGraphNode | rust/graph-wasm/src/types.rs:86-105 | the node carries exactly the artist's nine fields, is not the center, and has no x, y, fx or fy |
| Normalization.Normalize | rust/graph-wasm/src/graph_processor.rs:7-9 | the identity key of a name: a string of the same length, lower-cased character by character (see NormalizeAt) |
| Normalization.NormalizeAt | rust/graph-wasm/src/graph_processor.rs:7-9 | the key has the name's length and is its character-by-character lower-casing |
| Normalization.NormalizeIsLowerCase | rust/graph-wasm/src/graph_processor.rs:7-9 | a key contains no upper-case letter |
| Normalization.NormalizeFixesLowerCase | rust/graph-wasm/src/graph_processor.rs:7-9 | a name without upper-case letters is its own key |
| Normalization.NormalizeIdempotent | rust/graph-wasm/src/graph_processor.rs:7-9 | normalising a key again changes nothing |
| Normalization.NormalizeIgnoresCase | rust/graph-wasm/src/graph_processor.rs:7-9 | a name and its upper-cased form have the same key |
| GraphSpec.FilterEdges | rust/graph-wasm/src/graph_processor.rs:42-48 | the edges at or above the threshold, in input order, never more than the input; see FilterEdgesMember and FilterEdgesAppend |
| GraphSpec.Endpoints | rust/graph-wasm/src/graph_processor.rs:44-45 | the connected set: it contains both normalised endpoints of every given edge, and nothing else by EndpointsMember |
| GraphSpec.CenterKey | rust/graph-wasm/src/graph_processor.rs:33 | the normalised center, present exactly when a center is given and of the same length as its name |
| GraphSpec.FilterNodes | rust/graph-wasm/src/graph_processor.rs:62-77 | the kept artists as nodes with their center flag, in input order, never more than the input; see FilterNodesMember, FilterNodesAppend and FilterNodesAllKept |
| GraphSpec.BuildLinks | rust/graph-wasm/src/graph_processor.rs:82-94 | the links, one per edge whose two keys are among the names, never more than the edges; see BuildLinksMember and BuildLinksAppend |
| GraphSpec.Process | rust/graph-wasm/src/graph_processor.rs:21-103 | the processed graph, with no more nodes than artists and no more links than edges; see ProcessNodesMember and ProcessLinksIntegrity |
| GraphSpec.IndexMap | rust/graph-wasm/src/graph_processor.rs:123-125 | the name-to-position map; below 2^32 nodes every index is a position of the list; see IndexMapKeys and IndexMapLast |
| GraphSpec.ResolveWith | rust/graph-wasm/src/graph_processor.rs:130-144 | the links resolved through a map, never more than the input links; see ResolveWithMember, ResolveWithAppend and ResolveWithTotal |
| GraphSpec.Resolve | rust/graph-wasm/src/graph_processor.rs:113-148 | `resolve_links` on decoded inputs, never more resolved links than links; see ResolveValid and ResolveDropsUnknown |
| GraphSpec.ProcessAndResolve | rust/graph-wasm/src/graph_processor.rs:156-228 | the processed graph's nodes with its links resolved, never more links than edges; see ProcessAndResolveIntegrity |
| GraphSpec.FilterEdgesMember | rust/graph-wasm/src/graph_processor.rs:42-48 | an edge survives iff it is an input edge with weight >= threshold, so an edge at exactly the threshold survives |
| GraphSpec.FilterEdgesAppend | rust/graph-wasm/src/graph_processor.rs:42-48 | edge filtering distributes over concatenation, so survivors keep input order |
| GraphSpec.EndpointsMember | rust/graph-wasm/src/graph_processor.rs:44-45 | a key is connected iff it is the normalised source or target of one of the edges |
| GraphSpec.FilterNodesMember | rust/graph-wasm/src/graph_processor.rs:62-77 | a node is output iff it comes from an input artist whose key is connected or is the center key; it carries that artist's fields and its center flag |
| GraphSpec.FilterNodesAppend | rust/graph-wasm/src/graph_processor.rs:62-77 | node filtering distributes over concatenation, so kept nodes keep input order |
| GraphSpec.FilterNodesAllKept | rust/graph-wasm/src/graph_processor.rs:62-77 | no de-duplication: when every artist is kept, the output has one node per artist at the same position, even for shared keys |
| GraphSpec.NamesMember | rust/graph-wasm/src/graph_processor.rs:70-71 | the keys recorded for the kept nodes are exactly the normalised names at their positions |
| GraphSpec.BuildLinksMember | rust/graph-wasm/src/graph_processor.rs:82-94 | a link is built iff it copies, in the original casing and weight, a surviving edge whose two keys belong to kept nodes |
| GraphSpec.BuildLinksAppend | rust/graph-wasm/src/graph_processor.rs:82-94 | link building distributes over concatenation, so links follow edge order |
| GraphSpec.IndexMapKeys | rust/graph-wasm/src/graph_processor.rs:123-125 | the index map has a key for exactly the normalised names of the node list |
| GraphSpec.IndexMapLast | rust/graph-wasm/src/graph_processor.rs:123-125 | a key's index is a valid position holding that key, and no later position holds it (last occurrence wins) |
| GraphSpec.IndexMapDistinct | rust/graph-wasm/src/graph_processor.rs:123-125 | with pairwise distinct keys, the node at position i gets index i |
| GraphSpec.ResolveWithMember | rust/graph-wasm/src/graph_processor.rs:130-144 | a resolved link is produced iff some link has both keys in the map; it holds their indices and that link's weight |
| GraphSpec.ResolveWithAppend | rust/graph-wasm/src/graph_processor.rs:130-144 | resolution distributes over concatenation, so resolved links keep link order |
| GraphSpec.ResolveWithTotal | rust/graph-wasm/src/graph_processor.rs:130-144 | when every endpoint is known, no link is dropped and the i-th resolved link is the i-th link's |
| GraphSpec.ResolveDropsUnknown | rust/graph-wasm/src/graph_processor.rs:134-143 | a link with an endpoint naming no node is dropped and the other links are unaffected |
| GraphSpec.ResolveValid | rust/graph-wasm/src/graph_processor.rs:123-144 | every resolved index is a valid position whose node has the key of an input link's endpoint, and the weight is that link's |
| GraphSpec.ProcessNodesMember | rust/graph-wasm/src/graph_processor.rs:33-77 | a node is in the processed graph iff its artist is an endpoint of an input edge with weight >= threshold or is the center; is_center iff its key equals the normalised center |
| GraphSpec.ProcessLinksIntegrity | rust/graph-wasm/src/graph_processor.rs:82-94 | every processed link copies an input edge at or above the threshold, and both its endpoints name a node of the graph |
| GraphSpec.ProcessAndResolveIntegrity | rust/graph-wasm/src/graph_processor.rs:123-144 | resolving a processed graph drops no link; the i-th resolved link keeps the i-th link's weight and points at valid positions whose nodes carry its endpoints' keys |
| GraphProcessor.FilterEdgesAndConnect | rust/graph-wasm/src/graph_processor.rs:42-48 | the edge loop returns the filtered edges and exactly the keys of their endpoints |
| GraphProcessor.FilterNodesAndKeys | rust/graph-wasm/src/graph_processor.rs:58-77 | the node loop returns the filtered nodes, and the node map's keys are exactly their names |
| GraphProcessor.BuildGraphLinks | rust/graph-wasm/src/graph_processor.rs:79-94 | the link loop returns the links built against the node map's keys |
| GraphProcessor.ProcessGraphData | rust/graph-wasm/src/graph_processor.rs:21-103 | `process_graph_data` returns the graph that `GraphSpec.Process` defines |
| GraphProcessor.ResolveLinks | rust/graph-wasm/src/graph_processor.rs:113-148 | `resolve_links` returns the links that `GraphSpec.Resolve` defines |
| GraphProcessor.FilterNodesAndIndex | rust/graph-wasm/src/graph_processor.rs:181-200 | the fused node loop returns the filtered nodes and the index map `resolve_links` would build from them |
| GraphProcessor.ResolveEdges | rust/graph-wasm/src/graph_processor.rs:202-219 | resolving edges directly equals building the string-keyed links and resolving them |
| GraphProcessor.ProcessAndResolveGraph | rust/graph-wasm/src/graph_processor.rs:156-228 | the fused pipeline equals `process_graph_data` followed by `resolve_links` on its output |
| Scenarios.BeatlesKey | rust/graph-wasm/src/graph_processor.rs:294 | "The Beatles" normalises to "the beatles" |
| Scenarios.ShoutedRadioheadKey | rust/graph-wasm/src/graph_processor.rs:295 | "RADIOHEAD" normalises to "radiohead" |
| Scenarios.PinkFloydKey | rust/graph-wasm/src/graph_processor.rs:296 | "Pink Floyd" normalises to "pink floyd" |
| Scenarios.PunctuationKey | rust/graph-wasm/src/graph_processor.rs:297 | "AC/DC" normalises to "ac/dc" |
| Scenarios.RadioheadKey | rust/graph-wasm/src/graph_processor.rs:318 | "Radiohead" normalises to "radiohead" |
| Scenarios.ShoutedBeatlesKey | rust/graph-wasm/src/graph_processor.rs:367 | "THE BEATLES" normalises to "the beatles" |
| Scenarios.ThresholdScenario | rust/graph-wasm/src/graph_processor.rs:301-320 | three artists with distinct keys at threshold 0.5: the 0.3 edge is dropped, all three nodes are kept and the links a-b and b-c are built |
| Scenarios.ThresholdResolveScenario | rust/graph-wasm/src/graph_processor.rs:301-320 | the same graph resolves to links (0, 1, 0.8) and (1, 2, 0.6) |
| Scenarios.TestGraphScenario | rust/graph-wasm/src/graph_processor.rs:272-320 | the test artists and edges keep 2 edges and 3 nodes and resolve to (0, 1, 0.8) and (1, 2, 0.6) |
| Scenarios.CenterScenario | rust/graph-wasm/src/graph_processor.rs:323-350 | the center is kept without any incident edge, is the only node flagged as center, and all three artists are included |
| Scenarios.CaseInsensitiveScenario | rust/graph-wasm/src/graph_processor.rs:353-381 | an edge endpoint that differs from an artist's name only in case connects that artist |
| Scenarios.TestCaseInsensitiveScenario | rust/graph-wasm/src/graph_processor.rs:366-380 | the endpoint "THE BEATLES" connects the artist "The Beatles" |
| Scenarios.EmptyScenario | rust/graph-wasm/src/graph_processor.rs:384-418 | empty inputs give no nodes and no links, with any center and threshold |
| Scenarios.ResolveScenario | rust/graph-wasm/src/graph_processor.rs:421-491 | the link a-b over nodes [a, b] with distinct keys resolves to (0, 1) with its weight |
| Scenarios.TestResolveScenario | rust/graph-wasm/src/graph_processor.rs:421-491 | the test nodes "The Beatles" and "Radiohead" resolve their link to (0, 1, 0.8) |
| Scenarios.DuplicateKeyScenario | rust/graph-wasm/src/graph_processor.rs:62-77 | two connected artists sharing a key both stay in the node list, at their own positions |
| Scenarios.DuplicateKeyResolveScenario | rust/graph-wasm/src/graph_processor.rs:193-194 | a link to the shared key resolves to the later twin's position |
| Scenarios.TestDuplicateScenario | rust/graph-wasm/src/graph_processor.rs:185-219 | "The Beatles" and a twin "THE BEATLES" are both kept, and the link to Radiohead resolves to (1, 2, 0.9) |

## Left out

- The wasm boundary is not modelled: serde decoding of `JsValue`, its error path (`Failed to parse …`) and the serialisation of the result. The model starts from decoded lists and returns records.
- The serde field renames (`lastfm_mbid`, `isCenter`) only affect the wire format.
- `f32` weights and thresholds and `f64` coordinates are modelled as exact reals. NaN, rounding and the `f32::EPSILON` comparison in the tests are not modelled.
- Normalization.Normalize: modelled as ASCII case folding. Rust's `to_lowercase` also folds non-ASCII letters and can change a string's length.
- The `norm_cache` of `process_graph_data` is not modelled. It only memoises `normalize`, so its lookup returns the same key a direct call does.
- Capacity reservations and the FxHash hashing are not modelled. They affect speed, not results.
- `process_graph_data`'s `node_map` is modelled as a map whose keys alone are ever consulted. Its stored positions are never read.
- GraphSpec.IndexMapLast: requires at most 2^32 nodes. Beyond that `idx as u32` wraps, which cannot happen within a 32-bit wasm address space.
- GraphSpec.IndexMapDistinct: requires at most 2^32 nodes, for the same reason.
- GraphSpec.ResolveValid: requires at most 2^32 nodes, for the same reason.
- GraphSpec.ProcessAndResolveIntegrity: requires at most 2^32 nodes, for the same reason.
- `rust/graph-wasm/src/lib.rs` is not part of this model. It holds the allocator, the panic hook, a version string, a health check and benchmark helpers.
- `verification/verify_slider.py` is not part of this model.
- The serde tests of `types.rs` check the JSON encoding, which is not modelled.
