/** Record types of the graph pipeline and the conversion of an artist into
    a render-ready graph node (rust/graph-wasm/src/types.rs). */
module Types {

  datatype Option<+T> = None | Some(value: T)

  /** Rust's `u32`. */
  newtype u32 = x: int | 0 <= x < 0x1_0000_0000

  /** Rust's `idx as u32`: keeps the low 32 bits of a position. */
  function AsU32(i: nat): (r: u32)
    ensures i < 0x1_0000_0000 ==> r as int == i
  {
    (i % 0x1_0000_0000) as u32
  }

  /** An `f32` similarity weight or threshold; NaN is not modelled. */
  type Weight = real

  /** An `f64` layout coordinate. */
  type Coordinate = real

  /** An artist as delivered by the caller. */
  datatype Artist = Artist(
    id: Option<string>,
    name: string,
    mbid: Option<string>,
    url: Option<string>,
    image_url: Option<string>,
    listeners: Option<u32>,
    playcount: Option<u32>,
    tags: Option<seq<string>>,
    lastfm_url: Option<string>)

  /** A raw similarity edge between two artists, named by their names. */
  datatype Edge = Edge(source: string, target: string, weight: Weight)

  /** An artist extended with the flag and coordinates of the layout engine. */
  datatype GraphNode = GraphNode(
    id: Option<string>,
    name: string,
    mbid: Option<string>,
    url: Option<string>,
    image_url: Option<string>,
    listeners: Option<u32>,
    playcount: Option<u32>,
    tags: Option<seq<string>>,
    lastfm_url: Option<string>,
    is_center: bool,
    x: Option<Coordinate>,
    y: Option<Coordinate>,
    fx: Option<Coordinate>,
    fy: Option<Coordinate>)

  /** A link that names its endpoints. */
  datatype GraphLink = GraphLink(source: string, target: string, weight: Weight)

  /** A link whose endpoints are positions in an accompanying node list. */
  datatype ResolvedLink = ResolvedLink(source: u32, target: u32, weight: Weight)

  datatype ProcessedGraph = ProcessedGraph(nodes: seq<GraphNode>, links: seq<GraphLink>)

  datatype ResolvedGraph = ResolvedGraph(nodes: seq<GraphNode>, links: seq<ResolvedLink>)

  /** The artist fields a graph node carries. */
  function ArtistOf(n: GraphNode): Artist {
    Artist(n.id, n.name, n.mbid, n.url, n.image_url, n.listeners, n.playcount, n.tags, n.lastfm_url)
  }

  /** `From<Artist> for GraphNode`: total; every artist field is carried
      over unchanged, the node is not the center and has no position yet. */
  function ToGraphNode(a: Artist): (n: GraphNode)
    ensures ArtistOf(n) == a
    ensures !n.is_center
    ensures n.x == None && n.y == None && n.fx == None && n.fy == None
  {
    GraphNode(a.id, a.name, a.mbid, a.url, a.image_url, a.listeners, a.playcount, a.tags, a.lastfm_url,
              false, None, None, None, None)
  }
}
