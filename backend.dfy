/** What the tools send to the graph engine and what comes back. The engine itself is not part
    of this model: a tool receives it as a function from request to response. */
module Backend {
  import opened Json

  /** A value in the parameter map of an installed query. */
  datatype ParamValue = PStr(s: string) | PInt(i: int)

  /** `runInstalledQuery(query, params)` */
  datatype QueryRequest = QueryRequest(query: string, params: map<string, ParamValue>)

  /** One result block: aggregation keys such as `@@result` or `@@paths` mapped to their lists. */
  type Block = map<string, seq<Json>>

  /** Either the call raised (with the text `str(e)` of the exception), or it returned its blocks. */
  datatype QueryResponse = QueryFailed(description: string) | QueryResult(blocks: seq<Block>)

  type QueryBackend = QueryRequest -> QueryResponse

  /** One vertex of a `getVertices` listing: its id and its attributes. */
  type Vertex = (string, Fields)

  /** Either the listing raised, or it returned the vertices in the order of the returned dict. */
  datatype VertexResponse = ListingFailed(description: string) | Vertices(vertices: seq<Vertex>)

  /** `getVertices(vertexType)` */
  type VertexBackend = string -> VertexResponse
}
