/** The values a traversal carries: primitives, strings, blobs and opaque
    payloads (`Object`), graph elements with an attached object, and the
    `Traverser` record that flows through the dataflow.

    The source recognises opaque payloads by run-time downcasts; here the
    payload kinds the encoder distinguishes are a closed tagged union. */
module Objects {
  import opened Numeric
  import opened Outcomes
  import opened Structure

  datatype Primitives =
    | Byte(b: U8)
    | Integer(i: I32)
    | Long(l: I64)
    | Float(f: Float64)

  datatype Object =
    | Primitive(prim: Primitives)
    | String(text: string)
    | Blob(bytes: seq<U8>)
    | UnknownOwned(payload: Payload)
    | UnknownRef(description: string)

  /** What an owned opaque object can turn out to be when downcast. */
  datatype Payload =
    | PathResult(path: seq<PathItem>)           // ResultPath
    | PropertyResult(property: ResultProperty)  // ResultProperty
    | GroupCountSync                            // ShadeSync<(HashKey<Traverser>, u64)>
    | CountSync(count: U64)                     // ShadeSync<u64>
    | OtherPayload(description: string)         // any other type

  datatype PathItem = OnGraph(element: GraphElement) | Detached(value: Object)

  datatype KeyValue = KeyValue(key: string, value: Object)

  /** The key/value pairs selected under one tag. */
  datatype TagEntry = TagEntry(tag: string, pairs: seq<KeyValue>)

  datatype ResultProperty = ResultProperty(properties: seq<TagEntry>)

  datatype VertexOrEdge = V(vertex: Vertex) | E(edge: Edge)

  /** A vertex or an edge plus the object most recently attached to it. */
  datatype GraphElement = GraphElement(element: VertexOrEdge, attached: Option<Object>)

  /** What a traverser currently holds. */
  datatype Head = Elem(graphElement: GraphElement) | Obj(obj: Object) | Neither

  /** A traverser: its head plus tag bindings and an optional path record. */
  datatype Traverser = Traverser(head: Head, bindings: map<string, Object>, history: Option<seq<PathItem>>)

  /** `GraphElement::attach`: the new object replaces any earlier one and
      the underlying vertex or edge is untouched. */
  function Attach(g: GraphElement, o: Object): (r: GraphElement)
    ensures r.attached == Some(o)
    ensures r.element == g.element
  {
    g.(attached := Some(o))
  }
}
