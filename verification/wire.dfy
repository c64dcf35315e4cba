/** The result messages the encoder produces (`result_pb` and
    `common_pb::Value`), as plain datatypes. Byte-level protobuf
    serialisation is not modelled. The source's one-field wrapper
    messages (`GraphElementArray`, `PathArray`, `TagPropertiesArray`) are
    folded into the constructors of `PbResultInner`. */
module Wire {
  import opened Numeric
  import opened Outcomes

  datatype PbProperty = PbProperty(key: string, value: Option<PbValue>)

  datatype PbVertex = PbVertex(id: I64, labelText: string, properties: seq<PbProperty>)

  datatype PbEdge = PbEdge(
    id: I64,
    labelText: string,
    srcId: I64,
    srcLabel: string,
    dstId: I64,
    dstLabel: string,
    properties: seq<PbProperty>)

  datatype PbElementInner = VertexInner(vertex: PbVertex) | EdgeInner(edge: PbEdge)

  datatype PbGraphElement = PbGraphElement(inner: Option<PbElementInner>)

  datatype PbPath = PbPath(path: seq<PbGraphElement>)

  datatype PbItem =
    | ItemI32(i32: I32)
    | ItemI64(i64: I64)
    | ItemF64(f64: Float64)
    | ItemStr(str: string)
    | ItemBlob(blob: seq<U8>)

  datatype PbValue = PbValue(item: Option<PbItem>)

  datatype PbTagProperty = PbTagProperty(tag: string, props: seq<PbProperty>)

  datatype PbTagProperties = PbTagProperties(item: seq<PbTagProperty>)

  datatype PbResultInner =
    | Elements(elements: seq<PbGraphElement>)
    | Paths(paths: seq<PbPath>)
    | TagProperties(tagProperties: seq<PbTagProperties>)

  datatype PbResult = PbResult(inner: Option<PbResultInner>)
}
