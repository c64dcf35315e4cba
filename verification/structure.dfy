/** Graph elements as the traversal engine sees them: labels, the abstract
    property accessor, vertices, and the `Edge` value type with its
    `Element` capability (`id`, `label`, `details`) and its setters. */
module Structure {
  import opened Numeric
  import opened Outcomes

  /** A label is either an interned string or a numeric label id. */
  datatype Label = Str(name: string) | Id(code: nat)

  /** Element identities are 128-bit unsigned integers. */
  type ID = U128

  /** The property accessor (`DynDetails`). Only the label it records is
      modelled: that is all `label()` falls back on. */
  datatype Details = Details(recorded: Label)

  /** The fields of a vertex that the result encoder reads. */
  datatype Vertex = Vertex(id: ID, ownLabel: Option<Label>, details: Details)

  datatype Edge = Edge(
    id: ID,
    srcId: ID,
    dstId: ID,
    ownLabel: Option<Label>,
    srcLabel: Option<Label>,
    dstLabel: Option<Label>,
    properties: Details)

  /** `Edge::new`: the endpoint labels start out absent. */
  function NewEdge(id: ID, ownLabel: Option<Label>, src: ID, dst: ID, properties: Details): (e: Edge)
    ensures e.id == id && e.ownLabel == ownLabel && e.properties == properties
    ensures e.srcId == src && e.dstId == dst
    ensures e.srcLabel.None? && e.dstLabel.None?
  {
    Edge(id, src, dst, ownLabel, None, None, properties)
  }

  /** `Element::id`. */
  function EdgeId(e: Edge): (r: ID)
    ensures r == e.id
  {
    e.id
  }

  /** `Element::label`: the edge's own label if it has one, otherwise the
      label recorded in its details. */
  function EdgeLabel(e: Edge): (l: Label)
    ensures e.ownLabel.Some? ==> l == e.ownLabel.value
    ensures e.ownLabel.None? ==> l == e.properties.recorded
  {
    match e.ownLabel
    case Some(own) => own
    case None => e.properties.recorded
  }

  /** `Element::details`. */
  function EdgeDetails(e: Edge): (d: Details)
    ensures d == e.properties
  {
    e.properties
  }

  /** `set_src_label`: records the source label and touches nothing else. */
  function SetSrcLabel(e: Edge, l: Label): (r: Edge)
    ensures r.srcLabel == Some(l)
    ensures r.(srcLabel := e.srcLabel) == e
  {
    e.(srcLabel := Some(l))
  }

  /** `set_dst_label`: records the destination label and touches nothing else. */
  function SetDstLabel(e: Edge, l: Label): (r: Edge)
    ensures r.dstLabel == Some(l)
    ensures r.(dstLabel := e.dstLabel) == e
  {
    e.(dstLabel := Some(l))
  }

  /** A freshly built edge reports the label it was given, or the details'
      label when it was given none. */
  lemma NewEdgeLabel(id: ID, ownLabel: Option<Label>, src: ID, dst: ID, properties: Details)
    ensures EdgeLabel(NewEdge(id, ownLabel, src, dst, properties))
         == (if ownLabel.Some? then ownLabel.value else properties.recorded)
  {
  }

  /** The endpoint-label setters never change what `label()`, `id()` or
      `details()` return. */
  lemma SettersKeepElementView(e: Edge, l: Label)
    ensures EdgeLabel(SetSrcLabel(e, l)) == EdgeLabel(e)
    ensures EdgeLabel(SetDstLabel(e, l)) == EdgeLabel(e)
    ensures EdgeId(SetSrcLabel(e, l)) == EdgeId(e) && EdgeId(SetDstLabel(e, l)) == EdgeId(e)
    ensures EdgeDetails(SetSrcLabel(e, l)) == EdgeDetails(e)
    ensures EdgeDetails(SetDstLabel(e, l)) == EdgeDetails(e)
  {
  }

  /** The two setters act on disjoint fields, so their order is irrelevant,
      and a second call to the same setter overrides the first. */
  lemma SettersCommuteAndOverride(e: Edge, a: Label, b: Label)
    ensures SetSrcLabel(SetDstLabel(e, a), b) == SetDstLabel(SetSrcLabel(e, b), a)
    ensures SetSrcLabel(SetSrcLabel(e, a), b) == SetSrcLabel(e, b)
    ensures SetDstLabel(SetDstLabel(e, a), b) == SetDstLabel(e, b)
  {
  }
}
