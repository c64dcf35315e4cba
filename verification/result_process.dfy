/** The result encoder (`result_to_pb` and its helpers): a finished batch
    of traversers is sorted into elements, paths and tagged properties and
    encoded as exactly one of three wire shapes. */
module ResultProcess {
  import opened Numeric
  import opened Outcomes
  import opened Structure
  import opened Objects
  import opened Wire

  // ---------------------------------------------------------------------
  // Labels and elements

  /** What a client can read off an encoded label: nothing for an absent
      label, the name itself for a string label, and the decimal digits of
      the code for a numeric label (no name resolution takes place). */
  predicate LabelRendersAs(l: Option<Label>, s: string) {
    match l
    case None => s == ""
    case Some(Str(name)) => s == name
    case Some(Id(code)) => IsCanonicalDecimal(s) && DecimalValue(s) == code
  }

  /** The label expression shared by `vertex_to_pb` and `edge_to_pb`. */
  function LabelToPb(l: Option<Label>): (s: string)
    ensures LabelRendersAs(l, s)
  {
    match l
    case None => ""
    case Some(Str(name)) => name
    case Some(Id(code)) => NatToDecimal(code)
  }

  /** `vertex_to_pb`. */
  function VertexToPb(v: Vertex): (p: PbVertex)
    ensures (v.id - p.id) % TWO_64 == 0
    ensures v.id < TWO_63 ==> p.id == v.id
    ensures LabelRendersAs(v.ownLabel, p.labelText)
    ensures p.properties == []
  {
    PbVertex(AsI64(v.id), LabelToPb(v.ownLabel), [])
  }

  /** `edge_to_pb`. It reads the edge's own label field (not `label()`),
      and never emits endpoint labels, even when they have been set. */
  function EdgeToPb(e: Edge): (p: PbEdge)
    ensures (e.id - p.id) % TWO_64 == 0 && (e.srcId - p.srcId) % TWO_64 == 0
    ensures (e.dstId - p.dstId) % TWO_64 == 0
    ensures e.id < TWO_63 ==> p.id == e.id
    ensures e.srcId < TWO_63 ==> p.srcId == e.srcId
    ensures e.dstId < TWO_63 ==> p.dstId == e.dstId
    ensures LabelRendersAs(e.ownLabel, p.labelText)
    ensures p.srcLabel == "" && p.dstLabel == ""
    ensures p.properties == []
  {
    PbEdge(AsI64(e.id), LabelToPb(e.ownLabel), AsI64(e.srcId), "", AsI64(e.dstId), "", [])
  }

  /** `element_to_pb`: the wrapper is always populated. */
  function ElementToPb(g: GraphElement): (p: PbGraphElement)
    ensures p.inner.Some?
    ensures g.element.V? <==> p.inner.value.VertexInner?
    ensures g.element.V? ==> p.inner.value.vertex == VertexToPb(g.element.vertex)
    ensures g.element.E? ==> p.inner.value.edge == EdgeToPb(g.element.edge)
  {
    match g.element
    case V(v) => PbGraphElement(Some(VertexInner(VertexToPb(v))))
    case E(e) => PbGraphElement(Some(EdgeInner(EdgeToPb(e))))
  }

  // ---------------------------------------------------------------------
  // Paths

  predicate PathOnGraph(path: seq<PathItem>) {
    forall i :: 0 <= i < |path| ==> path[i].OnGraph?
  }

  /** `pb` is `path` item by item: same length, same order, every item an
      on-graph element encoded by `element_to_pb`. */
  predicate PathEncodes(path: seq<PathItem>, pb: PbPath) {
    && |pb.path| == |path|
    && forall i :: 0 <= i < |path| ==> path[i].OnGraph? && pb.path[i] == ElementToPb(path[i].element)
  }

  /** `path_to_pb`: a detached item aborts. */
  function PathToPb(path: seq<PathItem>): (r: Outcome<PbPath>)
    ensures r.Done? <==> PathOnGraph(path)
    ensures r.Done? ==> PathEncodes(path, r.value)
    ensures r.Abort? ==> r.reason == DetachedPathItem
    decreases |path|
  {
    if |path| == 0 then Done(PbPath([]))
    else
      match PathToPb(path[..|path| - 1])
      case Abort(reason) => Abort(reason)
      case Done(prefix) =>
        match path[|path| - 1]
        case OnGraph(g) => Done(PbPath(prefix.path + [ElementToPb(g)]))
        case Detached(_) => Abort(DetachedPathItem)
  }

  // ---------------------------------------------------------------------
  // Values and tagged properties

  /** The objects `object_to_pb_value` can encode. */
  predicate ValueSupported(o: Object) {
    match o
    case Primitive(p) => !p.Byte?
    case String(_) => true
    case Blob(_) => true
    case UnknownOwned(_) => false
    case UnknownRef(_) => false
  }

  /** `reason` is the panic site `object_to_pb_value` reaches on `o`. */
  predicate FaultMatches(o: Object, reason: AbortReason) {
    match o
    case Primitive(p) => p.Byte? && reason == ByteValue
    case String(_) => false
    case Blob(_) => false
    case UnknownOwned(_) => reason == UnknownOwnedValue
    case UnknownRef(_) => reason == UnknownRefValue
  }

  /** How a client reads a wire value back as an object. */
  function DecodeItem(item: PbItem): Object {
    match item
    case ItemI32(v) => Primitive(Integer(v))
    case ItemI64(v) => Primitive(Long(v))
    case ItemF64(v) => Primitive(Float(v))
    case ItemStr(v) => String(v)
    case ItemBlob(v) => Blob(v)
  }

  /** `object_to_pb_value`: the value is always populated and decodes back
      to the object it came from. */
  function ObjectToPbValue(o: Object): (r: Outcome<PbValue>)
    ensures r.Done? <==> ValueSupported(o)
    ensures r.Done? ==> r.value.item.Some? && DecodeItem(r.value.item.value) == o
    ensures r.Abort? ==> FaultMatches(o, r.reason)
  {
    match o
    case Primitive(Byte(_)) => Abort(ByteValue)
    case Primitive(Integer(v)) => Done(PbValue(Some(ItemI32(v))))
    case Primitive(Long(v)) => Done(PbValue(Some(ItemI64(v))))
    case Primitive(Float(v)) => Done(PbValue(Some(ItemF64(v))))
    case String(s) => Done(PbValue(Some(ItemStr(s))))
    case Blob(b) => Done(PbValue(Some(ItemBlob(b))))
    case UnknownOwned(_) => Abort(UnknownOwnedValue)
    case UnknownRef(_) => Abort(UnknownRefValue)
  }

  /** `p` carries the key of `kv` and a value that decodes to its object. */
  predicate PropertyDecodesTo(p: PbProperty, kv: KeyValue) {
    && p.key == kv.key
    && p.value.Some?
    && p.value.value.item.Some?
    && DecodeItem(p.value.value.item.value) == kv.value
  }

  predicate TagSupported(entry: TagEntry) {
    forall m :: 0 <= m < |entry.pairs| ==> ValueSupported(entry.pairs[m].value)
  }

  predicate PropertySupported(rp: ResultProperty) {
    forall j :: 0 <= j < |rp.properties| ==> TagSupported(rp.properties[j])
  }

  /** `reason` is the panic site of the first unsupported value of the tag. */
  predicate TagFault(entry: TagEntry, reason: AbortReason) {
    exists m ::
      && 0 <= m < |entry.pairs|
      && FaultMatches(entry.pairs[m].value, reason)
      && forall k :: 0 <= k < m ==> ValueSupported(entry.pairs[k].value)
  }

  /** `reason` is the panic site of the first unsupported value of the bag,
      scanning tags in order and pairs in order within a tag. */
  predicate PropertyFault(rp: ResultProperty, reason: AbortReason) {
    exists j ::
      && 0 <= j < |rp.properties|
      && TagFault(rp.properties[j], reason)
      && forall k :: 0 <= k < j ==> TagSupported(rp.properties[k])
  }

  /** `pb` holds the tag of `entry` and one property per key/value pair,
      in order. */
  predicate TagEncodes(entry: TagEntry, pb: PbTagProperty) {
    && pb.tag == entry.tag
    && |pb.props| == |entry.pairs|
    && forall m :: 0 <= m < |entry.pairs| ==> PropertyDecodesTo(pb.props[m], entry.pairs[m])
  }

  /** `pb` holds one tag property per tag of `rp`, in order. */
  predicate PropertyEncodes(rp: ResultProperty, pb: PbTagProperties) {
    && |pb.item| == |rp.properties|
    && forall j :: 0 <= j < |rp.properties| ==> TagEncodes(rp.properties[j], pb.item[j])
  }

  /** The inner loop of `property_to_pb`: one tag and its pairs. */
  function TagToPb(entry: TagEntry): (r: Outcome<PbTagProperty>)
    ensures r.Done? <==> TagSupported(entry)
    ensures r.Done? ==> TagEncodes(entry, r.value)
    ensures r.Abort? ==> TagFault(entry, r.reason)
    decreases |entry.pairs|
  {
    var pairs := entry.pairs;
    if |pairs| == 0 then Done(PbTagProperty(entry.tag, []))
    else
      var last := pairs[|pairs| - 1];
      var init := TagEntry(entry.tag, pairs[..|pairs| - 1]);
      assert forall k :: 0 <= k < |init.pairs| ==> init.pairs[k] == pairs[k];
      match TagToPb(init)
      case Abort(reason) => Abort(reason)
      case Done(prefix) =>
        match ObjectToPbValue(last.value)
        case Abort(reason) =>
          assert FaultMatches(entry.pairs[|pairs| - 1].value, reason);
          Abort(reason)
        case Done(v) => Done(PbTagProperty(entry.tag, prefix.props + [PbProperty(last.key, Some(v))]))
  }

  /** `property_to_pb`. */
  function PropertyToPb(rp: ResultProperty): (r: Outcome<PbTagProperties>)
    ensures r.Done? <==> PropertySupported(rp)
    ensures r.Done? ==> PropertyEncodes(rp, r.value)
    ensures r.Abort? ==> PropertyFault(rp, r.reason)
    decreases |rp.properties|
  {
    var entries := rp.properties;
    if |entries| == 0 then Done(PbTagProperties([]))
    else
      var init := ResultProperty(entries[..|entries| - 1]);
      assert forall k :: 0 <= k < |init.properties| ==> init.properties[k] == entries[k];
      match PropertyToPb(init)
      case Abort(reason) => Abort(reason)
      case Done(prefix) =>
        match TagToPb(entries[|entries| - 1])
        case Abort(reason) =>
          assert TagFault(rp.properties[|entries| - 1], reason);
          Abort(reason)
        case Done(tp) => Done(PbTagProperties(prefix.item + [tp]))
  }

  // ---------------------------------------------------------------------
  // Classifying traversers

  predicate HoldsElement(t: Traverser) {
    t.head.Elem?
  }

  predicate HoldsPath(t: Traverser) {
    t.head.Obj? && t.head.obj.UnknownOwned? && t.head.obj.payload.PathResult?
  }

  predicate HoldsProperty(t: Traverser) {
    t.head.Obj? && t.head.obj.UnknownOwned? && t.head.obj.payload.PropertyResult?
  }

  /** A traverser whose encoding panics: a borrowed opaque object, a path
      with a detached item, or a property bag with an unsupported value. */
  predicate Fatal(t: Traverser) {
    t.head.Obj? &&
    match t.head.obj
    case UnknownRef(_) => true
    case UnknownOwned(PathResult(path)) => !PathOnGraph(path)
    case UnknownOwned(PropertyResult(rp)) => !PropertySupported(rp)
    case _ => false
  }

  /** `reason` is a panic site the encoding of `t` can reach. */
  predicate FaultOf(t: Traverser, reason: AbortReason) {
    t.head.Obj? &&
    match t.head.obj
    case UnknownRef(_) => reason == UnreachableObject
    case UnknownOwned(PathResult(_)) => reason == DetachedPathItem
    case UnknownOwned(PropertyResult(rp)) => PropertyFault(rp, reason)
    case _ => false
  }

  /** A traverser that contributes to no array and cannot abort. */
  predicate Inert(t: Traverser) {
    !HoldsElement(t) && !HoldsPath(t) && !HoldsProperty(t) && !Fatal(t)
  }

  predicate NoFatal(data: seq<Traverser>) {
    forall i :: 0 <= i < |data| ==> !Fatal(data[i])
  }

  /** The batch aborts at its first fatal traverser, with a reason that
      traverser's encoding reaches. */
  predicate FirstFault(data: seq<Traverser>, reason: AbortReason) {
    exists i ::
      && 0 <= i < |data|
      && Fatal(data[i])
      && FaultOf(data[i], reason)
      && forall j :: 0 <= j < i ==> !Fatal(data[j])
  }

  // ---------------------------------------------------------------------
  // Reference definitions of the three arrays, in input order

  function ElementEntries(data: seq<Traverser>): seq<PbGraphElement>
    decreases |data|
  {
    if |data| == 0 then []
    else
      var t := data[|data| - 1];
      ElementEntries(data[..|data| - 1]) + (if HoldsElement(t) then [ElementToPb(t.head.graphElement)] else [])
  }

  function PathSources(data: seq<Traverser>): seq<seq<PathItem>>
    decreases |data|
  {
    if |data| == 0 then []
    else
      var t := data[|data| - 1];
      PathSources(data[..|data| - 1]) + (if HoldsPath(t) then [t.head.obj.payload.path] else [])
  }

  function PropertySources(data: seq<Traverser>): seq<ResultProperty>
    decreases |data|
  {
    if |data| == 0 then []
    else
      var t := data[|data| - 1];
      PropertySources(data[..|data| - 1]) + (if HoldsProperty(t) then [t.head.obj.payload.property] else [])
  }

  predicate PathsEncode(sources: seq<seq<PathItem>>, paths: seq<PbPath>) {
    |paths| == |sources| && forall k :: 0 <= k < |sources| ==> PathEncodes(sources[k], paths[k])
  }

  predicate PropertiesEncode(sources: seq<ResultProperty>, items: seq<PbTagProperties>) {
    |items| == |sources| && forall k :: 0 <= k < |sources| ==> PropertyEncodes(sources[k], items[k])
  }

  // ---------------------------------------------------------------------
  // The batch encoder

  /** The three arrays `result_to_pb` fills. */
  datatype Buckets = Buckets(elements: seq<PbGraphElement>, paths: seq<PbPath>, properties: seq<PbTagProperties>)

  /** One iteration of the loop in `result_to_pb`. Paths and property bags
      are encoded on the spot, so their panics fire whatever the rest of
      the batch holds. */
  function AddTraverser(b: Buckets, t: Traverser): (r: Outcome<Buckets>)
    ensures r.Abort? <==> Fatal(t)
    ensures r.Abort? ==> FaultOf(t, r.reason)
    ensures r.Done? ==> r.value.elements == b.elements + (if HoldsElement(t) then [ElementToPb(t.head.graphElement)] else [])
  {
    match t.head
    case Elem(g) => Done(b.(elements := b.elements + [ElementToPb(g)]))
    case Obj(o) =>
      (match o
       case Primitive(_) => Done(b)
       case String(_) => Done(b)
       case Blob(_) => Done(b)
       case UnknownOwned(PathResult(path)) =>
         (match PathToPb(path)
          case Abort(reason) => Abort(reason)
          case Done(pb) => Done(b.(paths := b.paths + [pb])))
       case UnknownOwned(PropertyResult(rp)) =>
         (match PropertyToPb(rp)
          case Abort(reason) => Abort(reason)
          case Done(pb) => Done(b.(properties := b.properties + [pb])))
       case UnknownOwned(_) => Done(b)
       case UnknownRef(_) => Abort(UnreachableObject))
    case Neither => Done(b)
  }

  lemma AddTraverserPaths(b: Buckets, t: Traverser, sources: seq<seq<PathItem>>)
    requires PathsEncode(sources, b.paths)
    requires AddTraverser(b, t).Done?
    ensures PathsEncode(sources + (if HoldsPath(t) then [t.head.obj.payload.path] else []), AddTraverser(b, t).value.paths)
  {
  }

  lemma AddTraverserProperties(b: Buckets, t: Traverser, sources: seq<ResultProperty>)
    requires PropertiesEncode(sources, b.properties)
    requires AddTraverser(b, t).Done?
    ensures PropertiesEncode(
              sources + (if HoldsProperty(t) then [t.head.obj.payload.property] else []),
              AddTraverser(b, t).value.properties)
  {
  }

  /** The loop of `result_to_pb` over the whole batch. */
  function Collect(data: seq<Traverser>): (r: Outcome<Buckets>)
    ensures r.Done? <==> NoFatal(data)
    ensures r.Done? ==> r.value.elements == ElementEntries(data)
    ensures r.Done? ==> PathsEncode(PathSources(data), r.value.paths)
    ensures r.Done? ==> PropertiesEncode(PropertySources(data), r.value.properties)
    ensures r.Abort? ==> FirstFault(data, r.reason)
    decreases |data|
  {
    if |data| == 0 then Done(Buckets([], [], []))
    else
      var init := data[..|data| - 1];
      var t := data[|data| - 1];
      match Collect(init)
      case Abort(reason) =>
        var i :| 0 <= i < |init| && Fatal(init[i]) && FaultOf(init[i], reason)
                 && forall j :: 0 <= j < i ==> !Fatal(init[j]);
        assert data[i] == init[i];
        assert forall j :: 0 <= j < i ==> data[j] == init[j];
        Abort(reason)
      case Done(b) =>
        assert forall j :: 0 <= j < |init| ==> data[j] == init[j];
        var r := AddTraverser(b, t);
        if r.Done? then
          AddTraverserPaths(b, t, PathSources(init));
          AddTraverserProperties(b, t, PropertySources(init));
          r
        else
          assert FaultOf(data[|data| - 1], r.reason);
          r
  }

  /** `result_to_pb`: elements win over paths, paths win over tagged
      properties, and the result is always populated. */
  function ResultToPb(data: seq<Traverser>): (r: Outcome<PbResult>)
    ensures r.Done? <==> NoFatal(data)
    ensures r.Abort? ==> FirstFault(data, r.reason)
    ensures r.Done? ==> r.value.inner.Some?
    ensures r.Done? ==> (r.value.inner.value.Elements? <==> exists i :: 0 <= i < |data| && HoldsElement(data[i]))
    ensures r.Done? ==>
      (r.value.inner.value.Paths? <==>
         (forall i :: 0 <= i < |data| ==> !HoldsElement(data[i])) && exists i :: 0 <= i < |data| && HoldsPath(data[i]))
    ensures r.Done? && r.value.inner.value.Elements? ==> r.value.inner.value.elements == ElementEntries(data)
    ensures r.Done? && r.value.inner.value.Paths? ==> PathsEncode(PathSources(data), r.value.inner.value.paths)
    ensures r.Done? && r.value.inner.value.TagProperties? ==>
      PropertiesEncode(PropertySources(data), r.value.inner.value.tagProperties)
  {
    match Collect(data)
    case Abort(reason) => Abort(reason)
    case Done(b) =>
      ElementsIffElementHolder(data);
      PathsIffPathHolder(data);
      if |b.elements| > 0 then Done(PbResult(Some(Elements(b.elements))))
      else if |b.paths| > 0 then Done(PbResult(Some(Paths(b.paths))))
      else Done(PbResult(Some(TagProperties(b.properties))))
  }

  // ---------------------------------------------------------------------
  // Properties of the encoder

  lemma {:induction false} ElementsIffElementHolder(data: seq<Traverser>)
    ensures |ElementEntries(data)| > 0 <==> exists i :: 0 <= i < |data| && HoldsElement(data[i])
    decreases |data|
  {
    if |data| > 0 {
      var init := data[..|data| - 1];
      ElementsIffElementHolder(init);
      if exists i :: 0 <= i < |init| && HoldsElement(init[i]) {
        var i :| 0 <= i < |init| && HoldsElement(init[i]);
        assert HoldsElement(data[i]);
      }
      if exists i :: 0 <= i < |data| && HoldsElement(data[i]) {
        var i :| 0 <= i < |data| && HoldsElement(data[i]);
        if i < |init| {
          assert HoldsElement(init[i]);
        }
      }
    }
  }

  lemma {:induction false} PathsIffPathHolder(data: seq<Traverser>)
    ensures |PathSources(data)| > 0 <==> exists i :: 0 <= i < |data| && HoldsPath(data[i])
    decreases |data|
  {
    if |data| > 0 {
      var init := data[..|data| - 1];
      PathsIffPathHolder(init);
      if exists i :: 0 <= i < |init| && HoldsPath(init[i]) {
        var i :| 0 <= i < |init| && HoldsPath(init[i]);
        assert HoldsPath(data[i]);
      }
      if exists i :: 0 <= i < |data| && HoldsPath(data[i]) {
        var i :| 0 <= i < |data| && HoldsPath(data[i]);
        if i < |init| {
          assert HoldsPath(init[i]);
        }
      }
    }
  }

  /** The element array of a concatenated batch is the concatenation of the
      element arrays: one entry per element-holding traverser, in input
      order. */
  lemma {:induction false} ElementEntriesConcat(a: seq<Traverser>, b: seq<Traverser>)
    ensures ElementEntries(a + b) == ElementEntries(a) + ElementEntries(b)
    decreases |b|
  {
    if |b| == 0 {
      assert a + b == a;
    } else {
      var b' := b[..|b| - 1];
      assert (a + b)[..|a + b| - 1] == a + b';
      ElementEntriesConcat(a, b');
    }
  }

  /** A traverser that holds a primitive, a string, a blob, a count or
      group-count accumulator, an unrecognised payload, or nothing at all
      leaves the encoding of the batch unchanged. */
  lemma {:induction false} InertTraverserIgnored(a: seq<Traverser>, t: Traverser, b: seq<Traverser>)
    requires Inert(t)
    ensures ResultToPb(a + [t] + b) == ResultToPb(a + b)
    decreases |b|
  {
    CollectSkipsInert(a, t, b);
  }

  lemma {:induction false} CollectSkipsInert(a: seq<Traverser>, t: Traverser, b: seq<Traverser>)
    requires Inert(t)
    ensures Collect(a + [t] + b) == Collect(a + b)
    decreases |b|
  {
    if |b| == 0 {
      assert a + [t] + b == a + [t];
      assert (a + [t])[..|a + [t]| - 1] == a;
      assert a + b == a;
    } else {
      var b' := b[..|b| - 1];
      assert (a + [t] + b)[..|a + [t] + b| - 1] == a + [t] + b';
      assert (a + b)[..|a + b| - 1] == a + b';
      assert (a + [t] + b)[|a + [t] + b| - 1] == b[|b| - 1];
      assert (a + b)[|a + b| - 1] == b[|b| - 1];
      CollectSkipsInert(a, t, b');
    }
  }

  /** Exactly the traversers holding a primitive, a string, a blob, a
      counting accumulator, an unrecognised payload, or nothing are inert. */
  lemma InertCases(t: Traverser)
    ensures Inert(t) <==>
      || t.head.Neither?
      || (t.head.Obj? && (t.head.obj.Primitive? || t.head.obj.String? || t.head.obj.Blob?))
      || (t.head.Obj? && t.head.obj.UnknownOwned? &&
          (t.head.obj.payload.GroupCountSync? || t.head.obj.payload.CountSync? || t.head.obj.payload.OtherPayload?))
  {
  }

  /** Paths are encoded while the batch is scanned, so a detached path item
      aborts the batch even when the element shape would have been chosen. */
  lemma DetachedPathAbortsElementBatch(data: seq<Traverser>, i: nat, j: nat)
    requires i < |data| && j < |data|
    requires HoldsElement(data[i])
    requires HoldsPath(data[j]) && !PathOnGraph(data[j].head.obj.payload.path)
    ensures ResultToPb(data).Abort?
  {
  }

  /** An attached sort or group key never reaches the wire. */
  lemma ElementEncodingIgnoresAttached(g: GraphElement, o: Object)
    ensures ElementToPb(Attach(g, o)) == ElementToPb(g)
  {
  }

  /** Setting endpoint labels on an edge does not change its encoding. */
  lemma EdgeEncodingIgnoresEndpointLabels(e: Edge, l: Label)
    ensures EdgeToPb(SetSrcLabel(e, l)) == EdgeToPb(e)
    ensures EdgeToPb(SetDstLabel(e, l)) == EdgeToPb(e)
  {
  }

  /** An edge whose label lives only in its details is encoded with an
      empty label, although `label()` reports the details' label. */
  lemma EdgeEncodingSkipsDetailsLabel(e: Edge)
    requires e.ownLabel.None?
    ensures EdgeToPb(e).labelText == ""
    ensures EdgeLabel(e) == e.properties.recorded
  {
  }

  /** Every numeric label renders exactly like the string label spelling
      its code, so the client cannot tell which kind of label it received. */
  lemma LabelKindsCollide(n: nat)
    ensures LabelToPb(Some(Str(NatToDecimal(n)))) == LabelToPb(Some(Id(n)))
  {
  }

  /** Every wire value is the encoding of the object it decodes to: the
      value encoding is a bijection between supported objects and items. */
  lemma ItemRoundTrip(item: PbItem)
    ensures ObjectToPbValue(DecodeItem(item)) == Done(PbValue(Some(item)))
  {
  }

  /** Encoding a vertex with a small id and a string label and reading it
      back yields the same id and label. */
  lemma VertexRoundTrip(v: Vertex, name: string)
    requires v.id < TWO_63 && v.ownLabel == Some(Str(name))
    ensures VertexToPb(v).id == v.id && VertexToPb(v).labelText == name
  {
  }
}
