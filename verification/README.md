# Gremlin engine boundary: result encoding, sub-traversal joins, edges, storage errors

This project models, in Dafny, the pure sequential logic at the boundary of
the GAIA Gremlin traversal engine:

- **Result encoding** (`result_to_pb` and helpers). A finished batch of
  traversers is sorted into graph elements, paths and tagged property bags,
  and encoded as exactly one wire shape: the element array if any traverser
  holds an element, else the path array if any path was collected, else the
  (possibly empty) tagged-properties array. Labels are rendered as the
  string, the decimal code, or `""`; 128-bit ids are cast to `i64`.
- **Sub-traversal joins**. `HasAnyJoin` keeps the parent unchanged;
  `BySubJoin` attaches the sub-result's object to the parent's element.
  `JoinFuncGen::gen` hands out the wrapped join.
- **The `Edge` value type**: its constructor, its `Element` view
  (`id`, `label` with the fallback to the details' label, `details`)
  and its endpoint-label setters.
- **The storage error enum** `GDBError` and its eight `From`
  conversions.

Every panic of the source (`unimplemented!`, `unreachable!`,
`expect`) is an explicit `Abort(reason)` outcome, with one
`AbortReason` per panic site, so the contracts state exactly when the code
aborts. Run-time downcasts of opaque payloads are replaced by the closed
union `Payload` (path, property bag, group-count accumulator, count
accumulator, anything else). The protobuf messages are plain datatypes in
module `Wire`; the one-field array wrappers are folded into the
constructors of `PbResultInner`.

Files: `outcomes.dfy` (Option, Outcome, AbortReason), `numeric.dfy`
(machine integers, `as i64`, decimal `to_string`), `structure.dfy`
(labels, details, vertices, edges), `objects.dfy` (objects, payloads,
graph elements, traversers), `wire.dfy` (result messages),
`result_process.dfy`, `sub_traversal.dfy`, `error.dfy`,
`reduce.dfy` (the `Range` enum only).

The encoder's loop is modelled as a left fold (`Collect`) over the batch,
one `AddTraverser` step per traverser, and the contracts compare its
result with reference definitions of the three arrays in input order
(`ElementEntries`, `PathSources`, `PropertySources`) and with a
client-side decoding of wire values (`DecodeItem`).

The any-match join returns `Some(parent)` for every sub-result it is
given; dropping parents whose sub-traversal produced nothing happens
outside the join.

## Model

| member | source | states |
|---|---|---|
| `ResultProcess.ResultToPb` | research/gaia/gremlin/gremlin_core/src/result_process.rs:118-164 | The batch aborts exactly when some traverser is fatal, at the first such one; otherwise the result is populated, is the element array iff some traverser holds an element (paths and properties are then discarded), is the path array iff none holds an element and some holds a path, and each array lists its sources in input order |
| `ResultProcess.Collect` | research/gaia/gremlin/gremlin_core/src/result_process.rs:119-153 | Scanning the batch fills the element array with one encoded entry per element-holding traverser in order, and the path and property arrays with encodings of the collected payloads in order; it aborts iff a traverser is fatal, at the first one |
| `ResultProcess.AddTraverser` | research/gaia/gremlin/gremlin_core/src/result_process.rs:122-152 | One traverser aborts the scan iff it holds a borrowed opaque object, a path with a detached item, or a property bag with an unsupported value; an element is appended to the element array and nothing else is |
| `ResultProcess.AddTraverserPaths` | research/gaia/gremlin/gremlin_core/src/result_process.rs:131-134 | A path payload appends exactly one encoded path to the path array; any other traverser leaves it unchanged |
| `ResultProcess.AddTraverserProperties` | research/gaia/gremlin/gremlin_core/src/result_process.rs:135-137 | A property payload appends exactly one encoded tag-properties entry; any other traverser leaves them unchanged |
| `ResultProcess.ElementsIffElementHolder` | research/gaia/gremlin/gremlin_core/src/result_process.rs:122-125 | The element array is non-empty iff some traverser of the batch holds an element |
| `ResultProcess.PathsIffPathHolder` | research/gaia/gremlin/gremlin_core/src/result_process.rs:131-134 | The path array is non-empty iff some traverser of the batch holds a path payload |
| `ResultProcess.ElementEntriesConcat` | research/gaia/gremlin/gremlin_core/src/result_process.rs:122-125 | The element array of a concatenated batch is the concatenation of the element arrays: input order is kept |
| `ResultProcess.InertTraverserIgnored` | research/gaia/gremlin/gremlin_core/src/result_process.rs:128-152 | Inserting a traverser holding a primitive, string, blob, count or group-count accumulator, unrecognised payload, or nothing does not change the encoding of the batch |
| `ResultProcess.InertCases` | research/gaia/gremlin/gremlin_core/src/result_process.rs:128-152 | A traverser is inert exactly when it holds nothing, a primitive, a string, a blob, a count or group-count accumulator, or an unrecognised owned payload |
| `ResultProcess.DetachedPathAbortsElementBatch` | research/gaia/gremlin/gremlin_core/src/result_process.rs:69-80 | A path with a detached item aborts the batch even when an element is present and the element shape would win |
| `ResultProcess.LabelToPb` | research/gaia/gremlin/gremlin_core/src/result_process.rs:29-37 | An absent label renders as the empty string, a string label as itself, a numeric label as canonical decimal digits whose value is the code |
| `ResultProcess.VertexToPb` | research/gaia/gremlin/gremlin_core/src/result_process.rs:26-40 | The vertex id is the 128-bit id reduced to a signed 64-bit value congruent to it modulo 2^64 (equal when below 2^63), the label renders as above, and properties are empty |
| `ResultProcess.EdgeToPb` | research/gaia/gremlin/gremlin_core/src/result_process.rs:41-59 | Edge, source and destination ids are cast like vertex ids, the label is rendered from the edge's own label field, endpoint labels are empty strings, properties are empty |
| `ResultProcess.ElementToPb` | research/gaia/gremlin/gremlin_core/src/result_process.rs:61-67 | The element wrapper is always populated, with the vertex or edge encoding matching the element's kind |
| `ResultProcess.PathToPb` | research/gaia/gremlin/gremlin_core/src/result_process.rs:69-80 | A path encodes iff every item is on-graph, and then item by item in the same order and length; otherwise it aborts at a detached item |
| `ResultProcess.ObjectToPbValue` | research/gaia/gremlin/gremlin_core/src/result_process.rs:97-116 | Integers, longs, floats, strings and blobs encode to a populated value that decodes back to the same object; bytes and owned or borrowed opaque objects abort at their own site |
| `ResultProcess.TagToPb` | research/gaia/gremlin/gremlin_core/src/result_process.rs:84-92 | One tag encodes iff all its values are supported, keeping the tag and every key/value pair in order; otherwise it aborts at the site of its first unsupported value |
| `ResultProcess.PropertyToPb` | research/gaia/gremlin/gremlin_core/src/result_process.rs:82-95 | A property bag encodes iff every value is supported, as one tag-properties entry per tag in order; otherwise it aborts at the panic site of the first unsupported value, scanning tags and pairs in order |
| `ResultProcess.ItemRoundTrip` | research/gaia/gremlin/gremlin_core/src/result_process.rs:97-116 | Every wire value is the encoding of the object it decodes to, so value encoding is a bijection onto the wire items |
| `ResultProcess.ElementEncodingIgnoresAttached` | research/gaia/gremlin/gremlin_core/src/result_process.rs:61-67 | An object attached to an element (a sort or group key) never reaches the wire |
| `ResultProcess.EdgeEncodingIgnoresEndpointLabels` | research/gaia/gremlin/gremlin_core/src/result_process.rs:53-56 | Setting an edge's source or destination label does not change its encoding |
| `ResultProcess.EdgeEncodingSkipsDetailsLabel` | research/gaia/gremlin/gremlin_core/src/result_process.rs:44-52 | An edge with no own label encodes an empty label even though its element label is the details' label |
| `ResultProcess.LabelKindsCollide` | research/gaia/gremlin/gremlin_core/src/result_process.rs:31-33 | For every code n, the numeric label n and the string label spelling n in decimal render identically |
| `ResultProcess.VertexRoundTrip` | research/gaia/gremlin/gremlin_core/src/result_process.rs:26-40 | A vertex with an id below 2^63 and a string label is read back with the same id and label |
| `Numeric.AsI64` | research/gaia/gremlin/gremlin_core/src/result_process.rs:53-55 | `as i64` on a u128 yields the signed 64-bit value congruent to the id modulo 2^64, the id itself when below 2^63 |
| `Numeric.AsI64Unique` | research/gaia/gremlin/gremlin_core/src/result_process.rs:53-55 | That congruence determines the cast result uniquely |
| `Numeric.AsI64Collides` | research/gaia/gremlin/gremlin_core/src/result_process.rs:28 | Ids differing by 2^64 cast to the same i64 |
| `Numeric.NatToDecimal` | research/gaia/gremlin/gremlin_core/src/result_process.rs:33 | `to_string` of a label code is a canonical decimal string (non-empty, digits only, no leading zero) denoting the code |
| `Numeric.DecimalRoundTrip` | research/gaia/gremlin/gremlin_core/src/result_process.rs:48 | Every canonical decimal string is the rendering of its own value, so rendering is a bijection |
| `SubTraversal.HasAnyJoin` | research/gaia/gremlin/gremlin_core/src/process/traversal/step/sub_traversal.rs:40-44 | The any-match join always keeps the parent, unchanged |
| `SubTraversal.HasAnyJoinIgnoresSub` | research/gaia/gremlin/gremlin_core/src/process/traversal/step/sub_traversal.rs:41 | Its output does not depend on the sub-result |
| `SubTraversal.BySubJoin` | research/gaia/gremlin/gremlin_core/src/process/traversal/step/sub_traversal.rs:50-58 | Aborts iff the parent holds no element (checked first) or the sub-result holds no object; otherwise keeps the parent with the sub-result's object attached to its element, element, bindings and path unchanged |
| `SubTraversal.BySubJoinChangesOnlyAttached` | research/gaia/gremlin/gremlin_core/src/process/traversal/step/sub_traversal.rs:52-57 | The joined traverser equals the parent except for the attached object |
| `SubTraversal.BySubJoinLastWriteWins` | research/gaia/gremlin/gremlin_core/src/process/traversal/step/sub_traversal.rs:52-57 | Joining with one sub-result and then another equals joining with the second alone |
| `SubTraversal.Exec` | research/gaia/gremlin/gremlin_core/src/process/traversal/step/sub_traversal.rs:40-58 | Running a join policy: the any-match policy always keeps the parent; the by-sub-traversal policy aborts exactly on a shape mismatch (parent checked first, with the matching reason) and otherwise returns the parent with only its element's attached object replaced by the sub-result's object |
| `Objects.Attach` | research/gaia/gremlin/gremlin_core/src/process/traversal/step/sub_traversal.rs:53-56 | Attaching an object to an element replaces any earlier attached object and leaves the vertex or edge itself untouched |
| `Reduce.RangesListsEachOnce` | research/gaia/pegasus/pegasus/src/api/concise/reduce/mod.rs:25-32 | `RANGES` lists both ranges, each exactly once |
| `SubTraversal.Gen` | research/gaia/gremlin/gremlin_core/src/process/traversal/step/sub_traversal.rs:30-35 | The generated join function behaves exactly like the wrapped one on every input |
| `Structure.NewEdge` | research/gaia/gremlin/gremlin_core/src/structure/element/edge.rs:50-54 | The constructor stores id, label, endpoints and details as given, with both endpoint labels absent |
| `Structure.EdgeId` | research/gaia/gremlin/gremlin_core/src/structure/element/edge.rs:32-34 | `id()` is the stored id |
| `Structure.EdgeLabel` | research/gaia/gremlin/gremlin_core/src/structure/element/edge.rs:36-42 | `label()` is the edge's own label when present, otherwise the label recorded in its details |
| `Structure.EdgeDetails` | research/gaia/gremlin/gremlin_core/src/structure/element/edge.rs:44-46 | `details()` is the stored property accessor |
| `Structure.SetSrcLabel` | research/gaia/gremlin/gremlin_core/src/structure/element/edge.rs:56-58 | Sets the source label and changes no other field |
| `Structure.SetDstLabel` | research/gaia/gremlin/gremlin_core/src/structure/element/edge.rs:60-62 | Sets the destination label and changes no other field |
| `Structure.NewEdgeLabel` | research/gaia/gremlin/gremlin_core/src/structure/element/edge.rs:36-54 | A new edge reports the label it was given, or the details' label when given none |
| `Structure.SettersKeepElementView` | research/gaia/gremlin/gremlin_core/src/structure/element/edge.rs:32-62 | The endpoint-label setters never change `id()`, `label()` or `details()` |
| `Structure.SettersCommuteAndOverride` | research/gaia/gremlin/gremlin_core/src/structure/element/edge.rs:56-62 | The two setters commute, and a repeated setter call overrides the earlier one |
| `GraphStoreError.FromLibrary` | research/gaia/graph_store/src/error.rs:46-92 | Every conversion lands in IOError, ParseError, JsonError, CborError, RocksError, BincodeError or UnknownError; payload-carrying failures are recoverable from the result; ParseError arises exactly from the two parse failures and UnknownError exactly from `()` |
| `GraphStoreError.ConversionTargets` | research/gaia/graph_store/src/error.rs:46-92 | I/O, JSON, CBOR, RocksDB and bincode failures become their own member with the same payload, and `()` becomes UnknownError |
| `GraphStoreError.ParseErrorsCollapse` | research/gaia/graph_store/src/error.rs:52-62 | Integer and float parse failures both become the payload-free ParseError |
| `GraphStoreError.PayloadConversionInjective` | research/gaia/graph_store/src/error.rs:46-86 | Distinct payload-carrying failures convert to distinct errors |
| `GraphStoreError.NoEvaluationMembers` | research/gaia/graph_store/src/error.rs:22-92 | No conversion yields an evaluation-layer member such as VertexNotFoundError or CrossComparisonError |

## Left out

- `println!` diagnostics in the encoder: output only, no effect on the result.
- Protobuf byte-level serialisation: messages are modelled as datatypes.
- Floating-point values: `Float` is kept opaque as its 64-bit pattern and only copied.
- `DynDetails` internals: only the label it records is modelled, and its `get_label` is assumed always to yield one; `attach` is an `attached` field holding the latest object (the element's internals are not part of this model).
- `Arc`/`Sync` sharing of join functions and `Box` allocation in `JoinFuncGen::gen`: the model hands out the same value; only the two join policies of this file are in the closed `JoinFunc` union.
- The commented-out `EdgeBuilder`: dead code.
- `Vertex`, `Traverser`, `ResultPath` and `ResultProperty` are reduced to the fields the encoder and joins read; their own source files are not part of this model.
- Label codes are unbounded naturals rather than the source's fixed-width label id type; rendering is the same for every representable code.
- The payloads of `ShadeSync` accumulators and of library errors are opaque.
- `Range` of the reduce operators is modelled with its `RANGES` list only; the Count/Group/Order/Limit/Barrier operators (only re-exported in `reduce/mod.rs`) and the `Multiplexing` trait (signatures only, `multiplex/mod.rs:20-26`) are not modelled.
- The websocket query client, the analytical-engine loader and the analytical app wrappers: I/O and foreign-library plumbing outside this core.
