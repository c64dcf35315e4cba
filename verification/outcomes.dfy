/** Failure-carrying wrappers shared by the whole model.

    The source aborts the process (`unimplemented!`, `unreachable!`,
    `expect`) at a handful of sites; here each such site is an explicit
    `Abort` outcome naming the site, so contracts can say exactly when the
    code aborts. */
module Outcomes {

  /** Rust's `Option<T>`. */
  datatype Option<+T> = None | Some(value: T)

  /** One constructor per panic site of the modelled code. */
  datatype AbortReason =
    | DetachedPathItem      // the detached-item arm of `path_to_pb`
    | ByteValue             // the byte arm of `object_to_pb_value`
    | UnknownOwnedValue     // the owned-opaque arm of `object_to_pb_value`
    | UnknownRefValue       // the borrowed-opaque arm of `object_to_pb_value`
    | UnreachableObject     // the catch-all object arm of `result_to_pb`
    | ParentNotElement      // `BySubJoin` given a parent without an element
    | SubNotObject          // `BySubJoin` given a sub-result without an object

  /** Either the value the source returns, or the panic it raises. */
  datatype Outcome<+T> = Done(value: T) | Abort(reason: AbortReason)
}
