/** Identifiers, and Option and Result for nullable columns, absent fields and thrown exceptions. */
module Wrappers {
  /** A uuid, an opaque reference or a provider's event id: only ever compared for equality. */
  type Id = nat

  datatype Option<+T> = None | Some(value: T)

  datatype Result<+T, +E> = Ok(value: T) | Err(error: E)
}
