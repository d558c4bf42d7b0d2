/** Shared vocabulary of the inventory backend model: record keys, optional
    values and the outcomes an operation can end in. */
module Base {

  /** Primary key of a stored record (an auto-incremented integer column). */
  type Id = nat

  /** A UUID value as produced by `uuid.uuid4`; its bit layout is not modelled,
      and generating one is a parameter of the operation that needs it. */
  type Uuid = nat

  /** A value that may be absent: a nullable column, or a request field the
      caller may leave out. */
  datatype Option<T> = None | Some(value: T) {

    /** The value, or `default` when absent (a model field's default). */
    function GetOr(default: T): T {
      match this
      case Some(v) => v
      case None => default
    }
  }

  /** Why an operation did not complete. */
  datatype Error =
    | NotAuthenticated         // 401: a permission check refused a caller with no credentials
    | PermissionDenied         // 403: a permission check refused an authenticated caller
    | NotFound                 // 404: no record with that key in the caller's queryset
    | ValidationError          // 400: a referenced record does not exist or a required field is missing
    | Protected                // deletion refused by an on_delete=PROTECT reference
    | IntegrityError           // a database constraint (NOT NULL, UNIQUE, FOREIGN KEY) refused a write
    | NestedWritesUnsupported  // the framework's default create refuses a nested list of children
    | AttributeError           // `company` read from the anonymous user object
    | TypeError                // a call passed the same keyword argument twice

  /** The outcome of an operation: its value, or the error it stopped with. */
  datatype Result<T> = Success(value: T) | Failure(error: Error)
}
