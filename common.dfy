/** Values shared by every handler of the provider: optional values, results
    and the kinds of error a handler can return. */
module Common {

  /** A Go pointer or map entry that may be absent. */
  datatype Option<T> = None | Some(value: T)
  {
    /** The value, or `default` when absent (SoftLayer's `sl.Get`). */
    function GetOr(default: T): T
    {
      if Some? then value else default
    }
  }

  /** Go's `(value, error)` pair: exactly one of the two is meaningful. */
  datatype Result<T> = Ok(value: T) | Err(error: Error)
  {
    predicate IsFailure()
    {
      Err?
    }

    function PropagateFailure<U>(): Result<U>
      requires Err?
    {
      Err(error)
    }

    function Extract(): T
      requires Ok?
    {
      value
    }
  }

  /** What a remote API call reports when it fails. */
  datatype RemoteError =
    | ApiError(statusCode: int)        // an error response with an HTTP status (SoftLayer `sl.Error`, OpenWhisk)
    | TransportError(message: string)  // any other failure of the call

  /** The errors a handler returns. */
  datatype Error =
    | Remote(remote: RemoteError)                       // a remote call's error, passed on unchanged
    | Wrapped(context: string, cause: Error)            // `fmt.Errorf("<context>: %s", cause)`
    | Crash                                             // a Go runtime panic (nil dereference, index out of range)
    | Timeout                                           // the order wait gave up (time, or repeated empty listings)
    | AmbiguousOrder(resource: string)                  // more than one resource listed for one order
    | DatacenterEmpty                                   // "datacenter name is empty."
    | NoMatchingItems(keyName: string)                  // "No product items matching <keyName> could be found"
    | TypeRouterMismatch(vlanType: string, router: string)
    | TagsNotSet(id: int)                               // "Could not set tags on ... <id>"
    | NoBillingItem(id: int)
    | UnsuccessfulCancellation
    | QualifiedNameError(name: string)
    | NamespaceNotFound(namespace: string, available: seq<string>)
}
