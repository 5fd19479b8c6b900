/** Optional values and results for the JavaScript values the model needs:
    `undefined`/`null` become None, a thrown exception becomes Err. */
module Wrappers {

  datatype Option<+T> = None | Some(value: T) {
    /** `x ?? default` */
    function GetOr(default: T): T {
      match this
      case Some(v) => v
      case None => default
    }
  }

  /** The exceptions callers can tell apart. */
  datatype Error =
    | NetworkError              // a Firestore call rejected
    | TypeError                 // a property read on `undefined`
    | Failure(message: string)  // `throw new Error(message)`
    | NotFound                  // `updateDoc` on a document that does not exist
    | SyntaxError               // `JSON.parse` of a text that is not JSON
    | RangeError                // the call stack overflows: a recursion that does not end

  datatype Result<+T> = Ok(value: T) | Err(error: Error)

  /** JavaScript truthiness of an optional string: `undefined`, `null` and '' are falsy. */
  predicate Truthy(s: Option<string>) {
    s.Some? && s.value != ""
  }
}
