/** Vocabulary shared by the stores and the components: values that may be
    `undefined`, entity identifiers, what a REST call settles to, and the
    verdict of a name validator. */
module Common {

  /** A JavaScript value that may be `undefined`. */
  datatype Option<+T> = None | Some(value: T) {
    /** The value, or `default` when it is `undefined`. */
    function GetOr(default: T): T {
      match this
      case Some(v) => v
      case None => default
    }
  }

  /** Identifiers of workspaces, collections, folders, requests and environments. */
  type Id = string

  /** Property access `m[k]` on a plain object used as a dictionary. */
  function Lookup<K, V>(m: map<K, V>, k: K): (r: Option<V>)
    ensures r.Some? <==> k in m
    ensures r.Some? ==> r.value == m[k]
  {
    if k in m then Some(m[k]) else None
  }

  /** JavaScript truthiness of an optional string: `undefined` and `''` are falsy. */
  predicate Truthy(o: Option<string>) {
    o.Some? && o.value != ""
  }

  /** The error a rejected REST call carries: `e.response?.data?.message` and `e.message`. */
  datatype RestError = RestError(responseMessage: Option<string>, message: string)

  /** The message shown for an error: `e?.response?.data?.message || e.message`. */
  function ErrorMessage(e: RestError): (m: string)
    ensures Truthy(e.responseMessage) ==> m == e.responseMessage.value
    ensures !Truthy(e.responseMessage) ==> m == e.message
  {
    if Truthy(e.responseMessage) then e.responseMessage.value else e.message
  }

  /** What a REST call settles to: the server payload `r.data`, or an error. */
  datatype RestOutcome<+T> = Success(data: T) | Failure(error: RestError)

  /** How the promise a store operation returns settles for its caller:
      it rejects only when the call failed and the operation has no `.catch`. */
  datatype Settled = Fulfilled | Rejected(error: RestError)

  function SettledBy<T>(outcome: RestOutcome<T>, catches: bool): (s: Settled)
    ensures s.Rejected? <==> outcome.Failure? && !catches
    ensures s.Rejected? ==> s.error == outcome.error
  {
    if outcome.Failure? && !catches then Rejected(outcome.error) else Fulfilled
  }

  /** A validator's verdict `{ isValid, message? }`; an absent or falsy message is `None`. */
  datatype Validation = Validation(isValid: bool, message: Option<string>)
}
