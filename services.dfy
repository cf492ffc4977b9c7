/**
 * Stand-ins for the collaborators the components call: the record store
 * (`DbService`: `list`, `object`, `set`, `remove`, keyed by path), the alert
 * presenter (`AlertService`: `error`, `success`, `successBack`) and the route
 * snapshot. A component records each call it makes; the store's answer is
 * delivered later by a separate completion method of the component.
 */
module Services {
  import opened Wrappers
  import opened ClientModel

  /** A value held by a form control or written to the store. */
  datatype Value = Str(s: string) | Null | Nested(addresses: AddressField)

  /** One call into the record store. */
  datatype Request =
    | ListAt(path: string)                          // db.list(path), a live collection
    | ObjectAt(path: string)                        // db.object(path), a live record
    | SetAt(path: string, value: map<string, Value>) // db.set(path, value)
    | RemoveAt(path: string)                        // db.remove(path)

  /** One call into the alert presenter. */
  datatype Alert =
    | ErrorAlert(text: string)       // alert.error
    | SuccessAlert(text: string)     // alert.success
    | SuccessBackAlert(text: string) // alert.successBack: confirm, then navigate back

  /** `params[name] || ''`: a missing or empty route parameter reads as `""`. */
  function ParamOrEmpty(param: Option<string>): (r: string)
    ensures param.None? ==> r == ""
    ensures param.Some? ==> r == param.value
  {
    param.GetOr("")
  }

  /** A route parameter is truthy when present and non-empty. */
  predicate Truthy(param: Option<string>) {
    param.Some? && param.value != ""
  }
}
