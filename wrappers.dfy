/** Values that JavaScript code in the job board either produces or fails with. */
module Wrappers {

  /** A value that may be absent (`null` or `undefined` in the source). */
  datatype Option<+T> = None | Some(value: T)

  /** How a call settles: it returns a value, or it throws an Error carrying a message. */
  datatype Outcome<+T> = Returned(value: T) | Threw(message: string)

  /** `o || ''` on an optional string. */
  function OrEmpty(o: Option<string>): (s: string)
    ensures o.Some? ==> s == o.value
    ensures o.None? ==> s == ""
  {
    if o.Some? then o.value else ""
  }

  /** How `+` renders an optional string: an absent value prints as "undefined". */
  function ShowString(o: Option<string>): (s: string)
    ensures o.Some? ==> s == o.value
    ensures o.None? ==> s == "undefined"
  {
    if o.Some? then o.value else "undefined"
  }
}
