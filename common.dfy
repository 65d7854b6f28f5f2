/** Values shared by every component: the outcome of a service call, and the
    loosely typed JavaScript values that form inputs and date pickers hold. */
module Common {

  datatype Option<+T> = None | Some(value: T)

  /** The settled state of an awaited service promise that yields a value:
      resolved with `value`, or rejected with an error whose message is `message`. */
  datatype Result<+T> = Ok(value: T) | Err(message: string)

  /** The settled state of an awaited service promise whose value is not used. */
  datatype Outcome = Done | Failed(message: string)

  /** A JavaScript `Date` object. Its contents are never inspected by the
      components, so it is an opaque time stamp. */
  datatype Date = Date(stamp: int)

  /** What a form field, a date picker or a shot slot can hold: the empty
      string it starts with (or any text an input gives), a `Date` chosen in a
      picker, `null` (a cleared picker) or `undefined` (a key never set). */
  datatype FieldValue = Str(text: string) | Picked(date: Date) | Null | Undefined

  /** JavaScript truthiness of a field value: the empty string, `null` and
      `undefined` are falsy, a non-empty string and any `Date` are truthy. */
  predicate Truthy(v: FieldValue)
  {
    match v
    case Str(s) => s != ""
    case Picked(_) => true
    case Null => false
    case Undefined => false
  }

  /** An image file chosen in a file input. `NoFile` stands both for the empty
      string the add-dog form starts with and for the missing first entry of
      an empty file list. */
  datatype FileValue = NoFile | File(handle: string)
}
