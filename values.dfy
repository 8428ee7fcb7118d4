/** Values shared by every part of the model: optional and fallible results,
    the field values that documents, forms and patches hold, and the records
    the identity provider and the browser hand to the application. */
module Values {

  datatype Option<T> = None | Some(value: T)

  /** A result that failed carries the error's message. */
  datatype Result<T> = Ok(value: T) | Err(message: string)

  /** The outcome of a call into the backend whose success carries no value. */
  datatype Outcome = Pass | Fail(message: string)

  /** An abstract instant. The clock is never read: every operation that
      stamps a time takes "now" as a parameter. */
  type Time = int

  /** A field value as a document, a form or a patch holds it.
      `Instant` is a date object (the database stores it as a timestamp);
      `DayText` is the locale date string of an instant, a non-empty string. */
  datatype Value = Undefined | Null | Text(s: string) | Instant(t: Time) | DayText(day: Time)

  /** A document, a form's value or an update patch: field name to value.
      Object spread `{...a, ...b}` is the right-biased union `a + b`. */
  type Fields = map<string, Value>

  /** The database accepts a written document or patch only when none of
      its fields is undefined; otherwise the write is refused. */
  predicate Writable(f: Fields)
  {
    Undefined !in f.Values
  }

  /** Reading a property: a key that is not there reads as undefined. */
  function Get(f: Fields, key: string): Value
  {
    if key in f then f[key] else Undefined
  }

  /** `patchValue` of one control: a control the form does not have is ignored. */
  function Patch(form: Fields, key: string, v: Value): Fields
  {
    if key in form then form[key := v] else form
  }

  /** `reset()`: every control of the form becomes null. */
  function ResetForm(form: Fields): (r: Fields)
    ensures r.Keys == form.Keys
    ensures forall k :: k in r ==> r[k] == Null
  {
    map k | k in form :: Null
  }

  /** JavaScript truthiness of a field value. */
  predicate Truthy(v: Value)
  {
    match v
    case Undefined => false
    case Null => false
    case Text(s) => s != ""
    case Instant(_) => true
    case DayText(_) => true
  }

  /** An optional identifier is truthy when it is present and not empty. */
  predicate PresentId(id: Option<string>)
  {
    id.Some? && id.value != ""
  }

  /** The value a nullable string becomes in a record. */
  function NullableText(s: Option<string>): Value
  {
    match s
    case Some(t) => Text(t)
    case None => Null
  }

  /** A signed-in user as the identity provider reports it. */
  datatype AuthUser = AuthUser(uid: string, email: Option<string>, displayName: Option<string>, photoURL: Option<string>)

  /** A file the user picked: its name, its size in bytes and its MIME type. */
  datatype File = File(name: string, size: nat, mimeType: string)
}
