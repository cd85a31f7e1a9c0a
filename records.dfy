/** Documents as the handlers see them: JSON-like field values, documents as
    field maps, and the stored user account. */
module Records {
  import opened Common

  /** A JSON value in a request body or a stored document. Numbers are exact
      reals; NaN and infinities do not occur in request bodies. */
  datatype Val = Str(s: string) | Num(n: real) | Bool(b: bool) | Null | List(items: seq<Val>)

  /** A document or request body: field name to value. An absent field is
      JavaScript's `undefined`. */
  type Doc = map<string, Val>

  /** JavaScript truthiness of `obj.field`. */
  predicate Truthy(v: Option<Val>)
  {
    match v
    case None => false
    case Some(Str(s)) => s != ""
    case Some(Num(n)) => n != 0.0
    case Some(Bool(b)) => b
    case Some(Null) => false
    case Some(List(_)) => true
  }

  function Field(d: Doc, k: string): Option<Val>
  {
    if k in d then Some(d[k]) else None
  }

  /** A body field a handler reads as a string; other values are taken as
      absent. */
  function BodyText(body: Doc, k: string): Option<string>
  {
    match Field(body, k)
    case Some(Str(s)) => Some(s)
    case _ => None
  }

  /** `d[k] = v`, where assigning `undefined` leaves the field absent. */
  function SetField(d: Doc, k: string, v: Option<Val>): (r: Doc)
    ensures v.Some? ==> k in r && r[k] == v.value
    ensures v.None? ==> k !in r
    ensures forall j :: j != k ==> Field(r, j) == Field(d, j)
  {
    match v
    case Some(x) => d[k := x]
    case None => d - {k}
  }

  /** A stored document together with its `_id`. */
  datatype Record = Record(id: Id, doc: Doc)

  /** A stored user account (the fields of the user schema). Times are
      milliseconds since the epoch; `None` is an unset field. */
  datatype User = User(
    id: Id,
    name: string,
    email: string,
    photo: string,
    password: Option<string>,
    passwordConfirm: Option<string>,
    role: string,
    active: Option<bool>,
    passwordChangedAt: Option<int>,
    passwordResetToken: Option<string>,
    passwordResetExpires: Option<int>)
}
