/** The Python values the scraper, the analyst and the conversation work on. */
module PyModel {

  datatype Option<+T> = None | Some(value: T)

  /** The exceptions the modelled code raises and does not catch itself. */
  datatype PyError =
    | AssertionError
    | KeyError
    | TypeError
    | ValueError
    | SyntaxError
    | ZeroDivisionError
    | UnboundLocalError
    | ApiError     // the chat-completion call raised
    | OtherError   // any other exception (for instance one raised by a literal parser)

  /** A call that returns a value of type T or raises. */
  datatype Result<+T> = Ok(value: T) | Err(error: PyError)

  /** A value of an extracted record: selectorlib gives None for a field whose selector matched nothing. */
  datatype Field = Null | Text(text: string) | Number(number: real)

  /** A listing record, a Python dictionary from field names to values. */
  type Record = map<string, Field>

  /** Python truthiness of a field value. */
  predicate Truthy(f: Field)
  {
    match f
    case Null => false
    case Text(s) => s != ""
    case Number(x) => x != 0.0
  }

  /** Python truthiness of an `Optional[bool]`. */
  predicate TruthyFlag(b: Option<bool>)
  {
    b == Some(true)
  }

  /** An `Optional[str]` stored as a record value. */
  function ToField(u: Option<string>): Field
  {
    match u
    case None => Null
    case Some(s) => Text(s)
  }
}
