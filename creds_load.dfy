/**
 * Loading the credential record of a session: `readData` selects the session's row and parses
 * its payload, and the record is the parsed value or, when that is falsy, the library's
 * freshly initialised credentials (`readData() || initAuthCreds()`).
 */
module CredsLoad {
  import opened Wrappers
  import opened JsValues
  import opened KeyStore

  /** What parsing a stored payload gives. */
  datatype Parsed =
    | Malformed          // `JSON.parse` throws
    | FalsyJson          // the payload is `null`, `false`, `0` or `""`
    | Record(creds: Creds)

  /** What selecting the session's row gives. */
  datatype ReadOutcome =
    | QueryError         // the select reports an error, including "no row" from `.single()`
    | NoRow              // no error, but no data
    | Row(payload: Parsed)

  /** Why loading the credentials threw. */
  datatype LoadError = UnparsablePayload

  /**
   * `readData()`: `null` on an error or a missing row, otherwise the parsed payload; a payload
   * that does not parse makes the call throw. `None` stands for a value that the `||` of the
   * caller discards: the `null` of the first two cases, or a falsy parsed payload (`null`,
   * `false`, `0`, `""`), which `readData` itself returns unchanged.
   */
  function ReadData(outcome: ReadOutcome): (r: Result<Option<Creds>, LoadError>)
    ensures r.Failure? <==> outcome == Row(Malformed)
    ensures r.Success? && r.value.Some? <==> outcome.Row? && outcome.payload.Record?
    ensures r.Success? && r.value.Some? ==> r.value.value == outcome.payload.creds
  {
    match outcome
    case QueryError => Success(None)
    case NoRow => Success(None)
    case Row(Malformed) => Failure(UnparsablePayload)
    case Row(FalsyJson) => Success(None)
    case Row(Record(c)) => Success(Some(c))
  }

  /**
   * `readData() || initAuthCreds()`: the stored record when there is one, the given default
   * record otherwise; nothing is written back.
   */
  function LoadCreds(outcome: ReadOutcome, defaults: Creds): (r: Result<Creds, LoadError>)
    ensures r.Failure? <==> outcome == Row(Malformed)
    ensures outcome.Row? && outcome.payload.Record? ==> r == Success(outcome.payload.creds)
    ensures outcome == QueryError || outcome == NoRow || outcome == Row(FalsyJson) ==>
              r == Success(defaults)
  {
    match ReadData(outcome)
    case Failure(e) => Failure(e)
    case Success(stored) => Success(if stored.Some? then stored.value else defaults)
  }

  /** A failed query and a missing row cannot be told apart: both load the default record. */
  lemma ErrorAndMissingRowAgree(defaults: Creds)
    ensures LoadCreds(QueryError, defaults) == LoadCreds(NoRow, defaults) == Success(defaults)
  {
  }

  /**
   * A session loaded from defaults that carry no `keys` property answers every `get` with an
   * empty object (and, by the contract of `AuthState.Set`, fails every non-empty `set`).
   */
  lemma DefaultsHaveNoKeys(outcome: ReadOutcome, defaults: Creds, category: string,
                           ids: seq<string>, fromObject: JsValue -> JsValue)
    requires outcome == QueryError || outcome == NoRow || outcome == Row(FalsyJson)
    requires defaults.keys.None?
    ensures LoadCreds(outcome, defaults).Success?
    ensures Fetched(LoadCreds(outcome, defaults).value.keys, category, ids, fromObject) == map[]
  {
  }
}
