/**
 * The market records the two venues return, as the program reads them.
 * A venue record is a JSON object; every field the program reads is a
 * `Field`, so that an absent key, a key holding JSON null and a key holding
 * a value stay distinct, as they are for Python's `d[k]`, `d.get(k)` and
 * `d.get(k, default)`.
 */
module Records {
  import opened Wrappers

  datatype Field<+T> = Missing | Null | Val(value: T)

  /** Python `d.get(k)`: None both for an absent key and for JSON null. */
  function Get<T>(f: Field<T>): (r: Option<T>)
    ensures r.Some? <==> f.Val?
    ensures r.Some? ==> r.value == f.value
  {
    if f.Val? then Some(f.value) else None
  }

  /** Truthiness of an optional text: present and not the empty string. */
  predicate Truthy(s: Option<string>) {
    s.Some? && s.value != ""
  }

  /** Truthiness of `d.get(k)` for a text field. */
  predicate TruthyField(f: Field<string>) {
    f.Val? && f.value != ""
  }

  /** A Kalshi market; `extra` holds every other field in canonical text form. */
  datatype KalshiMarket = KalshiMarket(
    ticker: Field<string>,
    title: Field<string>,
    rulesPrimary: Field<string>,
    rulesSecondary: Field<string>,
    yesBid: Field<int>,          // cents
    noBid: Field<int>,           // cents
    expirationTime: Field<string>,
    extra: map<string, string>)

  /** A Polymarket market; `extra` holds every other field in canonical text form. */
  datatype PolyMarket = PolyMarket(
    id: Field<string>,
    question: Field<string>,
    description: Field<string>,
    outcomePrices: Field<string>,  // a JSON-encoded array of decimal strings
    endDate: Field<string>,
    extra: map<string, string>)

  /** The Python exceptions the core raises or catches. */
  datatype PyError = KeyError | TypeError | ValueError | JsonDecodeError | IndexError

  /** A query-string value. */
  datatype ParamValue = IntParam(i: int) | TextParam(s: string) | RealParam(r: real)
}
