/** The parsed response body handed to the decoder: a JSON value tree. */
module Json {

  /** A JSON number after parsing. `Integral` is a number whose value is an
      integer, however it was written (`2`, `2.0` and `2e0` are all
      `Integral(2)`); `Fractional` is any other number, kept as its literal
      because the model does no floating-point arithmetic. A `Fractional`
      literal therefore never denotes an integer: every value of this type
      stands for a parse, and a `Fractional("2")` stands for none. */
  datatype Number = Integral(i: int) | Fractional(literal: string)

  /** A JSON value. An object is a map, as the platform parser delivers it:
      a key occurs at most once. */
  datatype Json =
    | JNull
    | JBool(b: bool)
    | JNum(n: Number)
    | JString(s: string)
    | JArray(items: seq<Json>)
    | JObject(fields: map<string, Json>)
}
