/**
 * The nutrition provider's side of one search: the request the backend sends
 * to the Edamam food-database parser endpoint, and the shape of what comes back.
 *
 * The provider answers with loosely typed JSON. Here a reply is decoded once, at
 * the boundary, into a schema in which every field is either missing, a value of
 * the type the backend expects, or some other JSON value (`null`, a number where
 * a string belongs, ...), so that every default the backend applies and every
 * place where it raises is visible in the model.
 */
module Edamam {

  const BaseUrl: string := "https://api.edamam.com/api/food-database/v2/parser"

  /** The fixed `nutrition-type` parameter: cooking semantics. */
  const NutritionType: string := "cooking"

  /** The bound on the outbound call, in seconds. */
  const TimeoutSeconds: real := 10.0

  /**
   * One key of a JSON object: absent, present with a value of type `T`, or
   * present with a value of another type. For the last, `truthy` is its Python
   * truth value and `error` the message Python raises when the backend uses it
   * as a `T`.
   */
  datatype Field<T> = Missing | Value(v: T) | Invalid(truthy: bool, error: string)

  /** One entry of a nutrient map: a number, or another JSON value (such as `null`). */
  datatype Nutrient = Amount(x: real) | NotANumber(error: string)

  /** The `food` object of one hint. Nutrients are keyed by provider codes such as `ENERC_KCAL`. */
  datatype Food = Food(foodId: Field<string>, foodLabel: Field<string>, nutrients: Field<map<string, Nutrient>>)

  /** One candidate match: an object whose `food` key is a field, or some other JSON value. */
  datatype Hint = Hint(food: Field<Food>) | NotAnObject(error: string)

  /** The decoded object body of a successful reply. */
  datatype Payload = Payload(hints: Field<seq<Hint>>)

  /** The body of a reply: either it decodes into the schema, or decoding fails with a reason. */
  datatype Body = Parsed(payload: Payload) | Malformed(reason: string)

  /** The query parameters, URL and timeout of the one outbound GET. */
  datatype Request = Request(
    url: string,
    appId: string,
    appKey: string,
    ingr: string,
    nutritionType: string,
    timeout: real)

  /**
   * How one outbound call ends: the provider replied (with any status code, its
   * raw text and its decoded body), the transport failed (connect error, DNS
   * failure, reset, timeout), or something else went wrong inside the client.
   */
  datatype Exchange =
    | Replied(status: int, text: string, body: Body)
    | RequestError(reason: string)
    | Failed(reason: string)

  /** The status range the HTTP client accepts without raising. */
  predicate IsSuccess(status: int) {
    200 <= status < 300
  }

  /**
   * The provider, as the endpoint sees it: `Get` is the one outbound call, and
   * `calls` records every request made through it, in order.
   */
  class Provider {
    const respond: Request -> Exchange
    var calls: seq<Request>

    constructor (respond: Request -> Exchange)
      ensures this.respond == respond && calls == []
    {
      this.respond := respond;
      calls := [];
    }

    method Get(r: Request) returns (x: Exchange)
      modifies this
      ensures x == respond(r)
      ensures calls == old(calls) + [r]
    {
      x := respond(r);
      calls := calls + [r];
    }
  }
}
