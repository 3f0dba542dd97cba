/** What a JavaScript `throw` can carry, as the orchestration code tells the cases apart. */
module Errors {
  import Json

  datatype Thrown =
    | ErrorObject(message: string)   // an instance of Error (or a subclass)
    | Raw(payload: Json.Json)        // any other thrown value
}
