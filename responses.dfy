/** The answers a client submits: a JSON object from question id to value. The
    form only ever sends option strings, but the request body is arbitrary
    JSON, so a value that is not a string is kept with nothing but its
    JavaScript truthiness. */
module Responses {

  datatype Value = Str(text: string) | Other(truthy: bool)

  type ResponseSet = map<string, Value>

  /** JavaScript truthiness: the empty string is falsy. */
  predicate Truthy(v: Value) {
    match v
    case Str(t) => t != ""
    case Other(b) => b
  }

  /** `responses[id]` exists and is truthy (a missing key reads as `undefined`). */
  predicate IsAnswered(responses: ResponseSet, id: string) {
    id in responses && Truthy(responses[id])
  }

  /** `responses[id] === s`. */
  predicate HasAnswer(responses: ResponseSet, id: string, s: string) {
    id in responses && responses[id] == Str(s)
  }

  /** `list.includes(v)` for a list of strings: strict equality, so only a
      string value can match. */
  predicate InList(list: seq<string>, v: Value) {
    v.Str? && v.text in list
  }
}
