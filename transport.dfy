/** What a chat hook's request can come back with, standing for `fetch`,
    `response.body.getReader()` and `reader.read()`. */
module Transport {
  import opened Common

  /** A thrown error: its `name` and its `message`. */
  datatype Thrown = Thrown(name: string, message: string)

  /** `String(error)` for an Error: the name, then ": " and the message when
      both are non-empty; whichever one is non-empty otherwise. */
  function ErrorText(e: Thrown): (r: string)
    ensures StartsWith(r, e.name)
    ensures e.message == "" ==> r == e.name
    ensures e.name == "" ==> r == e.message
    ensures e.name != "" && e.message != "" ==> |r| == |e.name| + 2 + |e.message| && r[|e.name|..|e.name| + 2] == ": "
    ensures e.name != "" && e.message != "" ==> r[|e.name| + 2..] == e.message
  {
    if e.message == "" then e.name
    else if e.name == "" then e.message
    else e.name + ": " + e.message
  }

  predicate IsAbort(e: Thrown)
  {
    e.name == "AbortError"
  }

  /** The error `new Error(message)` throws. */
  function PlainError(message: string): Thrown
  {
    Thrown("Error", message)
  }

  /** How a request ends:
      `Rejected`: `fetch` itself rejects (network failure, abort);
      `HttpStatus`: a response whose status is not OK, with its body parsed as
      JSON when that succeeds;
      `NoReader`: an OK response without a body;
      `Body`: the decoded chunks `reader.read()` delivers, and the error it
      then throws, if it does not end normally. */
  datatype Response =
    | Rejected(error: Thrown)
    | HttpStatus(code: int, errorBody: Option<Json>)
    | NoReader
    | Body(chunks: seq<string>, failure: Option<Thrown>)
}
