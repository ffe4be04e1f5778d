/** What a screen sees of one `fetch` to the backend, and the status banner it shows. */
module Http {
  import opened Js

  /** A banner `{ type: 'success' | 'error', text }`. */
  datatype Notice = Success(text: string) | Error(text: string)

  /** The JSON value a response body parses to: an object with optional
      `message` and `status` string fields, or the literal `null` (whose
      property reads throw a TypeError). */
  datatype Body = Object(message: Option<string>, status: Option<string>) | Null

  /** The result of `response.json()`: rejected, or a JSON value. */
  datatype Parsed = Unparseable | Json(body: Body)

  /** The settled `fetch`: a response with its `ok` flag and what its body
      parses to, or a rejection with no response at all. */
  datatype Outcome = Received(ok: bool, parsed: Parsed) | NetworkError

  const NetworkErrorText := "Network error. Please try again."
}
