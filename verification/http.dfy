/**
 * The shape of the HTTP exchanges the server code and the command-line script take part in.
 * Nothing is sent: a request is a value, and a reply is given, including what `JSON.parse`
 * makes of its text.
 */
module Http {
  import opened Wrappers
  import opened Json

  /**
   * A settled `fetch`: the status and body text with `JSON.parse(text)` (`None` when it
   * throws), or the message of the error the `fetch` itself rejects with.
   */
  datatype Reply = Reply(status: int, text: string, parsed: Option<Js>) | NetworkError(message: string)

  /** A `Blob` or `File` handed to `FormData`: a `File` carries a name. */
  datatype Upload = Upload(isFile: bool, name: string, mime: string, size: nat)

  /** A multipart form entry: text or a file. */
  datatype Part = Field(value: string) | Attachment(file: Upload)

  /** A POST or GET with its `Authorization` header, if any, and its form entries in order. */
  datatype Request = Request(url: string, authorization: Option<string>, form: seq<(string, Part)>)

  /** The requests an operation sent, in order, and how it ended. */
  datatype Exchange<+T> = Exchange(requests: seq<Request>, result: Result<T>)

  /** The names of a form's entries, in order. */
  function FieldNames(form: seq<(string, Part)>): (r: seq<string>)
    ensures |r| == |form|
    ensures forall i :: 0 <= i < |form| ==> r[i] == form[i].0
  {
    if |form| == 0 then [] else [form[0].0] + FieldNames(form[1..])
  }
}
