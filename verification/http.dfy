/**
 The values a handler writes back: `ErrorData` as declared in
 internal/web/handler.go and the (content type, status, body) triple that
 `sendResponse` puts on the wire.
 */
module Http {

  const StatusOK := 200
  const StatusBadRequest := 400
  const StatusNotFound := 404
  const StatusRequestTimeout := 408
  const StatusInternalServerError := 500
  const StatusBadGateway := 502

  const TextPlain := "text/plain"
  const ApplicationJson := "application/json"

  /** A failure to report: the plain-text message and the HTTP status. */
  datatype ErrorData = ErrorData(message: string, statusCode: int)

  /**
   A response body. `Responses` stands for the JSON encoding of the handler's
   `Result{Responses}` value and holds the ordered list of strings it encodes.
   */
  datatype Body = Text(text: string) | Responses(responses: seq<string>)

  datatype Reply = Reply(contentType: string, statusCode: int, body: Body)

  /** How an `ErrorData` is sent: its message as plain text, under its status. */
  function ErrorReply(e: ErrorData): (r: Reply)
    ensures r.contentType == TextPlain && r.body.Text?
    ensures r.statusCode == e.statusCode && r.body.text == e.message
  {
    Reply(TextPlain, e.statusCode, Text(e.message))
  }
}
