/** `Server.ServeHTTP`: the single route of the service. */
module Routing {
  import opened Http

  /** Where a request goes: to the batch handler, or straight back with a reply. */
  datatype Route = Dispatch | Respond(reply: Reply)

  const NotFoundReply := Reply(TextPlain, StatusNotFound, Text("404"))

  /** Only `POST /` reaches the batch handler; anything else is a plain-text 404. */
  function RouteRequest(verb: string, path: string): (r: Route)
    ensures r.Dispatch? <==> verb == "POST" && path == "/"
    ensures r.Respond? ==> r.reply == Reply("text/plain", 404, Text("404"))
  {
    if verb == "POST" && path == "/" then Dispatch else Respond(NotFoundReply)
  }
}
