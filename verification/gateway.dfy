/**
 * The request handler once the client body has parsed: the messages are
 * rewritten, the backend request is built (always streaming), and the
 * backend's reads are answered on the path the client asked for with
 * `stream ?? false`, as server-sent events or as one response message
 * carrying the client's model name. The HTTP exchange itself is not part of
 * this model: the backend's reads arrive as `chunks`.
 */
module Gateway {
  import opened Wrappers
  import opened Json
  import opened Messages
  import opened Replacements
  import opened RequestTranslation
  import opened Records
  import S = StreamSpec
  import A = AggregateSpec
  import StreamTranslator
  import ResponseAggregator

  /** What the client gets back. */
  datatype Reply = Streamed(events: seq<S.Event>) | Aggregated(response: A.Response)

  /** Whether the client asked for server-sent events; an absent flag means no. */
  predicate WantsStream(req: ClientRequest)
    ensures WantsStream(req) <==> req.stream == Some(true)
  {
    req.stream.GetOr(false)
  }

  method Handle(req: ClientRequest, rules: seq<Rule>, cfg: Overrides, stringify: Json -> string,
                chunks: seq<string>, decode: string -> Option<Chunk>, parseArgs: string -> Option<Json>)
    returns (forwarded: BackendRequest, reply: Reply)
    ensures forwarded == ForwardRequest(req, rules, cfg, stringify)
    ensures forwarded.stream && forwarded.model == cfg.model
    ensures forwarded.messages == TranslateMessages(ApplyReplacements(req.messages, rules), stringify)
    ensures reply.Streamed? <==> req.stream == Some(true)
    ensures reply.Streamed? ==> reply.events == S.Reads(chunks, decode, parseArgs).events
    ensures reply.Aggregated? ==>
              && reply.response == A.BuildResponse(A.Reads(chunks, decode).collected, req.model, parseArgs)
              && reply.response.model == req.model
  {
    forwarded := ForwardRequest(req, rules, cfg, stringify);
    if WantsStream(req) {
      var events := StreamTranslator.TranslateStream(chunks, decode, parseArgs);
      reply := Streamed(events);
    } else {
      var response := ResponseAggregator.AggregateStream(chunks, req.model, decode, parseArgs);
      reply := Aggregated(response);
    }
  }
}
