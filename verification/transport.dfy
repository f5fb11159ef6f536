/**
 * The HTTP transport the client needs, reduced to what it observably does:
 * every request is recorded in order, and the engine's reply is a function of
 * the request and of how many requests came before it.
 */
module Transport {
  import opened Wrappers

  datatype Request =
    | Post(url: string, body: string)
    | Get(url: string)

  /** What `restPost`/`restGet` return: a status, a body and possibly an error. */
  datatype Reply = Reply(status: int, body: string, err: Option<string>)

  class Transport {
    /** Every request sent so far, oldest first. */
    var requests: seq<Request>
    /** The engine: the reply to the n-th request. */
    const respond: (nat, Request) -> Reply

    constructor (respond: (nat, Request) -> Reply)
      ensures this.respond == respond && requests == []
    {
      this.respond := respond;
      requests := [];
    }

    /** `restPost(url, body)`. */
    method Post(url: string, body: string) returns (reply: Reply)
      modifies this
      ensures requests == old(requests) + [Request.Post(url, body)]
      ensures reply == respond(|old(requests)|, Request.Post(url, body))
    {
      reply := respond(|requests|, Request.Post(url, body));
      requests := requests + [Request.Post(url, body)];
    }

    /** `restGet(url)`. */
    method Get(url: string) returns (reply: Reply)
      modifies this
      ensures requests == old(requests) + [Request.Get(url)]
      ensures reply == respond(|old(requests)|, Request.Get(url))
    {
      reply := respond(|requests|, Request.Get(url));
      requests := requests + [Request.Get(url)];
    }
  }
}
