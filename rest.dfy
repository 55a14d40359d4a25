/**
 * The REST transport as seen by the deployment client: a server that answers
 * requests from a scripted list of responses and records every event, and a
 * client object that can be closed. Authentication, CSRF and logging filters
 * are not modelled; they do not change which requests are sent.
 */
module Rest {
  import opened Wrappers
  import opened Json

  /** A request URI: its text and whether it was passed through URI.normalize(). */
  datatype Uri = Uri(text: string, normalized: bool)

  /** An HTTP response: status code, Location header (if any), JSON body. */
  datatype Response = Response(status: int, location: Option<string>, body: JsonValue)

  /** The multipart deploy entity: the JSON "model" part and the archive in the "deployment" part. */
  datatype MultiPart = MultiPart(model: JsonValue, deployment: string)

  datatype Request =
    | Post(uri: Uri, entity: MultiPart)
    | Get(uri: Uri)
    | Delete(uri: Uri)

  /** What the server observes: clients being built and closed, requests being sent. */
  datatype Event = ClientOpened | Sent(request: Request) | ClientClosed

  /**
   * The remote admin server. `script` holds the responses it will give, in
   * order; once it is exhausted a request fails in transport.
   */
  class Server {
    var script: seq<Response>
    var log: seq<Event>

    constructor (script: seq<Response>)
      ensures this.script == script && log == []
    {
      this.script := script;
      log := [];
    }
  }

  /** A Jersey client bound to the server; `open` until close() is called. */
  class RestClient {
    const server: Server
    var open: bool

    constructor (server: Server)
      modifies server
      ensures this.server == server && open
      ensures server.log == old(server.log) + [ClientOpened]
      ensures server.script == old(server.script)
    {
      this.server := server;
      open := true;
      new;
      server.log := server.log + [ClientOpened];
    }

    /** Sends one request; `None` is a transport failure (no response at all). */
    method Send(request: Request) returns (response: Option<Response>)
      requires open
      modifies server
      ensures server.log == old(server.log) + [Sent(request)]
      ensures old(server.script) == [] ==> response == None && server.script == []
      ensures old(server.script) != [] ==>
                response == Some(old(server.script)[0]) && server.script == old(server.script)[1..]
    {
      server.log := server.log + [Sent(request)];
      if server.script == [] {
        response := None;
      } else {
        response := Some(server.script[0]);
        server.script := server.script[1..];
      }
    }

    method Close()
      modifies this, server
      ensures !open && server.script == old(server.script)
      ensures server.log == old(server.log) + [ClientClosed]
    {
      open := false;
      server.log := server.log + [ClientClosed];
    }
  }
}
