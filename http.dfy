/** What the development servers hand to `net/http`: a mux of routes,
    possibly wrapped in logging middleware, and the listen address. The
    handlers' response writing is I/O; a route records what it serves. */
module Http {
  import opened Text

  /** What a route serves: a page's bytes, a static file (sent as CSS or
      not), or the file server over a root. */
  datatype Target =
    | Page(body: string)
    | Static(file: string, css: bool)
    | Assets(root: string)

  datatype Route = Route(pattern: string, target: Target)

  /** An `http.Handler`: nil, a `ServeMux`, or a logging middleware
      around another handler. */
  datatype Handler = Nil | Mux(routes: seq<Route>) | Logged(inner: Handler)

  /** How many logging layers wrap the handler. */
  function Layers(h: Handler): nat {
    if h.Logged? then 1 + Layers(h.inner) else 0
  }

  /** The `http.Server` whose handler a reload swaps. */
  class HttpServer {
    var addr: string
    var handler: Handler

    constructor (a: string, h: Handler)
      ensures addr == a && handler == h
    {
      addr := a;
      handler := h;
    }
  }

  /** `fmt.Sprintf(":%v", port)`. */
  function Address(port: int): (r: string)
    ensures |r| >= 2 && r[0] == ':'
  {
    IntToStringRoundTrip(port);
    ":" + IntToString(port)
  }

  /** The address is ":" followed by the port, which reads back from it. */
  lemma AddressRoundTrip(port: int)
    ensures Address(port)[1..] == IntToString(port)
    ensures ParseInt(Address(port)[1..]) == port
  {
    IntToStringRoundTrip(port);
    assert Address(port)[1..] == IntToString(port);
  }
}
