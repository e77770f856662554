/**
 * Stand-ins for the parts of Go's net/http that the client touches: the request
 * methods, the header map, the request object, and the HTTP client handle whose
 * round trip reaches the remote service.
 */
module Http {
  import opened Wrappers

  type Byte = b: int | 0 <= b < 256
  type Bytes = seq<Byte>

  /** The request methods the client uses: http.MethodGet, http.MethodPost, http.MethodPatch. */
  datatype Method = GET | POST | PATCH

  /** http.Header: every key maps to its values, in the order they were added. */
  type Header = map<string, seq<string>>

  /** Header.Values: the values stored under `key`, none when the key is absent. */
  function Values(h: Header, key: string): seq<string>
  {
    if key in h then h[key] else []
  }

  /** Header.Add: appends `value` to the values of `key` and leaves every other key as it was. */
  function HeaderAdd(h: Header, key: string, value: string): (h': Header)
    ensures h'.Keys == h.Keys + {key}
    ensures Values(h', key) == Values(h, key) + [value]
    ensures forall k :: k != key ==> Values(h', k) == Values(h, k)
  {
    h[key := Values(h, key) + [value]]
  }

  /** What a dispatched request carries: method, absolute URL, header and optional body. */
  datatype Wire = Wire(verb: Method, url: string, header: Header, body: Option<Bytes>)

  /**
   * A response: the numeric status code, the status line (such as "404 Not Found")
   * and what reading the whole body yields (ioutil.ReadAll: the bytes, or its error).
   */
  datatype Response = Response(statusCode: int, status: string, body: Result<Bytes>)

  /** What one round trip (http.Client.Do) gives back: a response, or a transport error. */
  datatype Outcome = Resp(response: Response) | TransportErr(msg: string)

  /**
   * The behaviour of everything outside the client: `urlError` is http.NewRequest's
   * verdict on a URL (None when it parses), `server` answers a dispatched request
   * given every request dispatched before it, so earlier requests may change later answers.
   */
  datatype Net = Net(urlError: string -> Option<string>, server: (seq<Wire>, Wire) -> Outcome)

  /** http.Request: fixed method, URL and body, and a header map that is filled in place. */
  class Request {
    const verb: Method
    const url: string
    const body: Option<Bytes>
    var header: Header

    /** A request as http.NewRequest leaves it: the given parts and an empty header. */
    constructor (verb: Method, url: string, body: Option<Bytes>)
      ensures this.verb == verb && this.url == url && this.body == body
      ensures header == map[]
    {
      this.verb := verb;
      this.url := url;
      this.body := body;
      header := map[];
    }

    /** req.Header.Add. */
    method Add(key: string, value: string)
      modifies this
      ensures header == HeaderAdd(old(header), key, value)
    {
      header := HeaderAdd(header, key, value);
    }

    /** The request as it would go on the wire now. */
    function ToWire(): (w: Wire)
      reads this
      ensures w.verb == verb && w.url == url && w.header == header && w.body == body
    {
      Wire(verb, url, header, body)
    }
  }

  /**
   * The *http.Client handle together with http.NewRequest and the remote service.
   * `sent` records every request dispatched through this handle, in order.
   */
  class Transport {
    const net: Net
    var sent: seq<Wire>

    constructor (net: Net)
      ensures this.net == net && sent == []
    {
      this.net := net;
      sent := [];
    }

    /** http.NewRequest: a fresh request with an empty header, or the URL's error and no request. */
    method NewRequest(verb: Method, url: string, body: Option<Bytes>) returns (req: Request?, err: Option<string>)
      ensures err == net.urlError(url)
      ensures err.Some? ==> req == null
      ensures err.None? ==> req != null && fresh(req) && req.ToWire() == Wire(verb, url, map[], body)
    {
      err := net.urlError(url);
      if err.Some? {
        req := null;
      } else {
        req := new Request(verb, url, body);
      }
    }

    /** http.Client.Do: dispatches the request as it stands and returns the service's answer. */
    method Do(req: Request) returns (o: Outcome)
      modifies this
      ensures sent == old(sent) + [req.ToWire()]
      ensures o == net.server(old(sent), req.ToWire())
    {
      o := net.server(sent, req.ToWire());
      sent := sent + [req.ToWire()];
    }
  }
}
