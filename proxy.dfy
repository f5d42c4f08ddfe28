/** The two proxy handlers: reads are handed to the reverse proxy as they
    are; writes have their body read in full and the request re-framed
    in place before they are handed over. The reverse proxy itself
    (host rewriting, the network call, relaying the response) is the
    outcome `Forwarded(backend, sent)`: the request as it is handed over. */
module Proxy {
  import opened Http

  /** A request body stream: the bytes it yields, and whether reading it
      ends in an error after them. */
  datatype Body = Body(data: seq<byte>, readError: Option<string>)

  /** `ioutil.ReadAll`: the whole stream, or the error that ended it. */
  function ReadAll(b: Body): Result<seq<byte>, string>
  {
    match b.readError
    case None => Success(b.data)
    case Some(e) => Failure(e)
  }

  /** An in-memory stream over the given bytes, which never fails:
      `ioutil.NopCloser(bytes.NewBuffer(data))`. */
  function Buffered(data: seq<byte>): (b: Body)
    ensures ReadAll(b) == Success(data)
  {
    Body(data, None)
  }

  /** The parts of an inbound request the handlers look at or change. */
  datatype RequestView = RequestView(
    verb: string,
    target: string,      // path and query, passed on untouched
    header: Headers,
    body: Body,
    contentLength: int)

  /** What a handler ends with: a reply of its own, or the request
      handed to the reverse proxy for the backend. */
  datatype Outcome = Replied(reply: Reply) | Forwarded(backend: string, sent: RequestView)

  /** The inbound request record, which the write handler changes in place. */
  class Request {
    var verb: string
    var target: string
    var header: Headers
    var body: Body
    var contentLength: int

    constructor (verb: string, target: string, header: Headers, body: Body, contentLength: int)
      ensures View() == RequestView(verb, target, header, body, contentLength)
    {
      this.verb := verb;
      this.target := target;
      this.header := header;
      this.body := body;
      this.contentLength := contentLength;
    }

    function View(): RequestView
      reads this
    {
      RequestView(verb, target, header, body, contentLength)
    }
  }

  const JSON_CONTENT_TYPE := "application/json"

  const BODY_READ_ERROR := Reply(STATUS_BAD_REQUEST, ErrorBody("Failed to read request body"))

  /** The re-framing of a write request: fails with 400 when the body
      cannot be read; otherwise the body is the bytes read, byte for byte,
      the length is their count, Content-Type is forced to JSON, and
      nothing else about the request changes. */
  function Reframe(v: RequestView): (r: Result<RequestView, Reply>)
    ensures r.Failure? <==> ReadAll(v.body).Failure?
    ensures r.Failure? ==> r.error == BODY_READ_ERROR
    ensures r.Success? ==>
      && ReadAll(r.value.body) == ReadAll(v.body)
      && r.value.contentLength == |ReadAll(v.body).value|
      && HeaderGet(r.value.header, CONTENT_TYPE) == JSON_CONTENT_TYPE
      && r.value.header[CONTENT_TYPE] == [JSON_CONTENT_TYPE]
      && r.value.header.Keys == v.header.Keys + {CONTENT_TYPE}
      && (forall k :: k in v.header && k != CONTENT_TYPE ==> r.value.header[k] == v.header[k])
      && r.value.verb == v.verb
      && r.value.target == v.target
  {
    match ReadAll(v.body)
    case Failure(_) => Failure(BODY_READ_ERROR)
    case Success(data) =>
      Success(v.(body := Buffered(data),
                 contentLength := |data|,
                 header := HeaderSet(v.header, CONTENT_TYPE, JSON_CONTENT_TYPE)))
  }

  /** Re-framing a request twice changes nothing the second time. */
  lemma ReframeIdempotent(v: RequestView)
    requires Reframe(v).Success?
    ensures Reframe(Reframe(v).value) == Reframe(v)
  {
    var w := Reframe(v).value;
    assert w.header[CONTENT_TYPE := [JSON_CONTENT_TYPE]] == w.header;
  }

  /** The read handler: the request goes to the backend unchanged. */
  method ReverseProxy(req: Request, backend: string) returns (o: Outcome)
    ensures o == Forwarded(backend, req.View())
  {
    o := Forwarded(backend, req.View());
  }

  /** The write handler: reads the body; on a read error replies 400 and
      never contacts the backend; otherwise rewrites the request in place
      as `Reframe` says and hands it to the reverse proxy. */
  method ProxyWithBody(req: Request, backend: string) returns (o: Outcome)
    modifies req
    ensures Reframe(old(req.View())).Failure? ==>
      o == Replied(Reframe(old(req.View())).error) && unchanged(req)
    ensures Reframe(old(req.View())).Success? ==>
      req.View() == Reframe(old(req.View())).value && o == Forwarded(backend, req.View())
  {
    var read := ReadAll(req.body);
    if read.Failure? {
      o := Replied(BODY_READ_ERROR);
      return;
    }
    var data := read.value;
    req.body := Buffered(data);
    req.contentLength := |data|;
    req.header := HeaderSet(req.header, CONTENT_TYPE, JSON_CONTENT_TYPE);
    o := Forwarded(backend, req.View());
  }
}
