/** The transceiver as the facade sees it: a unary link that answers one
    request with one response (or an error), and a stream link that answers an
    iterator request with the fragments the consumer will pull, in order,
    followed by either normal exhaustion or the error that ended the stream.
    The server side is an arbitrary state `S` that each exchange may change;
    the client side keeps a log of every request it put on the channel. */
module Transceiver {
  import opened Wrappers
  import opened Concepts
  import opened Protocol

  /** A request as it went out on the channel. */
  datatype Sent = SentUnary(request: Request) | SentIter(iterRequest: IterRequest)

  /** The server state together with the client's log of sent requests. */
  datatype Session<S> = Session(state: S, log: seq<Sent>)

  /** What one unary exchange leaves behind: the new server state and the reply. */
  datatype Exchange<S> = Exchange(state: S, reply: Result<Response, Error>)

  /** A pulled stream: its elements in server order, then how it ended
      (`None` for exhaustion, `Some(e)` for a failure surfaced after them). */
  datatype Fragments<T> = Fragments(items: seq<T>, end: Option<Error>)

  /** What opening an iterator leaves behind. */
  datatype Opened<S> = Opened(state: S, stream: Fragments<IterResponse>)

  /** The facade's collaborators: the transceiver's two entry points and the
      tracing metadata attached to put and get requests. */
  datatype Client<!S> = Client(
    unary: (S, Request) -> Exchange<S>,
    stream: (S, IterRequest) -> Opened<S>,
    tracing: Metadata)

  /** The outcome of a unary facade operation. */
  datatype Reply<S, T> = Reply(session: Session<S>, result: Result<T, Error>)

  /** The outcome of an iterating facade operation. */
  datatype Streamed<S, T> = Streamed(session: Session<S>, stream: Fragments<T>)

  /** Applies `f` to every element, keeping order and length. */
  function MapSeq<A, B>(f: A -> B, s: seq<A>): (r: seq<B>)
    ensures |r| == |s|
    ensures forall i :: 0 <= i < |s| ==> r[i] == f(s[i])
  {
    if s == [] then [] else [f(s[0])] + MapSeq(f, s[1..])
  }

  /** Pulling the first `k` decoded elements needs only the first `k` fragments:
      what a consumer has seen when it closes early is a prefix of the whole. */
  lemma MapSeqPrefix<A, B>(f: A -> B, s: seq<A>, k: nat)
    requires k <= |s|
    ensures MapSeq(f, s[..k]) == MapSeq(f, s)[..k]
  {
  }

  /** `sendAndReceiveOrThrow`: one request out, the link's reply back unchanged. */
  function SendAndReceive<S>(c: Client<S>, ss: Session<S>, req: Request): (r: Reply<S, Response>)
    ensures r.session.log == ss.log + [SentUnary(req)]
    ensures r.session.state == c.unary(ss.state, req).state
    ensures r.result == c.unary(ss.state, req).reply
  {
    var ex := c.unary(ss.state, req);
    Reply(Session(ex.state, ss.log + [SentUnary(req)]), ex.reply)
  }

  /** `iterate`: one iterator request out, every fragment decoded by `reader`
      in arrival order, and the stream's ending passed on unchanged. */
  function Iterate<S, T>(c: Client<S>, ss: Session<S>, req: IterRequest, reader: IterResponse -> T): (r: Streamed<S, T>)
    ensures r.session.log == ss.log + [SentIter(req)]
    ensures r.session.state == c.stream(ss.state, req).state
    ensures |r.stream.items| == |c.stream(ss.state, req).stream.items|
    ensures forall i :: 0 <= i < |r.stream.items| ==>
              r.stream.items[i] == reader(c.stream(ss.state, req).stream.items[i])
    ensures r.stream.end == c.stream(ss.state, req).stream.end
  {
    var op := c.stream(ss.state, req);
    Streamed(Session(op.state, ss.log + [SentIter(req)]), Fragments(MapSeq(reader, op.stream.items), op.stream.end))
  }
}
