/**
 * The values that flow through the handler: bodies, the inbound request, the
 * upstream response and the response sent back to the client.
 */
module Messages {
  import opened Wrappers
  import opened HeaderMaps
  import opened Urls

  type Byte = bv8

  /**
   * A body: absent (`null`), a stream that has not been read, bytes read into
   * memory (`arrayBuffer()`), or a string given to the `Response` constructor.
   */
  datatype Body = Null | Stream(bytes: seq<Byte>) | Buffered(bytes: seq<Byte>) | Str(text: string)

  /** What a client request can carry: no body or a stream of bytes. */
  type RequestBody = b: Body | b.Null? || b.Stream? witness Null

  /** The WebSocket end that an upgrade response hands over; opaque here. */
  datatype Socket = Socket(id: nat)

  /** The inbound request, its URL already parsed; `verb` is the HTTP method. */
  datatype Request = Request(verb: string, url: Url, headers: Fields, body: RequestBody)

  /** A response: from the upstream, or built by the handler. */
  datatype Response = Response(status: int, headers: Fields, body: Body, webSocket: Option<Socket>)
}
