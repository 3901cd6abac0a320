/**
 * The boundary to the network and to the decompression library. An HTTP
 * exchange is an oracle from the request sent to its outcome; the three
 * decompressors are partial functions supplied from outside. `ReadBody`
 * is the core's own choice of decompressor.
 */
module Transport {
  import opened Wrappers
  import opened Settings

  /** What `DoTimeout` is asked to send, with the client's timeout (seconds) and dialer. */
  datatype Request = Request(
    verb: string,
    uri: string,
    header: map<string, string>,
    body: string,
    timeout: int,
    dialer: Dialer)

  /** The outcome of `DoTimeout`: an error, or the response headers and raw body. */
  datatype Exchange = TransportError | Response(header: map<string, string>, body: string)

  /** `BodyUnbrotli`, `BodyGunzip`, `BodyInflate`: `None` is a decode error. */
  datatype Codecs = Codecs(
    unbrotli: string -> Option<string>,
    gunzip: string -> Option<string>,
    inflate: string -> Option<string>)

  /** Everything the executors take from the outside world: network, decompression, clock. */
  datatype Env = Env(transport: Request -> Exchange, codecs: Codecs, now: int)

  /** `string(res.Header.Peek(name))`: an absent header reads as "". */
  function Peek(header: map<string, string>, name: string): (r: string)
  {
    if name in header then header[name] else ""
  }

  /**
   * `readBody`: the decompressor is chosen by the response's Content-Type
   * value ("br", "gzip", "deflate"); every other value, including an
   * absent header, hands back the raw body without error.
   */
  function ReadBody(header: map<string, string>, body: string, codecs: Codecs): (r: Option<string>)
    ensures Peek(header, "Content-Type") == "br" ==> r == codecs.unbrotli(body)
    ensures Peek(header, "Content-Type") == "gzip" ==> r == codecs.gunzip(body)
    ensures Peek(header, "Content-Type") == "deflate" ==> r == codecs.inflate(body)
    ensures Peek(header, "Content-Type") !in {"br", "gzip", "deflate"} ==> r == Some(body)
  {
    match Peek(header, "Content-Type")
    case "br" => codecs.unbrotli(body)
    case "gzip" => codecs.gunzip(body)
    case "deflate" => codecs.inflate(body)
    case _ => Some(body)
  }

  /**
   * Only Content-Type is consulted: a response declaring
   * `Content-Encoding: gzip` with a textual Content-Type is read raw, and
   * two responses that agree on Content-Type decode alike.
   */
  lemma ReadBodyIgnoresEncoding(header: map<string, string>, other: map<string, string>, body: string, codecs: Codecs)
    requires Peek(header, "Content-Type") == Peek(other, "Content-Type")
    ensures ReadBody(header, body, codecs) == ReadBody(other, body, codecs)
    ensures ReadBody(map["Content-Encoding" := "gzip", "Content-Type" := "text/plain"], body, codecs) == Some(body)
  {
  }
}
