/**
 * The absolute profile URL that the create handler encodes in the QR code:
 * `${protocol}://${host}/p/${id}`, where the protocol is the
 * `x-forwarded-proto` header when it is truthy and the connection's own
 * protocol otherwise.
 */
module Links {
  import opened JsValues

  /** The parts of the incoming request the URL is built from. */
  datatype Request = Request(
    host: Option<string>,            // the `host` header, absent in some HTTP/1.0 requests
    forwardedProto: Option<string>,  // the `x-forwarded-proto` header
    protocol: string)                // the connection's protocol, "http" or "https"

  /** `req.headers['x-forwarded-proto'] || req.protocol` */
  function Scheme(req: Request): string {
    if Truthy(req.forwardedProto) then req.forwardedProto.value else req.protocol
  }

  /** A template literal prints an absent header as the text "undefined". */
  function Interpolated(v: Option<string>): string {
    match v
    case Some(s) => s
    case None => "undefined"
  }

  /** The `scheme://host` part of the URL. */
  function Origin(req: Request): string {
    Scheme(req) + "://" + Interpolated(req.host)
  }

  /** The path under which the profile page is served. */
  function ProfilePath(id: string): string {
    "/p/" + id
  }

  function ProfileUrl(req: Request, id: string): string {
    Scheme(req) + "://" + Interpolated(req.host) + "/p/" + id
  }

  /** The scheme is the forwarded header when present and non-empty, the request's protocol otherwise. */
  lemma SchemeChoice(req: Request)
    ensures req.forwardedProto.Some? && req.forwardedProto.value != "" ==> Scheme(req) == req.forwardedProto.value
    ensures req.forwardedProto.None? || req.forwardedProto.value == "" ==> Scheme(req) == req.protocol
  {
  }

  /**
   * The URL splits into the request's origin followed by the profile path of
   * the id, so the id can be read back from the URL.
   */
  lemma ProfileUrlSplits(req: Request, id: string)
    ensures var url := ProfileUrl(req, id);
      var n := |Origin(req)|;
      && StartsWith(url, Scheme(req) + "://")
      && n <= |url|
      && url[..n] == Origin(req)
      && url[n..] == ProfilePath(id)
      && url[n + 3..] == id
  {
    var url := ProfileUrl(req, id);
    assert url == Origin(req) + ProfilePath(id);
    var n := |Origin(req)|;
    assert url[n..] == ProfilePath(id);
    assert Origin(req) == (Scheme(req) + "://") + Interpolated(req.host);
  }

  /** For one request, distinct ids always give distinct profile URLs. */
  lemma {:induction false} ProfileUrlInjective(req: Request, a: string, b: string)
    ensures ProfileUrl(req, a) == ProfileUrl(req, b) <==> a == b
  {
    if ProfileUrl(req, a) == ProfileUrl(req, b) {
      ProfileUrlSplits(req, a);
      ProfileUrlSplits(req, b);
    }
  }
}
