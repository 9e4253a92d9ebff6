/**
 * The HTTP surface of the service: the replies it gives to inbound requests
 * and the outbound requests it makes. Outbound requests are never performed;
 * a run of the service produces the list of requests it would issue, in order,
 * and the replies to them are inputs.
 */
module Http {
  /** A reply sent to an inbound request. */
  datatype Response = Response(status: int, body: string)

  /**
   * An outbound request, recorded with the parts the service decides. A `Get`
   * carries the Zoom access token it sends as a bearer credential.
   */
  datatype Request =
    | TokenExchange(url: string, code: string, redirectUri: string)
    | Get(url: string, accessToken: string)
    | PostMessage(url: string, channel: string, text: string)

  /** The HTTP client resolves a reply only for a 2xx status and rejects every other one. */
  predicate ClientAccepts(status: int) {
    200 <= status < 300
  }
}
