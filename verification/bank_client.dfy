/**
 * AcquiringBankClientImpl: one POST of the bank request to the configured
 * address, and the reading of what the transport returned as either the
 * bank's verdict or "unavailable".
 */
module BankClient {
  import opened Wrappers
  import opened Model

  /** What the HTTP transport yields for one POST: a RestClientException (Failed), or a status code with a body that may be absent. */
  datatype Exchange = Failed | Answered(status: int, body: Option<BankResponse>)

  /** One outbound POST of a bank request to an address. */
  datatype Post = Post(url: string, request: BankRequest)

  /** HttpStatusCode.is2xxSuccessful: the status lies in the 2xx series. */
  predicate Is2xx(status: int) {
    200 <= status <= 299
  }

  /** What one invocation did on the wire, and what it hands back to its caller. */
  datatype Call = Call(posts: seq<Post>, outcome: Option<BankResponse>)

  /** The outcome for one exchange: the body of a 2xx answer that carries one, and nothing in every other case. */
  function Classify(e: Exchange): (r: Option<BankResponse>)
    ensures r.Some? <==> e.Answered? && Is2xx(e.status) && e.body.Some?
    ensures r.Some? ==> r.value == e.body.value
    ensures e.Failed? ==> r.None?
  {
    match e
    case Failed => None
    case Answered(status, body) =>
      if Is2xx(status) && body.Some? then Some(body.value) else None
  }

  /**
   * processPayment: exactly one POST, to the configured address, carrying the
   * request as given; a RestClientException comes back as None and is not
   * passed on.
   */
  function ProcessPayment(url: string, request: BankRequest, transport: Post -> Exchange): (c: Call)
    ensures |c.posts| == 1 && c.posts[0].url == url && c.posts[0].request == request
    ensures var e := transport(Post(url, request));
      && (c.outcome.Some? <==> e.Answered? && Is2xx(e.status) && e.body.Some?)
      && (c.outcome.Some? ==> c.outcome.value == e.body.value)
  {
    var post := Post(url, request);
    Call([post], Classify(transport(post)))
  }

  /** Every answer outside the 2xx series, with or without a body, reads as unavailable. */
  lemma NonSuccessIsUnavailable(url: string, request: BankRequest, transport: Post -> Exchange)
    requires transport(Post(url, request)).Answered?
    requires !Is2xx(transport(Post(url, request)).status)
    ensures ProcessPayment(url, request, transport).outcome.None?
  {
  }
}
