/** The HTTP surface of the service: `POST /authorize/{kind}` resolves the kind, decodes the body
    into the matching review, runs exactly one of the two reviews against the current state and
    maps the outcome onto a status code; `GET /health` always answers. */
module Handlers {
  import opened Api
  import Authenticate
  import Authorize
  import Server

  const StatusOK := 200
  const StatusBadRequest := 400
  const StatusNotFound := 404
  const StatusInternalServerError := 500

  const TokenKindParam := "token"
  const PolicyKindParam := "policy"

  /** A request body as the JSON binder sees it: what decoding it as each review record yields,
      `None` when it is malformed for that record. */
  datatype Payload = Payload(asTokenReview: Option<TokenReview>, asAccessReview: Option<SubjectAccessReview>)

  datatype Body =
    | TokenReviewBody(tokenReview: TokenReview)
    | AccessReviewBody(accessReview: SubjectAccessReview)
    | Text(text: string)

  /** What the handler writes: a status code and, on success, a body. */
  datatype HttpResponse = HttpResponse(status: int, body: Option<Body>)

  /** The providers a request reaches exist: a decoded token review needs a token provider
      (always installed once startup succeeded), a decoded access review needs an authorization
      provider, which is only installed when a policy file is configured. */
  predicate Servable(st: Server.State, kind: string, payload: Payload) {
    && (kind == TokenKindParam && payload.asTokenReview.Some? ==> st.tokens.Some?)
    && (kind == PolicyKindParam && payload.asAccessReview.Some? ==> st.authz.Some?)
  }

  /** The outcome of a review as a response: an error is a server error, anything else is a
      success carrying the response record. */
  function Respond<T>(reply: Reply<T>, wrap: T -> Body): HttpResponse {
    if reply.err.Some? then HttpResponse(StatusInternalServerError, None)
    else HttpResponse(StatusOK, Some(wrap(reply.response)))
  }

  /** `authorizeHandler`: unknown kind is 404, a body that does not decode is 400, a provider
      error is 500, and every other outcome, negative decisions included, is 200 with the
      response record. */
  function AuthorizeHandler(st: Server.State, kind: string, payload: Payload): (r: HttpResponse)
    requires Servable(st, kind, payload)
    ensures kind != TokenKindParam && kind != PolicyKindParam ==> r == HttpResponse(StatusNotFound, None)
    ensures kind == TokenKindParam && payload.asTokenReview.None? ==> r == HttpResponse(StatusBadRequest, None)
    ensures kind == PolicyKindParam && payload.asAccessReview.None? ==> r == HttpResponse(StatusBadRequest, None)
    ensures kind == TokenKindParam && payload.asTokenReview.Some? ==>
              var reply := Authenticate.Authentication(st.tokens.value, payload.asTokenReview.value);
              r == (if reply.err.Some? then HttpResponse(StatusInternalServerError, None)
                    else HttpResponse(StatusOK, Some(TokenReviewBody(reply.response))))
    ensures kind == PolicyKindParam && payload.asAccessReview.Some? ==>
              var reply := Authorize.Authorize(st.authz.value, payload.asAccessReview.value);
              r == (if reply.err.Some? then HttpResponse(StatusInternalServerError, None)
                    else HttpResponse(StatusOK, Some(AccessReviewBody(reply.response))))
    ensures r.status == StatusOK <==> r.body.Some?
  {
    if kind == TokenKindParam then
      match payload.asTokenReview
      case None => HttpResponse(StatusBadRequest, None)
      case Some(review) =>
        Respond(Authenticate.Authentication(st.tokens.value, review), (t: TokenReview) => TokenReviewBody(t))
    else if kind == PolicyKindParam then
      match payload.asAccessReview
      case None => HttpResponse(StatusBadRequest, None)
      case Some(review) =>
        Respond(Authorize.Authorize(st.authz.value, review), (a: SubjectAccessReview) => AccessReviewBody(a))
    else
      HttpResponse(StatusNotFound, None)
  }

  /** An unknown kind is answered before anything is decoded or any provider is consulted: the
      response depends neither on the body nor on the state. */
  lemma UnknownKindConsultsNothing(st1: Server.State, st2: Server.State, kind: string, p1: Payload, p2: Payload)
    requires kind != TokenKindParam && kind != PolicyKindParam
    ensures AuthorizeHandler(st1, kind, p1) == AuthorizeHandler(st2, kind, p2)
  {
  }

  /** A body that does not decode is rejected without consulting any provider: the response
      does not depend on the state. */
  lemma BadRequestConsultsNoProvider(st1: Server.State, st2: Server.State, kind: string, payload: Payload)
    requires (kind == TokenKindParam && payload.asTokenReview.None?)
          || (kind == PolicyKindParam && payload.asAccessReview.None?)
    ensures AuthorizeHandler(st1, kind, payload) == AuthorizeHandler(st2, kind, payload)
  {
  }

  /** Exactly one review runs: a token request does not depend on the authorization provider,
      and a policy request does not depend on the token provider. */
  lemma TokenRouteIgnoresAuthz(st1: Server.State, st2: Server.State, payload: Payload)
    requires st1.tokens == st2.tokens
    requires Servable(st1, TokenKindParam, payload) && Servable(st2, TokenKindParam, payload)
    ensures AuthorizeHandler(st1, TokenKindParam, payload) == AuthorizeHandler(st2, TokenKindParam, payload)
  {
  }

  lemma PolicyRouteIgnoresTokens(st1: Server.State, st2: Server.State, payload: Payload)
    requires st1.authz == st2.authz
    requires Servable(st1, PolicyKindParam, payload) && Servable(st2, PolicyKindParam, payload)
    ensures AuthorizeHandler(st1, PolicyKindParam, payload) == AuthorizeHandler(st2, PolicyKindParam, payload)
  {
  }

  /** Negative decisions are data: an unknown token is a 200 carrying the "token not found"
      record, not an error. */
  lemma UnknownTokenIsOK(st: Server.State, review: TokenReview)
    requires st.tokens.Some?
    requires st.tokens.value.authenticateToken(review.spec.token).err.None?
    requires !st.tokens.value.authenticateToken(review.spec.token).found
    ensures AuthorizeHandler(st, TokenKindParam, Payload(Some(review), None))
            == HttpResponse(StatusOK, Some(TokenReviewBody(
                 TokenReview(TokenReviewKind, AuthenticationApiVersion, EmptyTokenReviewSpec,
                             TokenReviewStatus(false, EmptyUserInfo, "token not found")))))
  {
  }

  /** A denied access review is a 200 carrying the provider's reason, not an error. */
  lemma DenialIsOK(st: Server.State, review: SubjectAccessReview)
    requires st.authz.Some?
    requires st.authz.value.authorize(Authorize.Attributes(review.spec)).err.None?
    requires !st.authz.value.authorize(Authorize.Attributes(review.spec)).allowed
    ensures AuthorizeHandler(st, PolicyKindParam, Payload(None, Some(review)))
            == HttpResponse(StatusOK, Some(AccessReviewBody(
                 SubjectAccessReview(SubjectAccessReviewKind, AuthorizationApiVersion, EmptyAccessReviewSpec,
                   SubjectAccessReviewStatus(false, st.authz.value.authorize(Authorize.Attributes(review.spec)).reason)))))
  {
  }

  /** `healthHandler`: always 200 with the text "OK" and a newline. */
  function HealthHandler(): (r: HttpResponse)
    ensures r.status == StatusOK && r.body == Some(Text("OK\n"))
  {
    HttpResponse(StatusOK, Some(Text("OK\n")))
  }
}
