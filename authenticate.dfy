/** Token review: hand the review's token to the authentication provider and map the
    provider's `(user, found, err)` answer onto a TokenReview response. */
module Authenticate {
  import opened Api

  /** The error text of a review whose token the provider does not know. */
  const TokenNotFound := "token not found"

  /** The response every token review starts from: type metadata set, spec and status zero. */
  const BlankTokenReview := TokenReview(TokenReviewKind, AuthenticationApiVersion,
                                        EmptyTokenReviewSpec, EmptyTokenReviewStatus)

  /** The wire form of an identity found by the provider. */
  function UserInfoOf(user: Identity): UserInfo {
    UserInfo(user.name, user.uid, user.groups)
  }

  /** `authentication`. The provider is asked about exactly `review.spec.token`; a provider
      error is passed back with a blank status; an unknown token is a negative answer, not an
      error; a known one carries the provider's identity. */
  function Authentication(tokens: Authenticator, review: TokenReview): (r: Reply<TokenReview>)
    ensures r.response.kind == TokenReviewKind
    ensures r.response.apiVersion == AuthenticationApiVersion
    ensures r.response.spec == EmptyTokenReviewSpec
    ensures var answer := tokens.authenticateToken(review.spec.token);
            && r.err == answer.err
            && (answer.err.Some? ==> r.response.status == EmptyTokenReviewStatus)
            && (answer.err.None? ==>
                  (r.response.status.authenticated <==> answer.found)
                  && r.response.status.error == (if answer.found then "" else TokenNotFound)
                  && r.response.status.user == (if answer.found then UserInfoOf(answer.user) else EmptyUserInfo))
  {
    var response := BlankTokenReview;
    var answer := tokens.authenticateToken(review.spec.token);
    if answer.err.Some? then
      Reply(response, answer.err)
    else if !answer.found then
      Reply(response.(status := TokenReviewStatus(false, EmptyUserInfo, TokenNotFound)), None)
    else
      Reply(response.(status := TokenReviewStatus(true, UserInfoOf(answer.user), "")), None)
  }

  /** Reads back, from a successful response's status, the identity the caller is told about:
      none when the token was not authenticated. */
  function AuthenticatedIdentity(status: TokenReviewStatus): Option<Identity> {
    if status.authenticated then
      Some(Identity(status.user.username, status.user.uid, status.user.groups))
    else
      None
  }

  /** The caller recovers exactly the provider's verdict from the response: the identity when
      the token was found, nothing when it was not. */
  lemma IdentityRoundTrip(tokens: Authenticator, review: TokenReview)
    requires tokens.authenticateToken(review.spec.token).err.None?
    ensures var answer := tokens.authenticateToken(review.spec.token);
            AuthenticatedIdentity(Authentication(tokens, review).response.status)
              == if answer.found then Some(answer.user) else None
  {
  }

  /** Only the token of the request matters: two reviews carrying the same token get the same
      reply, whatever else they hold. */
  lemma OnlyTheTokenMatters(tokens: Authenticator, a: TokenReview, b: TokenReview)
    requires a.spec.token == b.spec.token
    ensures Authentication(tokens, a) == Authentication(tokens, b)
  {
  }

  /** The response for an unknown token is exactly the record the service's tests expect
      (`failedAuthRequest`). */
  lemma UnknownTokenResponse(tokens: Authenticator, review: TokenReview)
    requires tokens.authenticateToken(review.spec.token).err.None?
    requires !tokens.authenticateToken(review.spec.token).found
    ensures Authentication(tokens, review)
            == Reply(TokenReview(TokenReviewKind, AuthenticationApiVersion, EmptyTokenReviewSpec,
                                 TokenReviewStatus(false, EmptyUserInfo, "token not found")),
                     None)
  {
  }
}
