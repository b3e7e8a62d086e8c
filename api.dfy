/** The vocabulary shared by the whole service: the two Kubernetes webhook review records it
    answers (TokenReview of authentication.k8s.io/v1beta1 and SubjectAccessReview of
    authorization.k8s.io/v1beta1), the attributes record handed to the authorization provider,
    and the two pluggable providers, which the service treats as opaque decision functions. */
module Api {

  datatype Option<+T> = None | Some(value: T)

  datatype Result<+R, +E> = Success(value: R) | Failure(error: E)

  /** A Go `error` as returned by a provider; only its message is kept. */
  type Error = string

  /** A response record together with the error returned beside it, as the review functions
      return `(response, err)`. */
  datatype Reply<+T> = Reply(response: T, err: Option<Error>)

  // ---------------------------------------------------------------------------
  // authentication.k8s.io/v1beta1
  // ---------------------------------------------------------------------------

  const AuthenticationApiVersion := "authentication.k8s.io/v1beta1"
  const TokenReviewKind := "TokenReview"

  datatype TokenReviewSpec = TokenReviewSpec(token: string)

  datatype UserInfo = UserInfo(username: string, uid: string, groups: seq<string>)

  datatype TokenReviewStatus = TokenReviewStatus(authenticated: bool, user: UserInfo, error: string)

  datatype TokenReview = TokenReview(
    kind: string,
    apiVersion: string,
    spec: TokenReviewSpec,
    status: TokenReviewStatus)

  /** Go zero values of the records above. */
  const EmptyUserInfo := UserInfo("", "", [])
  const EmptyTokenReviewSpec := TokenReviewSpec("")
  const EmptyTokenReviewStatus := TokenReviewStatus(false, EmptyUserInfo, "")

  // ---------------------------------------------------------------------------
  // authorization.k8s.io/v1beta1
  // ---------------------------------------------------------------------------

  const AuthorizationApiVersion := "authorization.k8s.io/v1beta1"
  const SubjectAccessReviewKind := "SubjectAccessReview"

  datatype ResourceAttributes = ResourceAttributes(
    namespace: string,
    verb: string,
    group: string,
    version: string,
    resource: string,
    subresource: string,
    name: string)

  datatype NonResourceAttributes = NonResourceAttributes(path: string, verb: string)

  /** The two attribute pointers of the Go record are optional: `None` stands for nil. */
  datatype SubjectAccessReviewSpec = SubjectAccessReviewSpec(
    resourceAttributes: Option<ResourceAttributes>,
    nonResourceAttributes: Option<NonResourceAttributes>,
    user: string,
    groups: seq<string>)

  datatype SubjectAccessReviewStatus = SubjectAccessReviewStatus(allowed: bool, reason: string)

  datatype SubjectAccessReview = SubjectAccessReview(
    kind: string,
    apiVersion: string,
    spec: SubjectAccessReviewSpec,
    status: SubjectAccessReviewStatus)

  const EmptyAccessReviewSpec := SubjectAccessReviewSpec(None, None, "", [])
  const EmptyAccessReviewStatus := SubjectAccessReviewStatus(false, "")

  // ---------------------------------------------------------------------------
  // Providers and the records they exchange with the service
  // ---------------------------------------------------------------------------

  /** An authenticated identity (the provider's `user.Info`). */
  datatype Identity = Identity(name: string, uid: string, groups: seq<string>)

  /** The attributes record of the Kubernetes authorizer package, as the service fills it. */
  datatype AttributesRecord = AttributesRecord(
    user: Identity,
    verb: string,
    namespace: string,
    apiGroup: string,
    apiVersion: string,
    resource: string,
    subresource: string,
    name: string,
    resourceRequest: bool,
    path: string)

  /** What `AuthenticateToken` returns: `(user, found, err)`. */
  datatype TokenAnswer = TokenAnswer(user: Identity, found: bool, err: Option<Error>)

  /** The authentication provider (a token table loaded from a CSV file). Its lookup is not
      part of this model; the service only ever calls it. */
  datatype Authenticator = Authenticator(authenticateToken: string -> TokenAnswer)

  /** What `Authorize` returns: `(allowed, reason, err)`. */
  datatype Decision = Decision(allowed: bool, reason: string, err: Option<Error>)

  /** The authorization provider (an ABAC rule set loaded from a policy file). */
  datatype Authorizer = Authorizer(authorize: AttributesRecord -> Decision)
}
