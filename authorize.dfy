/** Access review: build the authorizer's attributes record from a SubjectAccessReview spec,
    ask the authorization provider, and map its `(allowed, reason, err)` answer onto a
    SubjectAccessReview response. */
module Authorize {
  import opened Api

  /** The response every access review starts from: type metadata set, spec and status zero. */
  const BlankAccessReview := SubjectAccessReview(SubjectAccessReviewKind, AuthorizationApiVersion,
                                                 EmptyAccessReviewSpec, EmptyAccessReviewStatus)

  /** Reference definition of the attributes record, field by field: the subject comes from the
      spec's user and groups; the resource fields from the resource attributes when present; the
      path from the non-resource attributes when present; the verb from the non-resource
      attributes when present, otherwise from the resource attributes (the non-resource verb
      wins); and the request is a resource request exactly when resource attributes are
      present. Fields with no source stay empty. */
  function Attributes(spec: SubjectAccessReviewSpec): (r: AttributesRecord)
    ensures r.user.name == spec.user && r.user.groups == spec.groups && r.user.uid == ""
    ensures r.resourceRequest <==> spec.resourceAttributes.Some?
    ensures spec.resourceAttributes.Some? ==>
              var res := spec.resourceAttributes.value;
              && r.namespace == res.namespace && r.apiGroup == res.group
              && r.apiVersion == res.version && r.resource == res.resource
              && r.subresource == res.subresource && r.name == res.name
              && (spec.nonResourceAttributes.None? ==> r.verb == res.verb)
    ensures spec.resourceAttributes.None? ==>
              r.namespace == r.apiGroup == r.apiVersion == r.resource == r.subresource == r.name == ""
    ensures spec.nonResourceAttributes.Some? ==>
              r.path == spec.nonResourceAttributes.value.path && r.verb == spec.nonResourceAttributes.value.verb
    ensures spec.nonResourceAttributes.None? ==> r.path == ""
    ensures spec.resourceAttributes.None? && spec.nonResourceAttributes.None? ==> r.verb == ""
  {
    var res := spec.resourceAttributes;
    var non := spec.nonResourceAttributes;
    AttributesRecord(
      user := Identity(spec.user, "", spec.groups),
      verb := if non.Some? then non.value.verb else if res.Some? then res.value.verb else "",
      namespace := if res.Some? then res.value.namespace else "",
      apiGroup := if res.Some? then res.value.group else "",
      apiVersion := if res.Some? then res.value.version else "",
      resource := if res.Some? then res.value.resource else "",
      subresource := if res.Some? then res.value.subresource else "",
      name := if res.Some? then res.value.name else "",
      resourceRequest := res.Some?,
      path := if non.Some? then non.value.path else "")
  }

  /** The attributes record as `authorize` builds it: assignment by assignment on one local
      record, the non-resource verb overwriting the resource verb. The result is the reference
      record above. */
  method BuildAttributes(spec: SubjectAccessReviewSpec) returns (request: AttributesRecord)
    ensures request == Attributes(spec)
  {
    request := AttributesRecord(Identity(spec.user, "", spec.groups), "", "", "", "", "", "", "", false, "");
    if spec.resourceAttributes.Some? {
      var res := spec.resourceAttributes.value;
      request := request.(verb := res.verb);
      request := request.(namespace := res.namespace);
      request := request.(apiGroup := res.group);
      request := request.(apiVersion := res.version);
      request := request.(resource := res.resource);
      request := request.(subresource := res.subresource);
      request := request.(name := res.name);
    }
    if spec.nonResourceAttributes.Some? {
      var non := spec.nonResourceAttributes.value;
      request := request.(path := non.path);
      request := request.(verb := non.verb);
    }
    request := request.(resourceRequest := spec.resourceAttributes.Some?);
  }

  /** `authorize`. The provider is asked about the attributes record of the spec; a provider
      error is passed back with a blank status; a denial keeps the provider's reason verbatim;
      an allow carries an empty reason whatever reason the provider gave. */
  function Authorize(authz: Authorizer, review: SubjectAccessReview): (r: Reply<SubjectAccessReview>)
    ensures r.response.kind == SubjectAccessReviewKind
    ensures r.response.apiVersion == AuthorizationApiVersion
    ensures r.response.spec == EmptyAccessReviewSpec
    ensures var d := authz.authorize(Attributes(review.spec));
            && r.err == d.err
            && (d.err.Some? ==> r.response.status == EmptyAccessReviewStatus)
            && (d.err.None? ==>
                  (r.response.status.allowed <==> d.allowed)
                  && r.response.status.reason == (if d.allowed then "" else d.reason))
  {
    var response := BlankAccessReview;
    var decision := authz.authorize(Attributes(review.spec));
    if decision.err.Some? then
      Reply(response, decision.err)
    else if !decision.allowed then
      Reply(response.(status := SubjectAccessReviewStatus(false, decision.reason)), None)
    else
      Reply(response.(status := SubjectAccessReviewStatus(true, "")), None)
  }

  /** Only the spec's attributes matter: two reviews whose specs yield the same attributes record
      get the same reply. In particular the request's own type metadata and status are ignored. */
  lemma OnlyTheAttributesMatter(authz: Authorizer, a: SubjectAccessReview, b: SubjectAccessReview)
    requires Attributes(a.spec) == Attributes(b.spec)
    ensures Authorize(authz, a) == Authorize(authz, b)
  {
  }

  /** A provider that denies with "No policy matched." yields exactly the record the service's
      tests expect for a denied review (`failedAuthzRequest`). */
  lemma DeniedReviewResponse(authz: Authorizer, review: SubjectAccessReview)
    requires authz.authorize(Attributes(review.spec)) == Decision(false, "No policy matched.", None)
    ensures Authorize(authz, review)
            == Reply(SubjectAccessReview(SubjectAccessReviewKind, AuthorizationApiVersion, EmptyAccessReviewSpec,
                                         SubjectAccessReviewStatus(false, "No policy matched.")),
                     None)
  {
  }
}
