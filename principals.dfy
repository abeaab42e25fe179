/**
 * How User shapes the payload handed to the Shiro security layer: a
 * principal collection holding a bare user id, the subject built around
 * it, and the current user id read back from the bound subject.
 */
module Principals {
  import opened Wrappers
  import J = JavaLang
  import UI = UserIdentity

  /** The principal id that stands for the anonymous visitor. */
  const ANONYMOUS_ID: int := 0

  /** The realm name every principal collection is built with. */
  const REALM: string := ""

  /** A SimplePrincipalCollection: its principals in order, under one realm. */
  datatype PrincipalCollection = PrincipalCollection(principals: seq<int>, realm: string)

  /** A subject, reduced to the principals it is bound to. */
  datatype Subject = Subject(principals: PrincipalCollection)

  /** The primary principal of a collection: its first one, if any. */
  function PrimaryPrincipal(pc: PrincipalCollection): (r: Option<int>) {
    if |pc.principals| == 0 then None else Some(pc.principals[0])
  }

  /**
   * asPrincipal: a collection holding exactly the given id under the empty
   * realm. SimplePrincipalCollection refuses a null principal.
   */
  function AsPrincipal(userId: Option<int>): (r: Result<PrincipalCollection, J.Exception>)
    ensures r.Success? <==> userId.Some?
    ensures r.Success? ==> r.value.principals == [userId.value] && r.value.realm == REALM
    ensures r.Failure? ==> r.error == J.NullPrincipalException
  {
    match userId
    case None => Failure(J.NullPrincipalException)
    case Some(id) => Success(PrincipalCollection([id], REALM))
  }

  /** getPrincipals: the user's id and nothing else. */
  function PrincipalsOf(u: UI.Identity): (r: Result<PrincipalCollection, J.Exception>)
    ensures r.Success? <==> u.id.Some?
    ensures r.Success? ==> |r.value.principals| == 1 && PrimaryPrincipal(r.value) == u.id
    ensures r.Success? ==> r.value.realm == REALM
  {
    AsPrincipal(u.id)
  }

  /** asSubject(Long): a subject bound to the principal collection of the id. */
  function AsSubjectForId(userId: Option<int>): (r: Result<Subject, J.Exception>)
    ensures r.Success? <==> userId.Some?
    ensures r.Success? ==> PrimaryPrincipal(r.value.principals) == userId
    ensures r.Success? ==> r.value.principals == AsPrincipal(userId).value
  {
    match AsPrincipal(userId)
    case Failure(e) => Failure(e)
    case Success(pc) => Success(Subject(pc))
  }

  /**
   * asSubject(User): the anonymous id for a null user, otherwise the
   * user's own id (a user whose id is null gets no subject).
   */
  function AsSubject(u: Option<UI.Identity>): (r: Result<Subject, J.Exception>)
    ensures u.None? ==> r == Success(Subject(PrincipalCollection([ANONYMOUS_ID], REALM)))
    ensures u.Some? ==> (r.Success? <==> u.value.id.Some?)
    ensures u.Some? && r.Success? ==> r.value.principals.principals == [u.value.id.value]
  {
    match u
    case None => AsSubjectForId(Some(ANONYMOUS_ID))
    case Some(user) => AsSubjectForId(user.id)
  }

  /**
   * getCurrentId: the principal of the ambient subject, which must be bound
   * (Preconditions.checkNotNull throws otherwise). The ambient subject is
   * passed in: `principal` is what it reports as its principal.
   */
  function CurrentId(principal: Option<int>): (r: Result<int, J.Exception>)
    ensures principal.None? ==> r == Failure(J.NullPointerException)
    ensures principal.Some? ==> r == Success(principal.value)
  {
    match principal
    case None => Failure(J.NullPointerException)
    case Some(id) => Success(id)
  }

  /** Acting as a user and then asking for the current id gives back that user's id (0 for nobody). */
  lemma SubjectRoundTrip(u: Option<UI.Identity>)
    requires AsSubject(u).Success?
    ensures CurrentId(PrimaryPrincipal(AsSubject(u).value.principals)) ==
      Success(if u.None? then ANONYMOUS_ID else u.value.id.value)
  {
  }

  /** The anonymous subject is not the root user's subject. */
  lemma AnonymousIsNotRoot(root: UI.Identity)
    requires UI.IsRoot(root)
    ensures AsSubject(Some(root)).Success?
    ensures AsSubject(Some(root)) != AsSubject(None)
  {
  }

  /** A user whose id is null does not act as the anonymous visitor: asSubject fails. */
  lemma NullIdIsNotAnonymous(u: UI.Identity)
    requires u.id.None?
    ensures AsSubject(Some(u)).Failure? && AsSubject(None).Success?
  {
  }
}
