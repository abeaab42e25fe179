/**
 * The pure identity rules of io.onedev.server.model.User: display-name
 * fallback, root detection, the compareTo ordering and the match score.
 * They read three fields of the entity, captured here as a value.
 */
module UserIdentity {
  import opened Wrappers
  import J = JavaLang

  /** The id reserved for the root (super) user. */
  const ROOT_ID: int := 1

  /** The fields the identity rules read; each may be null in Java. */
  datatype Identity = Identity(id: Option<int>, name: Option<string>, fullName: Option<string>)

  /**
   * getDisplayName: the full name whenever it is non-null (even when it is
   * empty), otherwise the login name. Null only when both are null.
   */
  function DisplayName(u: Identity): (r: Option<string>)
    ensures u.fullName.Some? ==> r == u.fullName
    ensures u.fullName.None? ==> r == u.name
    ensures r.None? <==> u.fullName.None? && u.name.None?
  {
    if u.fullName.Some? then u.fullName else u.name
  }

  /** isRoot: `ROOT_ID.equals(getId())`, so a null id is never root. */
  function IsRoot(u: Identity): (r: bool)
    ensures r <==> u.id.Some? && u.id.value == ROOT_ID
    ensures u.id.None? ==> !r
  {
    u.id == Some(ROOT_ID)
  }

  /**
   * compareTo fails with a NullPointerException when the display name of
   * either side is null, or when the display names are equal and either id
   * is null (Long.compareTo unboxes both ids).
   */
  predicate CompareToSucceeds(a: Identity, b: Identity) {
    && DisplayName(a).Some?
    && DisplayName(b).Some?
    && (DisplayName(a) == DisplayName(b) ==> a.id.Some? && b.id.Some?)
  }

  /**
   * compareTo: by display name with String.compareTo, ties broken by the
   * ids with Long.compareTo. The result is zero exactly when display names
   * and ids are both equal.
   */
  function CompareTo(a: Identity, b: Identity): (r: Result<int, J.Exception>)
    ensures r.Success? <==> CompareToSucceeds(a, b)
    ensures r.Failure? ==> r.error == J.NullPointerException
    ensures r.Success? && DisplayName(a) == DisplayName(b) ==>
      J.Sign(r.value) == J.Sign(a.id.value - b.id.value)
    ensures r.Success? && DisplayName(a) != DisplayName(b) ==>
      J.Sign(r.value) == J.Sign(J.StringCompareTo(DisplayName(a).value, DisplayName(b).value))
    ensures r.Success? ==> (r.value == 0 <==> DisplayName(a) == DisplayName(b) && a.id == b.id)
  {
    match (DisplayName(a), DisplayName(b))
    case (None, _) =>
      // getDisplayName().equals(...) on a null receiver
      Failure(J.NullPointerException)
    case (Some(x), None) =>
      // x.equals(null) is false, then x.compareTo(null) dereferences null
      Failure(J.NullPointerException)
    case (Some(x), Some(y)) =>
      if x == y then
        if a.id.None? || b.id.None? then Failure(J.NullPointerException)
        else Success(J.LongCompare(a.id.value, b.id.value))
      else
        Success(J.StringCompareTo(x, y))
  }

  /** A user compares equal to itself exactly when its display name and id are non-null. */
  lemma CompareToReflexive(a: Identity)
    ensures CompareTo(a, a) ==
      if DisplayName(a).Some? && a.id.Some? then Success(0) else Failure(J.NullPointerException)
  {
  }

  /** sgn(a.compareTo(b)) == -sgn(b.compareTo(a)), and one fails exactly when the other does. */
  lemma CompareToAntisymmetric(a: Identity, b: Identity)
    ensures CompareTo(a, b).Success? <==> CompareTo(b, a).Success?
    ensures CompareTo(a, b).Success? ==>
      J.Sign(CompareTo(b, a).value) == -J.Sign(CompareTo(a, b).value)
  {
    if CompareToSucceeds(a, b) && DisplayName(a) != DisplayName(b) {
      J.StringCompareToAntisymmetric(DisplayName(a).value, DisplayName(b).value);
    }
  }

  /** a < b and b < c imply a < c; in particular a.compareTo(c) does not fail. */
  lemma CompareToTransitive(a: Identity, b: Identity, c: Identity)
    requires CompareTo(a, b).Success? && CompareTo(a, b).value < 0
    requires CompareTo(b, c).Success? && CompareTo(b, c).value < 0
    ensures CompareTo(a, c).Success? && CompareTo(a, c).value < 0
  {
    var x, y, z := DisplayName(a).value, DisplayName(b).value, DisplayName(c).value;
    if x != y && y != z {
      J.StringCompareToTransitive(x, y, z);
    } else if x == y && y != z {
      assert J.StringCompareTo(x, z) < 0;
    } else if x != y && y == z {
      assert J.StringCompareTo(x, z) < 0;
    }
  }

  /** Users that compare equal compare alike against every third user. */
  lemma CompareToZeroSubstitutes(a: Identity, b: Identity, c: Identity)
    requires CompareTo(a, b) == Success(0)
    ensures CompareTo(a, c) == CompareTo(b, c)
    ensures CompareTo(c, a) == CompareTo(c, b)
  {
  }

  /**
   * getMatchScore: the larger of the scores of the login name and of the
   * full name (not the display name) against the query term. The score
   * function belongs to a library outside this model and is a parameter.
   */
  function MatchScore(u: Identity, term: Option<string>,
                      score: (Option<string>, Option<string>) -> real): (r: real)
    ensures r >= score(u.name, term) && r >= score(u.fullName, term)
    ensures r == score(u.name, term) || r == score(u.fullName, term)
  {
    var ofName := score(u.name, term);
    var ofFullName := score(u.fullName, term);
    if ofName >= ofFullName then ofName else ofFullName
  }
}
