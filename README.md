# OneDev user entity: identity, principals, saved issue queries, group cache

This project is a Dafny model of the behaviour in OneDev's `User` entity
(`io.onedev.server.model.User`). It covers four parts:

- **Identity rules** (`user_identity.dfy`, module `UserIdentity`). The display name falls back
  from the full name to the login name. The root user is the one whose id is `ROOT_ID = 1`.
  `compareTo` orders users by display name with Java's `String.compareTo`, and breaks ties by id
  with `Long.compareTo`. `getMatchScore` takes the larger of two scores.
  These rules are pure functions over an `Identity` value made of the id, the name and the full name.
  Each of the three may be null, and null is `None`.
- **Java semantics** (`java_lang.dfy`, module `JavaLang`). This module gives `String.compareTo`
  (difference of the first differing code units, else the difference of the lengths), `Long.compare`,
  and the exceptions raised on the paths that are modelled.
- **Principal shaping** (`principals.dfy`, module `Principals`). A principal collection holds exactly
  the user's id under the empty realm. `asSubject(null)` binds the anonymous id 0. `getCurrentId`
  reads the principal of the ambient subject, which the model takes as a parameter.
- **Stateful entity** (`user_entity.dfy`, module `UserEntity`). Class `User` holds the fields that
  the source reassigns:
  - the saved issue queries and the two issue-query watch maps, which are insertion-ordered
    association lists with unique keys;
  - the memberships and the transient group cache.

  `IssueQuerySetting` and `IssueQueryWatchSupport` are the view objects that `getIssueQuerySetting`
  and `getQueryWatchSupport` create. They read and write the user's fields.

Java exceptions are `Failure` values of `Result`, so no operation needs a precondition.

Behaviours of the code worth noting:

- `getDisplayName` falls back to the login name only when the full name is **null**. An empty
  full name is returned as it is. The result is null when both names are null.
- `asSubject(user)` for a user whose id is null does **not** resolve to the anonymous id. It hands a
  null principal to `SimplePrincipalCollection`, which refuses it (`Principals.NullIdIsNotAnonymous`).
- `compareTo` is not total over all users. It throws when a display name is null, or when the
  display names are equal and an id is null. Over the users where it succeeds it is a strict order:
  antisymmetric, transitive, and zero exactly when display name and id are equal.
- `setGroups` does not clear the group cache, so `getGroups` keeps returning the groups of the
  memberships it first saw (`UserEntity.GroupsAfterSetGroups`).

## Model

| member | source | states |
|---|---|---|
| JavaLang.StringCompareTo | server-core/src/main/java/io/onedev/server/model/User.java:307 | String.compareTo is zero exactly when the two strings are equal |
| JavaLang.StringCompareToAntisymmetric | server-core/src/main/java/io/onedev/server/model/User.java:307 | swapping the arguments of String.compareTo negates the result |
| JavaLang.StringCompareToTransitive | server-core/src/main/java/io/onedev/server/model/User.java:307 | String.compareTo is transitive: s < t and t < u give s < u |
| JavaLang.StringCompareToNegative | server-core/src/main/java/io/onedev/server/model/User.java:307 | String.compareTo is negative exactly when the first string is a proper prefix of the second, or is smaller at the first index where they differ |
| JavaLang.LongCompare | server-core/src/main/java/io/onedev/server/model/User.java:305 | Long.compareTo returns the sign of the difference of the ids |
| UserIdentity.DisplayName | server-core/src/main/java/io/onedev/server/model/User.java:278-283 | the full name whenever it is non-null, even if empty; otherwise the login name; null only when both are null |
| UserIdentity.IsRoot | server-core/src/main/java/io/onedev/server/model/User.java:285-287 | true exactly when the id is present and equals ROOT_ID (1); a null id is never root |
| UserIdentity.CompareTo | server-core/src/main/java/io/onedev/server/model/User.java:301-309 | it succeeds exactly when both display names are non-null and, if they are equal, both ids are non-null; with equal display names its sign is the sign of the id difference, otherwise the sign of the display-name comparison; it is zero exactly when display names and ids are both equal; it fails only with NullPointerException |
| UserIdentity.CompareToReflexive | server-core/src/main/java/io/onedev/server/model/User.java:301-309 | a user compares to itself as 0 when its display name and id are non-null, and throws otherwise |
| UserIdentity.CompareToAntisymmetric | server-core/src/main/java/io/onedev/server/model/User.java:301-309 | a.compareTo(b) succeeds exactly when b.compareTo(a) does, and the two have opposite signs |
| UserIdentity.CompareToTransitive | server-core/src/main/java/io/onedev/server/model/User.java:301-309 | a < b and b < c imply that a.compareTo(c) succeeds and is negative |
| UserIdentity.CompareToZeroSubstitutes | server-core/src/main/java/io/onedev/server/model/User.java:301-309 | users that compare equal compare alike, in both argument positions, against every other user |
| UserIdentity.MatchScore | server-core/src/main/java/io/onedev/server/model/User.java:311-315 | the score is the larger of the name's score and the full name's score against the term |
| Principals.AsPrincipal | server-core/src/main/java/io/onedev/server/model/User.java:195-197 | the collection holds exactly the given id under the empty realm; a null id is refused |
| Principals.PrincipalsOf | server-core/src/main/java/io/onedev/server/model/User.java:175-178 | the user's principal collection has exactly one principal, the user's id, under the empty realm; it fails for a null id |
| Principals.AsSubjectForId | server-core/src/main/java/io/onedev/server/model/User.java:199-202 | the subject is bound to asPrincipal of the id, so its primary principal is that id; it fails for a null id |
| Principals.AsSubject | server-core/src/main/java/io/onedev/server/model/User.java:204-209 | a null user gets the anonymous principal 0; any other user gets exactly its own id, and a user with a null id gets no subject |
| Principals.CurrentId | server-core/src/main/java/io/onedev/server/model/User.java:189-193 | the bound principal is returned as the current id; an unbound subject throws NullPointerException |
| Principals.SubjectRoundTrip | server-core/src/main/java/io/onedev/server/model/User.java:189-209 | acting as a user and reading the current id gives back that user's id, or 0 for a null user |
| Principals.AnonymousIsNotRoot | server-core/src/main/java/io/onedev/server/model/User.java:204-209 | the root user's subject exists and differs from the anonymous subject |
| Principals.NullIdIsNotAnonymous | server-core/src/main/java/io/onedev/server/model/User.java:204-209 | a user with a null id gets no subject, while a null user gets the anonymous one |
| UserEntity.GroupsOf | server-core/src/main/java/io/onedev/server/model/User.java:319 | the groups of the memberships: same length, and element i is the group of membership i |
| UserEntity.User.constructor | server-core/src/main/java/io/onedev/server/model/User.java:106-117 | a new user has no id or names, empty query list and watch maps, no memberships and no cached groups |
| UserEntity.User.SetName | server-core/src/main/java/io/onedev/server/model/User.java:218-220 | replaces only the login name; the display name becomes it unless a full name is set |
| UserEntity.User.SetFullName | server-core/src/main/java/io/onedev/server/model/User.java:244-246 | replaces only the full name; the display name becomes it when it is non-null, otherwise the login name |
| UserEntity.User.SetUserQueryWatches | server-core/src/main/java/io/onedev/server/model/User.java:119-121 | replaces only the user-query watch map; the shared-query watch map and the query list are unchanged |
| UserEntity.User.SetQueryWatches | server-core/src/main/java/io/onedev/server/model/User.java:123-125 | replaces only the shared-query watch map; the user-query watch map and the query list are unchanged |
| UserEntity.User.IssueQuerySetting | server-core/src/main/java/io/onedev/server/model/User.java:127-128 | returns a new view whose owner is this user |
| UserEntity.User.SetGroups | server-core/src/main/java/io/onedev/server/model/User.java:263-265 | replaces only the memberships and leaves the group cache as it was |
| UserEntity.User.Groups | server-core/src/main/java/io/onedev/server/model/User.java:317-321 | the first call returns the groups of the current memberships and caches them; later calls return the cached groups |
| UserEntity.IssueQuerySetting.Project | server-core/src/main/java/io/onedev/server/model/User.java:130-133 | the setting belongs to no project |
| UserEntity.IssueQuerySetting.Owner | server-core/src/main/java/io/onedev/server/model/User.java:135-138 | the owner is the user the setting was created from |
| UserEntity.IssueQuerySetting.UserQueries | server-core/src/main/java/io/onedev/server/model/User.java:140-143 | returns the user's current userIssueQueries field |
| UserEntity.IssueQuerySetting.SetUserQueries | server-core/src/main/java/io/onedev/server/model/User.java:140-148 | afterwards getUserQueries returns exactly the given list, in order; both watch maps are unchanged |
| UserEntity.IssueQuerySetting.QueryWatchSupport | server-core/src/main/java/io/onedev/server/model/User.java:150-152 | returns a new watch-support view over the same user |
| UserEntity.IssueQuerySetting.QuerySubscriptionSupport | server-core/src/main/java/io/onedev/server/model/User.java:167-170 | there is no query subscription support |
| UserEntity.IssueQueryWatchSupport.UserQueryWatches | server-core/src/main/java/io/onedev/server/model/User.java:154-157 | returns the user's current userIssueQueryWatches field |
| UserEntity.IssueQueryWatchSupport.QueryWatches | server-core/src/main/java/io/onedev/server/model/User.java:159-162 | returns the user's current issueQueryWatches field |
| UserEntity.GroupsAfterSetGroups | server-core/src/main/java/io/onedev/server/model/User.java:263-265 | after a first getGroups, setGroups replaces the memberships, but getGroups still returns the groups it returned before |
| UserEntity.WatchesThroughView | server-core/src/main/java/io/onedev/server/model/User.java:154-162 | the watch-support view reports the current fields: after setUserQueryWatches(m) it reports m for user queries and the old shared watch map, even when the keys collide |

## Left out

- Persistence: the JPA/Hibernate annotations, unique columns and indexes, cascade-delete of the owned collections, and the `@Version` optimistic lock. The persistence layer enforces these, and the file has no logic for them.
- The email, password and version fields and their accessors (`getPassword`, `setPassword`, `getEmail`, `setEmail`, `getCredentials`, `getVersion`). They are plain field reads and writes. The same holds for `getName`, `getFullName`, `getMemberships` and the project-authorization accessors. The model reads these as fields.
- The per-project query-setting collections (issue, build, pull request, commit, code comment) and the other back-reference collections. This file only stores them.
- Null arguments and null collections: `setUserQueryWatches(null)`, `setQueryWatches(null)`, `setUserQueries(null)` and `setGroups(null)` are legal Java. The model's sequences and watch maps are never null, so these calls cannot be expressed. Neither can the NullPointerException that `getGroups` then throws at line 319 when the cache is empty. Null keys and null `Boolean` values in a `LinkedHashMap` are not modelled either. Nor is `compareTo(null)`, which throws a NullPointerException at line 304: an `Identity` is never null.
- Aliasing: Java's getters return, and its setters store, the caller's `ArrayList` and `LinkedHashMap` objects. A caller that mutates a returned collection mutates the user's field. Here the collections are values.
- Shiro: `SecurityUtils.getSubject()` is ambient state, so `CurrentId` receives the subject's principal as a parameter. The `WebSecurityManager` lookup through `AppLoader` and `Subject.Builder` are left out; a subject is modelled as the principal collection it is bound to. The refusal of a null principal comes from `SimplePrincipalCollection`, whose source is not part of this model.
- `getCurrentId`'s cast `(Long) principal` is not modelled: every principal here is an id, so a non-Long principal cannot occur.
- UserIdentity.MatchScore: the score function (`MatchScoreUtils`) is a parameter. Doubles are reals, so NaN and the exact `Math.max` handling of NaN and signed zeros are not modelled.
- JavaLang.StringCompareTo: a Dafny `char` is a Unicode scalar value, not a UTF-16 code unit, and characters are compared by their value. This matches Java for characters up to U+FFFF. Above U+FFFF, Java compares the first surrogate of the pair, so the sign of `compareTo` can differ for display names holding such characters: `"\uFFFF".compareTo("\uD83D\uDE00")` is positive in Java, while the model gives a negative result. Lone surrogates, which a Java string may hold, cannot occur in the model.
- Ids are unbounded integers rather than 64-bit `long`s. `Long.compare` compares without subtracting, so no overflow can arise.
- `compareTo` casts its `AbstractEntity` argument to `User`; the model only compares users, so the `ClassCastException` path is left out.
- `toString` and `asPerson` are left out: formatting and a JGit `PersonIdent`, with no logic.
- Validation and UI metadata (`@UserName`, `@Email`, `@NotEmpty`, `@Editable`, `@Password`, `@JsonView`): annotations, with no logic.
