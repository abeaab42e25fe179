/**
 * The state the User entity updates in place: its name fields, the saved
 * issue queries and the two issue-query watch maps (reached through the
 * issue query setting view), and the memberships with their lazily
 * computed group cache.
 */
module UserEntity {
  import opened Wrappers
  import UI = UserIdentity

  /** A group, known here by its id and name (the Group entity is not part of this model). */
  datatype Group = Group(groupId: int, name: string)

  /** A membership record, reduced to the group it refers to. */
  datatype Membership = Membership(group: Group)

  /** A saved issue query: its name and its query text. */
  datatype NamedIssueQuery = NamedIssueQuery(name: string, query: string)

  /** A project (the Project entity is not part of this model). */
  datatype Project = Project(projectId: int)

  /** The query subscription capability (its interface is not part of this model). */
  datatype QuerySubscriptionSupport = QuerySubscriptionSupport

  /** No key occurs twice in an association list. */
  predicate UniqueKeys(entries: seq<(string, bool)>) {
    forall i, j :: 0 <= i < j < |entries| ==> entries[i].0 != entries[j].0
  }

  /**
   * A LinkedHashMap<String, Boolean>: its entries in insertion order, each
   * key once. `true` means watching, `false` explicitly not watching.
   */
  type WatchMap = m: seq<(string, bool)> | UniqueKeys(m) witness []

  /**
   * `memberships.stream().map(it -> it.getGroup())`: the group of each
   * membership, in membership order.
   */
  function GroupsOf(ms: seq<Membership>): (gs: seq<Group>)
    ensures |gs| == |ms|
    ensures forall i :: 0 <= i < |ms| ==> gs[i] == ms[i].group
  {
    if ms == [] then [] else [ms[0].group] + GroupsOf(ms[1..])
  }

  class User {
    var id: Option<int>
    var name: Option<string>
    var fullName: Option<string>
    var userIssueQueries: seq<NamedIssueQuery>
    var userIssueQueryWatches: WatchMap
    var issueQueryWatches: WatchMap
    var memberships: seq<Membership>
    /** Transient: null until getGroups first runs, and never reset afterwards. */
    var groups: Option<seq<Group>>

    /** A new entity: no id or names yet, empty collections, no cached groups. */
    constructor ()
      ensures id.None? && name.None? && fullName.None?
      ensures userIssueQueries == [] && userIssueQueryWatches == [] && issueQueryWatches == []
      ensures memberships == [] && groups.None?
    {
      id, name, fullName := None, None, None;
      userIssueQueries, userIssueQueryWatches, issueQueryWatches := [], [], [];
      memberships, groups := [], None;
    }

    /** The fields the identity rules read. */
    function Identity(): (u: UI.Identity)
      reads this
      ensures u.id == id && u.name == name && u.fullName == fullName
    {
      UI.Identity(id, name, fullName)
    }

    /** setName: replaces the login name; the display name follows unless a full name is set. */
    method SetName(n: Option<string>)
      modifies this`name
      ensures name == n
      ensures UI.DisplayName(Identity()) == if fullName.Some? then fullName else n
    {
      name := n;
    }

    /** setFullName: replaces the full name, which then decides the display name if non-null. */
    method SetFullName(f: Option<string>)
      modifies this`fullName
      ensures fullName == f
      ensures UI.DisplayName(Identity()) == if f.Some? then f else name
    {
      fullName := f;
    }

    /** setUserQueryWatches: replaces the watch map of the user's own queries, and nothing else. */
    method SetUserQueryWatches(m: WatchMap)
      modifies this`userIssueQueryWatches
      ensures userIssueQueryWatches == m
      ensures issueQueryWatches == old(issueQueryWatches)
      ensures userIssueQueries == old(userIssueQueries)
    {
      userIssueQueryWatches := m;
    }

    /** setQueryWatches: replaces the watch map of the shared queries, and nothing else. */
    method SetQueryWatches(m: WatchMap)
      modifies this`issueQueryWatches
      ensures issueQueryWatches == m
      ensures userIssueQueryWatches == old(userIssueQueryWatches)
      ensures userIssueQueries == old(userIssueQueries)
    {
      issueQueryWatches := m;
    }

    /** getIssueQuerySetting: a new view onto this user's issue queries and watches. */
    method IssueQuerySetting() returns (s: IssueQuerySetting)
      ensures fresh(s) && s.user == this
    {
      s := new IssueQuerySetting(this);
    }

    /** setGroups: replaces the memberships; the group cache is left as it is. */
    method SetGroups(ms: seq<Membership>)
      modifies this`memberships
      ensures memberships == ms
      ensures groups == old(groups)
    {
      memberships := ms;
    }

    /**
     * getGroups: on the first call, the groups of the memberships, which are
     * then cached; on every later call, the cached groups.
     */
    method Groups() returns (gs: seq<Group>)
      modifies this`groups
      ensures old(groups).None? ==> gs == GroupsOf(memberships)
      ensures old(groups).Some? ==> gs == old(groups).value
      ensures groups == Some(gs)
    {
      if groups.None? {
        groups := Some(GroupsOf(memberships));
      }
      gs := groups.value;
    }
  }

  /** The issue query setting of a user: a view that reads and writes the user's fields. */
  class IssueQuerySetting {
    const user: User

    constructor (user: User)
      ensures this.user == user
    {
      this.user := user;
    }

    /** getProject: a user's own setting belongs to no project. */
    function Project(): (p: Option<Project>)
      ensures p.None?
    {
      None
    }

    /** getUser: the user the setting belongs to. */
    function Owner(): (u: User)
      ensures u == user
    {
      user
    }

    /** getUserQueries: the user's saved issue queries. */
    function UserQueries(): (queries: seq<NamedIssueQuery>)
      reads user
      ensures queries == user.userIssueQueries
    {
      user.userIssueQueries
    }

    /** setUserQueries: replaces the saved queries, in order; the watch maps stay as they were. */
    method SetUserQueries(queries: seq<NamedIssueQuery>)
      modifies user`userIssueQueries
      ensures UserQueries() == queries
      ensures user.userIssueQueryWatches == old(user.userIssueQueryWatches)
      ensures user.issueQueryWatches == old(user.issueQueryWatches)
    {
      user.userIssueQueries := queries;
    }

    /** getQueryWatchSupport: a new view onto the user's two watch maps. */
    method QueryWatchSupport() returns (w: IssueQueryWatchSupport)
      ensures fresh(w) && w.user == user
    {
      w := new IssueQueryWatchSupport(user);
    }

    /** getQuerySubscriptionSupport: issue queries of a user have no subscriptions. */
    function QuerySubscriptionSupport(): (s: Option<QuerySubscriptionSupport>)
      ensures s.None?
    {
      None
    }
  }

  /** The watch support of a user's issue query setting: the current values of both watch fields. */
  class IssueQueryWatchSupport {
    const user: User

    constructor (user: User)
      ensures this.user == user
    {
      this.user := user;
    }

    /** getUserQueryWatches: the watches on the user's own queries. */
    function UserQueryWatches(): (watches: WatchMap)
      reads user
      ensures watches == user.userIssueQueryWatches
    {
      user.userIssueQueryWatches
    }

    /** getQueryWatches: the watches on shared queries. */
    function QueryWatches(): (watches: WatchMap)
      reads user
      ensures watches == user.issueQueryWatches
    {
      user.issueQueryWatches
    }
  }

  /**
   * The group cache goes stale: after one getGroups, replacing the
   * memberships with setGroups does not change what getGroups returns.
   */
  method GroupsAfterSetGroups(u: User, ms: seq<Membership>) returns (before: seq<Group>, after: seq<Group>)
    modifies u`groups, u`memberships
    ensures old(u.groups).None? ==> before == GroupsOf(old(u.memberships))
    ensures u.memberships == ms
    ensures after == before && u.groups == Some(before)
  {
    before := u.Groups();
    u.SetGroups(ms);
    after := u.Groups();
  }

  /**
   * Watch support reads the user's current fields: setting the user-query
   * watches through the user changes what the view reports for them and
   * nothing else, even when both maps share keys.
   */
  method WatchesThroughView(u: User, m: WatchMap) returns (userWatches: WatchMap, sharedWatches: WatchMap)
    modifies u`userIssueQueryWatches
    ensures userWatches == m && u.userIssueQueryWatches == m
    ensures sharedWatches == old(u.issueQueryWatches) && u.issueQueryWatches == old(u.issueQueryWatches)
    ensures u.userIssueQueries == old(u.userIssueQueries)
  {
    var setting := u.IssueQuerySetting();
    var support := setting.QueryWatchSupport();
    u.SetUserQueryWatches(m);
    userWatches := support.UserQueryWatches();
    sharedWatches := support.QueryWatches();
  }
}
