/** The list filters and the load gate of src/pages/AdminDashboard.jsx.  Case folding is
    the ASCII lower-casing of the Text module. */
module Dashboard {
  import opened Wrappers
  import opened Seqs
  import opened Text
  import opened Models
  import Access

  /** The user filter: the search in the lower-cased name or email, and the role filter
      empty or equal to the role's name. */
  predicate UserMatches(u: UserView, search: string, roleFilter: string) {
    (Includes(Lower(u.name), Lower(search)) || Includes(Lower(u.email), Lower(search)))
    && (roleFilter == "" || RoleName(u.role) == roleFilter)
  }

  function UserFilter(search: string, roleFilter: string): UserView -> bool {
    (u: UserView) => UserMatches(u, search, roleFilter)
  }

  /** filteredUsers. */
  function FilterUsers(users: seq<UserView>, search: string, roleFilter: string): (r: seq<UserView>)
    ensures forall i :: 0 <= i < |r| ==> UserMatches(r[i], search, roleFilter) && r[i] in users
    ensures forall i :: 0 <= i < |users| && UserMatches(users[i], search, roleFilter) ==> users[i] in r
  {
    Filter(users, UserFilter(search, roleFilter))
  }

  /** The channel filter: the search in the lower-cased name only, and the status filter
      empty or equal to the status's name. */
  predicate ChannelMatches(c: Channel, search: string, statusFilter: string) {
    Includes(Lower(c.name), Lower(search)) && (statusFilter == "" || ChannelStatusName(c.status) == statusFilter)
  }

  function ChannelFilter(search: string, statusFilter: string): Channel -> bool {
    (c: Channel) => ChannelMatches(c, search, statusFilter)
  }

  /** filteredChannels. */
  function FilterChannels(channels: seq<Channel>, search: string, statusFilter: string): (r: seq<Channel>)
    ensures forall i :: 0 <= i < |r| ==> ChannelMatches(r[i], search, statusFilter) && r[i] in channels
    ensures forall i :: 0 <= i < |channels| && ChannelMatches(channels[i], search, statusFilter) ==> channels[i] in r
  {
    Filter(channels, ChannelFilter(search, statusFilter))
  }

  /** Both filters keep their input's order. */
  lemma FiltersKeepOrder(users: seq<UserView>, channels: seq<Channel>, search: string, roleFilter: string, statusFilter: string)
    ensures IsSubsequence(FilterUsers(users, search, roleFilter), users)
    ensures IsSubsequence(FilterChannels(channels, search, statusFilter), channels)
  {
    FilterIsSubsequence(users, UserFilter(search, roleFilter));
    FilterIsSubsequence(channels, ChannelFilter(search, statusFilter));
  }

  /** With an empty search and no filter, both lists are shown whole and in order. */
  lemma EmptyFiltersKeepAll(users: seq<UserView>, channels: seq<Channel>)
    ensures FilterUsers(users, "", "") == users
    ensures FilterChannels(channels, "", "") == channels
  {
    assert Lower("") == "";
    forall i | 0 <= i < |users| ensures UserFilter("", "")(users[i]) {
      IncludesEmpty(Lower(users[i].name));
    }
    FilterAll(users, UserFilter("", ""));
    forall i | 0 <= i < |channels| ensures ChannelFilter("", "")(channels[i]) {
      IncludesEmpty(Lower(channels[i].name));
    }
    FilterAll(channels, ChannelFilter("", ""));
  }

  /** The search ignores the case of what is typed. */
  lemma SearchIgnoresCase(u: UserView, c: Channel, search: string, roleFilter: string, statusFilter: string)
    ensures UserMatches(u, Lower(search), roleFilter) == UserMatches(u, search, roleFilter)
    ensures ChannelMatches(c, Lower(search), statusFilter) == ChannelMatches(c, search, statusFilter)
  {
    LowerIdempotent(search);
  }

  /** A channel whose description alone mentions the search is not shown. */
  lemma DescriptionNotSearched(c: Channel, search: string)
    requires Includes(Lower(c.description), Lower(search)) && !Includes(Lower(c.name), Lower(search))
    ensures FilterChannels([c], search, "") == []
  {
    FilterNone([c], ChannelFilter(search, ""));
  }

  /** The load effect: data is requested only for a signed-in viewer whose role is admin. */
  function LoadsData(viewer: Option<UserView>): (r: bool)
    ensures r <==> viewer.Some? && viewer.value.role == Admin
  {
    match viewer
    case None => false
    case Some(v) => RoleName(v.role) == "admin"
  }

  /** The gate agrees with the server's admin check on the same stored user. */
  lemma GateAgreesWithServer(users: seq<User>, uid: UserId)
    requires FindUser(users, uid).Some?
    ensures LoadsData(Some(View(users[FindUser(users, uid).value]))) <==> Access.RequireAdmin(users, uid).Ok?
  {
  }
}
