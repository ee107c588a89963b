/**
 * A user's public profile at `/prayer-wall/user/<id>`: the user's name, bio
 * and three tabs (Prayers, Replies, Reactions). Prayers lists what the user
 * shared under their own name, Replies the comments they wrote, and
 * Reactions stays empty because reactions are private. An id that names no
 * user shows "User not found".
 */
module PrayerWallProfile {
  import opened Wrappers
  import opened Seqs
  import opened PrayerWallTypes
  import opened MockCatalog
  import opened MockData
  import opened RovingFocus
  import opened PrayerReactions
  import opened OpenSet
  import opened Toasts
  import opened PrayerUpdates

  datatype Tab = PrayersTab | RepliesTab | ReactionsTab

  /** The tab bar, in order. */
  const Tabs: seq<Tab> := [PrayersTab, RepliesTab, ReactionsTab]

  /** `id ? getMockUser(id) : undefined`: a missing or empty id, or one no user has, finds nobody. */
  function ProfileUser(routeId: Option<string>): (u: Option<PrayerWallUser>)
    ensures u.Some? ==> u.value in MockUsers && routeId == Some(u.value.id)
    ensures u.None? <==> routeId.None? || routeId.value == "" || forall x :: x in MockUsers ==> x.id != routeId.value
  {
    if routeId.None? || routeId.value == "" then None else GetMockUser(routeId.value)
  }

  datatype ProfileView = UserNotFound | ProfileOf(user: PrayerWallUser)

  class Profile {
    const routeId: Option<string>
    const profileUser: Option<PrayerWallUser>
    var activeTab: Tab
    const allComments: seq<PrayerComment>
    var prayers: seq<PrayerRequest>
    const reactionStore: ReactionStore
    const openComments: OpenComments
    const toasts: ToastProvider

    ghost predicate Valid()
      reads this, reactionStore, toasts
    {
      && reactionStore.Valid()
      && toasts.Valid()
      && AnonymousUnattributed(prayers)
      && profileUser == ProfileUser(routeId)
    }

    /** The page's state as it mounts for the id in the address, over `feed` and `comments`. */
    constructor(routeId: Option<string>, feed: seq<PrayerRequest>, comments: seq<PrayerComment>)
      requires AnonymousUnattributed(feed)
      ensures Valid()
      ensures this.routeId == routeId && activeTab == PrayersTab
      ensures prayers == feed && allComments == comments
      ensures fresh(reactionStore) && fresh(openComments) && fresh(toasts)
      ensures openComments.openSet == {} && toasts.toasts == []
    {
      var store := NewReactionStore();
      reactionStore := store;
      openComments := new OpenComments();
      toasts := new ToastProvider();
      this.routeId := routeId;
      profileUser := ProfileUser(routeId);
      activeTab := PrayersTab;
      allComments := comments;
      prayers := feed;
    }

    /** "User not found" exactly when the id finds no user. */
    function View(): (v: ProfileView)
      reads this
      ensures v.UserNotFound? <==> profileUser.None?
      ensures v.ProfileOf? ==> v.user == profileUser.value
    {
      match profileUser
      case None => UserNotFound
      case Some(u) => ProfileOf(u)
    }

    /**
     * The Prayers tab: the prayers the user shared under their own name, in
     * feed order. Since anonymous prayers carry no author id, this is the
     * same list the user's own dashboard shows.
     */
    function UserPrayers(): (r: seq<PrayerRequest>)
      requires Valid() && profileUser.Some?
      reads this, reactionStore, toasts
      ensures forall p :: p in r <==> p in prayers && p.userId == routeId && !p.isAnonymous
      ensures r == PrayersBy(prayers, routeId.value)
      ensures KeptInOrder(r, prayers, ByNamedAuthor(routeId.value))
    {
      ProfileMatchesDashboard(prayers, routeId.value);
      ProfilePrayers(prayers, routeId.value)
    }

    /** The Replies tab: the comments the user wrote, in catalogue order. */
    function Replies(): (r: seq<PrayerComment>)
      requires Valid() && profileUser.Some?
      reads this, reactionStore, toasts
      ensures forall c :: c in r <==> c in allComments && Some(c.userId) == routeId
      ensures KeptInOrder(r, allComments, ByCommenter(routeId.value))
    {
      CommentsBy(allComments, routeId.value)
    }

    /** The Reactions tab: there is no per-user reaction data to show, whoever the user is. */
    function ReactedPrayers(): (r: seq<PrayerRequest>)
      reads this
      ensures |r| == 0
    {
      []
    }

    /** `handleSubmitComment`: that prayer's count goes up by one and its activity time moves to now. */
    method SubmitComment(prayerId: string, nowIso: string)
      requires Valid()
      modifies this`prayers, toasts
      ensures Valid()
      ensures prayers == UpdateById(old(prayers), prayerId, BumpComments(nowIso))
      ensures toasts.toasts == Shown(old(toasts.toasts), Toast(old(toasts.nextId), CommentPostedMessage, Success))
    {
      var _ := toasts.ShowToast(CommentPostedMessage, None);
      FeedChangesKeepAnonymity(prayers, 0, nowIso, "", false, None, prayerId, "", false);
      prayers := UpdateById(prayers, prayerId, BumpComments(nowIso));
    }

    /** The praying button: only the reaction flips; this page leaves the counts alone. */
    method TogglePraying(prayerId: string)
      requires Valid()
      modifies reactionStore
      ensures Valid()
      ensures reactionStore.reactions == WithPrayingToggled(old(reactionStore.reactions), prayerId)
      ensures prayers == old(prayers)
    {
      var _ := reactionStore.TogglePraying(prayerId);
    }

    /** The bookmark button. */
    method ToggleBookmark(prayerId: string)
      requires Valid()
      modifies reactionStore
      ensures Valid()
      ensures reactionStore.reactions == WithBookmarkToggled(old(reactionStore.reactions), prayerId)
    {
      reactionStore.ToggleBookmark(prayerId);
    }

    /** The comments button opens or closes that card's comments. */
    method ToggleComments(prayerId: string)
      modifies openComments
      ensures openComments.openSet == Toggled(old(openComments.openSet), prayerId)
    {
      openComments.Toggle(prayerId);
    }

    /** Clicking a tab. */
    method SelectTab(tab: Tab)
      modifies this`activeTab
      ensures activeTab == tab
    {
      activeTab := tab;
    }

    /** A key pressed on the tab at `index`: the arrows, Home and End select and focus another tab; other keys do nothing. */
    method TabKeyDown(index: nat, key: Key)
      requires index < |Tabs|
      modifies this`activeTab
      ensures TabTarget(key, index, |Tabs|).Some? ==> activeTab == Tabs[TabTarget(key, index, |Tabs|).value]
      ensures TabTarget(key, index, |Tabs|).None? ==> activeTab == old(activeTab)
    {
      var handled, nextIndex := NextTab(key, index, |Tabs|);
      if handled {
        activeTab := Tabs[nextIndex];
      }
    }
  }

  /** The profile as it mounts: the user the address names, over every catalogue prayer and comment. */
  method Mount(routeId: Option<string>) returns (page: Profile)
    ensures fresh(page) && page.Valid()
    ensures page.profileUser == ProfileUser(routeId)
    ensures page.prayers == GetMockPrayers() && page.allComments == GetMockAllComments()
    ensures page.activeTab == PrayersTab
  {
    var feed := LoadFeed();
    var comments := GetMockAllComments();
    page := new Profile(routeId, feed, comments);
  }
}
