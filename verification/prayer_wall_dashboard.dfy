/**
 * The signed-in user's dashboard: an editable name and bio, five tabs (My
 * Prayers, My Comments, Bookmarks, Reactions, Settings) over the whole
 * catalogue, and on the user's own unanswered prayers the controls to mark
 * them answered or delete them. Signed out, the page only redirects to the
 * login page.
 */
module PrayerWallDashboard {
  import opened Wrappers
  import opened Seqs
  import opened PrayerWallTypes
  import opened MockCatalog
  import opened MockData
  import opened RovingFocus
  import opened PrayerReactions
  import opened OpenSet
  import opened Toasts
  import opened PrayerUpdates

  datatype Tab = PrayersTab | CommentsTab | BookmarksTab | ReactionsTab | SettingsTab

  /** The tab bar, in order. */
  const Tabs: seq<Tab> := [PrayersTab, CommentsTab, BookmarksTab, ReactionsTab, SettingsTab]

  const BioLimit: nat := 500
  const LoginRedirect: string := "/login?returnTo=/prayer-wall/dashboard"
  const BioPlaceholder: string := "Add a bio..."
  const NameSavedMessage: string := "Name updated."
  const BioSavedMessage: string := "Bio updated."

  /** Whose dashboard it is: `user ?? MOCK_CURRENT_USER`. */
  datatype Owner = Owner(id: string, firstName: string, lastName: string, bio: string)

  /**
   * The signed-in account, or else the catalogue's current user. An account
   * record has no bio, so `bio ?? ''` starts it empty.
   */
  function DashboardOwner(user: Option<AuthUser>): (o: Owner)
    ensures user.Some? ==> o.id == user.value.id && o.firstName == user.value.firstName && o.lastName == user.value.lastName && o.bio == ""
    ensures user.None? ==> o.id == MockCurrentUser.id && o.firstName == MockCurrentUser.firstName && o.bio == MockCurrentUser.bio
  {
    match user
    case Some(u) => Owner(u.id, u.firstName, u.lastName, "")
    case None => Owner(MockCurrentUser.id, MockCurrentUser.firstName, MockCurrentUser.lastName, MockCurrentUser.bio)
  }

  /** Every bio the page can start with fits the limit. */
  lemma StartingBioFits(user: Option<AuthUser>)
    ensures |DashboardOwner(user).bio| <= BioLimit
  {
  }

  /** The answer and delete controls are offered only on a prayer not yet answered. */
  predicate ShowsAnswerControls(p: PrayerRequest): (b: bool)
    ensures b ==> p.answeredAt.None? || !p.isAnswered
    ensures !b <==> p.isAnswered
  {
    !p.isAnswered
  }

  datatype DashboardView = RedirectTo(path: string) | DashboardContent

  class Dashboard {
    const isLoggedIn: bool
    const user: Option<AuthUser>
    const owner: Owner
    var activeTab: Tab
    var displayName: string
    var bio: string
    var editingName: bool
    var editingBio: bool
    const allComments: seq<PrayerComment>
    var prayers: seq<PrayerRequest>
    const reactionStore: ReactionStore
    const openComments: OpenComments
    const toasts: ToastProvider

    ghost predicate Valid()
      reads this, reactionStore, toasts
    {
      && reactionStore.Valid()
      && toasts.Valid()
      && |bio| <= BioLimit
      && AnswersDated(prayers)
      && AnonymousUnattributed(prayers)
    }

    /**
     * The page's state as it mounts over the catalogue `feed` and comments
     * `comments`: the My Prayers tab, nothing being edited.
     */
    constructor(isLoggedIn: bool, user: Option<AuthUser>, feed: seq<PrayerRequest>, comments: seq<PrayerComment>)
      requires AnswersDated(feed) && AnonymousUnattributed(feed)
      ensures Valid()
      ensures this.isLoggedIn == isLoggedIn && this.user == user && owner == DashboardOwner(user)
      ensures activeTab == PrayersTab && displayName == owner.firstName && bio == owner.bio
      ensures !editingName && !editingBio
      ensures prayers == feed && allComments == comments
      ensures fresh(reactionStore) && fresh(openComments) && fresh(toasts)
      ensures openComments.openSet == {} && toasts.toasts == []
    {
      var store := NewReactionStore();
      var me := DashboardOwner(user);
      StartingBioFits(user);
      reactionStore := store;
      openComments := new OpenComments();
      toasts := new ToastProvider();
      this.isLoggedIn := isLoggedIn;
      this.user := user;
      owner := me;
      activeTab := PrayersTab;
      displayName := me.firstName;
      bio := me.bio;
      editingName := false;
      editingBio := false;
      allComments := comments;
      prayers := feed;
    }

    /** Signed out, the page is only a redirect to the login page, which returns here. */
    function View(): (v: DashboardView)
      reads this
      ensures v.RedirectTo? <==> !isLoggedIn
      ensures v.RedirectTo? ==> v.path == LoginRedirect
    {
      if !isLoggedIn then RedirectTo(LoginRedirect) else DashboardContent
    }

    /** "My Prayers": the feed's prayers whose author id is the owner's, in feed order. */
    function MyPrayers(): (r: seq<PrayerRequest>)
      reads this
      ensures forall p :: p in r <==> p in prayers && p.userId == Some(owner.id)
      ensures KeptInOrder(r, prayers, ByAuthor(owner.id))
    {
      PrayersBy(prayers, owner.id)
    }

    /** "My Comments": the catalogue's comments written by the owner, in catalogue order. */
    function MyComments(): (r: seq<PrayerComment>)
      reads this
      ensures forall c :: c in r <==> c in allComments && c.userId == owner.id
      ensures KeptInOrder(r, allComments, ByCommenter(owner.id))
    {
      CommentsBy(allComments, owner.id)
    }

    /** "Bookmarks": the feed's prayers the owner has bookmarked, in feed order. */
    function Bookmarks(): (r: seq<PrayerRequest>)
      reads this, reactionStore
      ensures forall p :: p in r <==> p in prayers && IsBookmarked(reactionStore.reactions, p.id)
      ensures KeptInOrder(r, prayers, IdIn(BookmarkedIds(reactionStore.reactions)))
    {
      BookmarkedPrayers(prayers, reactionStore.reactions)
    }

    /** "Reactions": the feed's prayers the owner is praying for, in feed order. */
    function PrayedFor(): (r: seq<PrayerRequest>)
      reads this, reactionStore
      ensures forall p :: p in r <==> p in prayers && IsPraying(reactionStore.reactions, p.id)
      ensures KeptInOrder(r, prayers, IdIn(PrayingIds(reactionStore.reactions)))
    {
      PrayedForPrayers(prayers, reactionStore.reactions)
    }

    /** `handleMarkAnswered`: that prayer becomes answered, with the testimony if one was given. */
    method MarkAnswered(prayerId: string, praiseText: string, nowIso: string)
      requires Valid()
      modifies this`prayers, toasts
      ensures Valid()
      ensures prayers == UpdateById(old(prayers), prayerId, PrayerUpdates.MarkAnswered(praiseText, nowIso))
      ensures forall p :: p in prayers && p.id == prayerId ==> !ShowsAnswerControls(p)
      ensures toasts.toasts == Shown(old(toasts.toasts), Toast(old(toasts.nextId), AnsweredMessage, Success))
    {
      var _ := toasts.ShowToast(AnsweredMessage, None);
      UpdatesKeepAnswersDated(prayers, prayerId, praiseText, nowIso, false);
      FeedChangesKeepAnonymity(prayers, 0, nowIso, "", false, None, prayerId, praiseText, false);
      prayers := UpdateById(prayers, prayerId, PrayerUpdates.MarkAnswered(praiseText, nowIso));
    }

    /** `handleDelete`: every prayer with that id leaves the feed; the rest keep their order. */
    method Delete(prayerId: string)
      requires Valid()
      modifies this`prayers, toasts
      ensures Valid()
      ensures prayers == RemovePrayer(old(prayers), prayerId)
      ensures forall p :: p in MyPrayers() ==> p.id != prayerId
      ensures toasts.toasts == Shown(old(toasts.toasts), Toast(old(toasts.nextId), DeletedMessage, Success))
    {
      var _ := toasts.ShowToast(DeletedMessage, None);
      FeedChangesKeepAnonymity(prayers, 0, "", "", false, None, prayerId, "", false);
      var rest := RemovePrayer(prayers, prayerId);
      forall i | 0 <= i < |rest| && rest[i].isAnswered
        ensures rest[i].answeredAt.Some?
      {
        assert rest[i] in prayers;
        var j :| 0 <= j < |prayers| && prayers[j] == rest[i];
      }
      prayers := rest;
    }

    /** `handleSubmitComment`: that prayer's count goes up by one and its activity time moves to now. */
    method SubmitComment(prayerId: string, nowIso: string)
      requires Valid()
      modifies this`prayers, toasts
      ensures Valid()
      ensures prayers == UpdateById(old(prayers), prayerId, BumpComments(nowIso))
      ensures toasts.toasts == Shown(old(toasts.toasts), Toast(old(toasts.nextId), CommentPostedMessage, Success))
    {
      var _ := toasts.ShowToast(CommentPostedMessage, None);
      UpdatesKeepAnswersDated(prayers, prayerId, "", nowIso, false);
      FeedChangesKeepAnonymity(prayers, 0, nowIso, "", false, None, prayerId, "", false);
      prayers := UpdateById(prayers, prayerId, BumpComments(nowIso));
    }

    /** The praying button: only the reaction flips; this page leaves the counts alone. */
    method TogglePraying(prayerId: string)
      requires Valid()
      modifies reactionStore
      ensures Valid()
      ensures reactionStore.reactions == WithPrayingToggled(old(reactionStore.reactions), prayerId)
      ensures prayers == old(prayers)
    {
      var _ := reactionStore.TogglePraying(prayerId);
    }

    /** The bookmark button. */
    method ToggleBookmark(prayerId: string)
      requires Valid()
      modifies reactionStore
      ensures Valid()
      ensures reactionStore.reactions == WithBookmarkToggled(old(reactionStore.reactions), prayerId)
    {
      reactionStore.ToggleBookmark(prayerId);
    }

    /** The comments button opens or closes that card's comments. */
    method ToggleComments(prayerId: string)
      modifies openComments
      ensures openComments.openSet == Toggled(old(openComments.openSet), prayerId)
    {
      openComments.Toggle(prayerId);
    }

    /** The pencil next to the name. */
    method StartEditingName()
      modifies this`editingName
      ensures editingName
    {
      editingName := true;
    }

    /** Typing in the name field; the name has no length limit. */
    method EditName(value: string)
      modifies this`displayName
      ensures displayName == value
    {
      displayName := value;
    }

    /** The name's Save button. */
    method SaveName()
      requires Valid()
      modifies this`editingName, toasts
      ensures Valid()
      ensures !editingName
      ensures toasts.toasts == Shown(old(toasts.toasts), Toast(old(toasts.nextId), NameSavedMessage, Success))
    {
      editingName := false;
      var _ := toasts.ShowToast(NameSavedMessage, None);
    }

    /** The pencil next to the bio. */
    method StartEditingBio()
      modifies this`editingBio
      ensures editingBio
    {
      editingBio := true;
    }

    /** Typing in the bio field: a value over 500 characters is refused and the bio stays as it was. */
    method EditBio(value: string)
      requires Valid()
      modifies this`bio
      ensures Valid()
      ensures |value| <= BioLimit ==> bio == value
      ensures |value| > BioLimit ==> bio == old(bio)
    {
      if |value| <= BioLimit {
        bio := value;
      }
    }

    /** The bio's Save button. */
    method SaveBio()
      requires Valid()
      modifies this`editingBio, toasts
      ensures Valid()
      ensures !editingBio
      ensures toasts.toasts == Shown(old(toasts.toasts), Toast(old(toasts.nextId), BioSavedMessage, Success))
    {
      editingBio := false;
      var _ := toasts.ShowToast(BioSavedMessage, None);
    }

    /** The bio as shown when not editing: `bio || 'Add a bio...'`. */
    function BioText(): (t: string)
      reads this
      ensures t == BioPlaceholder <==> bio == "" || bio == BioPlaceholder
      ensures bio != "" ==> t == bio
    {
      if bio == "" then BioPlaceholder else bio
    }

    /** Clicking a tab. */
    method SelectTab(tab: Tab)
      modifies this`activeTab
      ensures activeTab == tab
    {
      activeTab := tab;
    }

    /** A key pressed on the tab at `index`: the arrows, Home and End select and focus another tab; other keys do nothing. */
    method TabKeyDown(index: nat, key: Key)
      requires index < |Tabs|
      modifies this`activeTab
      ensures TabTarget(key, index, |Tabs|).Some? ==> activeTab == Tabs[TabTarget(key, index, |Tabs|).value]
      ensures TabTarget(key, index, |Tabs|).None? ==> activeTab == old(activeTab)
    {
      var handled, nextIndex := NextTab(key, index, |Tabs|);
      if handled {
        activeTab := Tabs[nextIndex];
      }
    }
  }

  /** The dashboard as it mounts: over every catalogue prayer and comment. */
  method Mount(isLoggedIn: bool, user: Option<AuthUser>) returns (page: Dashboard)
    ensures fresh(page) && page.Valid()
    ensures page.prayers == GetMockPrayers() && page.allComments == GetMockAllComments()
    ensures page.activeTab == PrayersTab && page.owner == DashboardOwner(user)
  {
    var feed := LoadFeed();
    var comments := GetMockAllComments();
    page := new Dashboard(isLoggedIn, user, feed, comments);
  }

  /** Deleting a prayer twice shows two toasts but removes it only once. */
  method DeleteTwice(page: Dashboard, prayerId: string)
    requires page.Valid()
    modifies page, page.toasts
    ensures page.Valid()
    ensures page.prayers == RemovePrayer(old(page.prayers), prayerId)
  {
    page.Delete(prayerId);
    page.Delete(prayerId);
    RemoveIdempotent(old(page.prayers), prayerId);
  }
}
