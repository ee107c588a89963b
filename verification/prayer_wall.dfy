/**
 * The Prayer Wall feed page: the first page of prayers, a "Load More"
 * button, the composer that shares a new prayer at the top of the feed, the
 * praying and bookmark toggles, and comments kept on the page under the
 * prayer they were posted on. The clock (`Date.now()` and its ISO form) is
 * passed in; the signed-in state comes from `useAuth` and is fixed for the
 * page's lifetime.
 */
module PrayerWallPage {
  import opened Wrappers
  import opened Seqs
  import opened PrayerWallTypes
  import opened MockCatalog
  import opened MockData
  import opened PrayerReactions
  import opened OpenSet
  import opened Toasts
  import opened PrayerUpdates

  const PrayersPerPage: nat := 20

  const SharedMessage: string := "Your prayer has been shared."

  type LocalComments = map<string, seq<PrayerComment>>

  /** Every comment kept on the page is filed under the prayer it was posted on. */
  predicate FiledByPrayer(local: LocalComments) {
    forall id :: id in local ==> forall i :: 0 <= i < |local[id]| ==> local[id][i].prayerId == id
  }

  /** `localComments[prayerId] ?? []`. */
  function LocalFor(local: LocalComments, prayerId: string): seq<PrayerComment> {
    if prayerId in local then local[prayerId] else []
  }

  /**
   * The comments a card shows: the ones posted on this page, newest first,
   * then the catalogue's comments on the prayer, in table order.
   */
  function CommentsFor(local: LocalComments, prayerId: string): (r: seq<PrayerComment>)
    ensures |r| == |LocalFor(local, prayerId)| + |GetMockComments(prayerId)|
    ensures r[..|LocalFor(local, prayerId)|] == LocalFor(local, prayerId)
    ensures forall c :: c in GetMockComments(prayerId) ==> c in r
    ensures forall c :: c in r <==> c in LocalFor(local, prayerId) || (c in MockComments && c.prayerId == prayerId)
    ensures r[|LocalFor(local, prayerId)|..] == GetMockComments(prayerId)
    ensures KeptInOrder(r[|LocalFor(local, prayerId)|..], MockComments, OnPrayer(prayerId))
  {
    var mine := LocalFor(local, prayerId);
    var r := mine + GetMockComments(prayerId);
    assert r[..|mine|] == mine;
    assert r[|mine|..] == GetMockComments(prayerId);
    r
  }

  /** A card on which nothing was posted here shows just the catalogue's comments on its prayer. */
  lemma CardWithoutLocalComments(local: LocalComments, prayerId: string)
    requires prayerId !in local
    ensures CommentsFor(local, prayerId) == GetMockComments(prayerId)
  {
    var r := CommentsFor(local, prayerId);
    assert r == r[|LocalFor(local, prayerId)|..];
  }

  /** While comments are filed by prayer, a card shows only comments on its own prayer. */
  lemma CommentsStayOnTheirPrayer(local: LocalComments, prayerId: string)
    requires FiledByPrayer(local)
    ensures forall c :: c in CommentsFor(local, prayerId) ==> c.prayerId == prayerId
  {
    var mine := LocalFor(local, prayerId);
    assert CommentsFor(local, prayerId) == mine + GetMockComments(prayerId);
    forall c | c in mine
      ensures c.prayerId == prayerId
    {
      var i :| 0 <= i < |mine| && mine[i] == c;
    }
  }

  /** A comment posted on a prayer keeps comments filed by prayer and shows first on that prayer's card. */
  lemma PostedCommentShowsFirst(local: LocalComments, c: PrayerComment)
    requires FiledByPrayer(local)
    ensures FiledByPrayer(local[c.prayerId := [c] + LocalFor(local, c.prayerId)])
    ensures CommentsFor(local[c.prayerId := [c] + LocalFor(local, c.prayerId)], c.prayerId)[0] == c
  {
    var mine := [c] + LocalFor(local, c.prayerId);
    var next: LocalComments := local[c.prayerId := mine];
    forall id | id in next
      ensures forall i :: 0 <= i < |next[id]| ==> next[id][i].prayerId == id
    {
      if id == c.prayerId {
        forall i | 0 < i < |mine|
          ensures mine[i].prayerId == id
        {
          assert mine[i] == LocalFor(local, c.prayerId)[i - 1];
        }
      } else {
        assert next[id] == local[id];
      }
    }
    var shown := CommentsFor(next, c.prayerId);
    assert shown[..|mine|][0] == c;
  }

  /** Posting on one prayer leaves every other card's comments as they were. */
  lemma PostedCommentStaysOnItsPrayer(local: LocalComments, c: PrayerComment, other: string)
    requires other != c.prayerId
    ensures CommentsFor(local[c.prayerId := [c] + LocalFor(local, c.prayerId)], other) == CommentsFor(local, other)
  {
    var next := local[c.prayerId := [c] + LocalFor(local, c.prayerId)];
    assert LocalFor(next, other) == LocalFor(local, other);
  }

  class PrayerWall {
    const isLoggedIn: bool
    const user: Option<AuthUser>
    /** `getMockPrayers()`, read once. */
    const allPrayers: seq<PrayerRequest>
    var prayers: seq<PrayerRequest>
    var composerOpen: bool
    var localComments: LocalComments
    const reactionStore: ReactionStore
    const openComments: OpenComments
    const toasts: ToastProvider

    ghost predicate Valid()
      reads this, reactionStore, toasts
    {
      && reactionStore.Valid()
      && toasts.Valid()
      && FiledByPrayer(localComments)
      && AnonymousUnattributed(prayers)
      && AnonymousUnattributed(allPrayers)
    }

    /**
     * The page's state as it mounts over the catalogue `catalogue`: its
     * first page as the feed, the composer closed, no local comments.
     */
    constructor(isLoggedIn: bool, user: Option<AuthUser>, catalogue: seq<PrayerRequest>)
      requires AnonymousUnattributed(catalogue)
      ensures Valid()
      ensures this.isLoggedIn == isLoggedIn && this.user == user
      ensures allPrayers == catalogue && prayers == Take(catalogue, PrayersPerPage)
      ensures !composerOpen && localComments == map[]
      ensures fresh(reactionStore) && fresh(openComments) && fresh(toasts)
      ensures openComments.openSet == {} && toasts.toasts == []
    {
      var store := NewReactionStore();
      reactionStore := store;
      openComments := new OpenComments();
      toasts := new ToastProvider();
      this.isLoggedIn := isLoggedIn;
      this.user := user;
      allPrayers := catalogue;
      var first := Take(catalogue, PrayersPerPage);
      forall i | 0 <= i < |first| && first[i].isAnonymous
        ensures first[i].userId.None?
      {
        assert first[i] == catalogue[i];
      }
      prayers := first;
      composerOpen := false;
      localComments := map[];
    }

    /** `hasMore`: the feed is shorter than the catalogue. */
    predicate HasMore(): (b: bool)
      reads this
      ensures b <==> |prayers| < |allPrayers|
    {
      |prayers| < |allPrayers|
    }

    /** `loadMore`: the catalogue's first `length + 20` prayers. */
    method LoadMore()
      requires Valid()
      modifies this`prayers
      ensures Valid()
      ensures prayers == Take(allPrayers, |old(prayers)| + PrayersPerPage)
      ensures |prayers| == Min(|old(prayers)| + PrayersPerPage, |allPrayers|)
    {
      var next := Take(allPrayers, |prayers| + PrayersPerPage);
      forall i | 0 <= i < |next| && next[i].isAnonymous
        ensures next[i].userId.None?
      {
        assert next[i] == allPrayers[i];
      }
      prayers := next;
    }

    /**
     * The hero's "Share a Prayer Request" button: signed in, it opens or
     * closes the composer; signed out, it asks the visitor to sign in.
     */
    method ShareButton() returns (asksToSignIn: bool)
      modifies this`composerOpen
      ensures asksToSignIn <==> !isLoggedIn
      ensures composerOpen == if isLoggedIn then !old(composerOpen) else old(composerOpen)
    {
      asksToSignIn := !isLoggedIn;
      if isLoggedIn {
        composerOpen := !composerOpen;
      }
    }

    /** The composer's Cancel. */
    method CloseComposer()
      modifies this`composerOpen
      ensures !composerOpen
    {
      composerOpen := false;
    }

    /**
     * `handleComposerSubmit`: signed out, nothing happens; signed in, the new
     * prayer goes to the top of the feed, the composer closes and a toast
     * confirms.
     */
    method ComposerSubmit(content: string, isAnonymous: bool, nowMillis: nat, nowIso: string)
      requires Valid()
      modifies this`prayers, this`composerOpen, toasts
      ensures Valid()
      ensures !isLoggedIn ==> prayers == old(prayers) && composerOpen == old(composerOpen)
      ensures !isLoggedIn ==> toasts.toasts == old(toasts.toasts) && toasts.nextId == old(toasts.nextId)
      ensures isLoggedIn ==> prayers == [NewPrayer(nowMillis, nowIso, content, isAnonymous, user)] + old(prayers) && !composerOpen
      ensures isLoggedIn ==> toasts.toasts == Shown(old(toasts.toasts), Toast(old(toasts.nextId), SharedMessage, Success))
    {
      if !isLoggedIn {
        return;
      }
      var p := NewPrayer(nowMillis, nowIso, content, isAnonymous, user);
      FeedChangesKeepAnonymity(prayers, nowMillis, nowIso, content, isAnonymous, user, "", "", false);
      prayers := [p] + prayers;
      composerOpen := false;
      var _ := toasts.ShowToast(SharedMessage, None);
    }

    /** `handleTogglePraying`: flip the reaction, then move that prayer's count by one the matching way. */
    method TogglePraying(prayerId: string)
      requires Valid()
      modifies this`prayers, reactionStore
      ensures Valid()
      ensures reactionStore.reactions == WithPrayingToggled(old(reactionStore.reactions), prayerId)
      ensures prayers == UpdateById(old(prayers), prayerId, AdjustPraying(IsPraying(old(reactionStore.reactions), prayerId)))
    {
      var wasPraying := reactionStore.TogglePraying(prayerId);
      FeedChangesKeepAnonymity(prayers, 0, "", "", false, None, prayerId, "", wasPraying);
      prayers := UpdateById(prayers, prayerId, AdjustPraying(wasPraying));
    }

    /** The bookmark button: only the reaction changes. */
    method ToggleBookmark(prayerId: string)
      requires Valid()
      modifies reactionStore
      ensures Valid()
      ensures reactionStore.reactions == WithBookmarkToggled(old(reactionStore.reactions), prayerId)
    {
      reactionStore.ToggleBookmark(prayerId);
    }

    /** The comments button opens or closes that card's comments. */
    method ToggleComments(prayerId: string)
      modifies openComments
      ensures openComments.openSet == Toggled(old(openComments.openSet), prayerId)
    {
      openComments.Toggle(prayerId);
    }

    /** What the card for `prayerId` lists under its comments. */
    function CommentsShown(prayerId: string): (r: seq<PrayerComment>)
      requires Valid()
      reads this, reactionStore, toasts
      ensures forall c :: c in r ==> c.prayerId == prayerId
    {
      CommentsStayOnTheirPrayer(localComments, prayerId);
      CommentsFor(localComments, prayerId)
    }

    /**
     * `handleSubmitComment`: signed out, nothing happens; signed in, the
     * comment goes first among that prayer's local comments, that prayer's
     * count goes up by one and its activity time moves to now.
     */
    method SubmitComment(prayerId: string, content: string, nowMillis: nat, nowIso: string)
      requires Valid()
      modifies this`prayers, this`localComments, toasts
      ensures Valid()
      ensures !isLoggedIn ==> prayers == old(prayers) && localComments == old(localComments)
      ensures !isLoggedIn ==> toasts.toasts == old(toasts.toasts) && toasts.nextId == old(toasts.nextId)
      ensures isLoggedIn ==> localComments == old(localComments)[prayerId := [NewComment(nowMillis, nowIso, prayerId, content, user)] + LocalFor(old(localComments), prayerId)]
      ensures isLoggedIn ==> CommentsShown(prayerId)[0] == NewComment(nowMillis, nowIso, prayerId, content, user)
      ensures isLoggedIn ==> prayers == UpdateById(old(prayers), prayerId, BumpComments(nowIso))
      ensures isLoggedIn ==> toasts.toasts == Shown(old(toasts.toasts), Toast(old(toasts.nextId), CommentPostedMessage, Success))
    {
      if !isLoggedIn {
        return;
      }
      var _ := toasts.ShowToast(CommentPostedMessage, None);
      var c := NewComment(nowMillis, nowIso, prayerId, content, user);
      localComments := localComments[prayerId := [c] + LocalFor(localComments, prayerId)];
      FeedChangesKeepAnonymity(prayers, 0, nowIso, "", false, None, prayerId, "", false);
      prayers := UpdateById(prayers, prayerId, BumpComments(nowIso));
    }
  }

  /**
   * The feed page as it mounts over the catalogue. The catalogue fits on one
   * page, so "Load More" is not offered.
   */
  method Mount(isLoggedIn: bool, user: Option<AuthUser>) returns (page: PrayerWall)
    ensures fresh(page) && page.Valid()
    ensures page.allPrayers == GetMockPrayers() && page.prayers == GetMockPrayers()
    ensures !page.HasMore()
  {
    var feed := LoadFeed();
    page := new PrayerWall(isLoggedIn, user, feed);
  }

  /** Praying and then un-praying for a prayer leaves the feed's counts as they were. */
  method PrayThenUnpray(page: PrayerWall, prayerId: string)
    requires page.Valid()
    modifies page, page.reactionStore
    ensures page.Valid()
    ensures page.prayers == old(page.prayers)
  {
    var before := page.prayers;
    var was := IsPraying(page.reactionStore.reactions, prayerId);
    page.TogglePraying(prayerId);
    page.TogglePraying(prayerId);
    PrayingListUndone(before, prayerId, was);
  }
}
