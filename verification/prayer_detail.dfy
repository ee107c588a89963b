/**
 * The page for one prayer at `/prayer-wall/<id>`: the prayer in full, all
 * its comments, a reply box, and, for the author while the prayer is still
 * open, the "mark as answered" and delete controls. An id that names no
 * prayer shows "Prayer not found".
 */
module PrayerDetailPage {
  import opened Wrappers
  import opened Seqs
  import opened PrayerWallTypes
  import opened MockCatalog
  import opened MockData
  import opened PrayerReactions
  import opened Toasts
  import opened PrayerUpdates
  import opened CommentItem
  import PrayerWallPage

  /** `allPrayers.find(p => p.id === id)`: the first prayer with the address's id; no id matches none. */
  function FindPrayer(ps: seq<PrayerRequest>, routeId: Option<string>): (r: Option<PrayerRequest>)
    ensures r.Some? ==> r.value in ps && routeId == Some(r.value.id)
    ensures r.None? <==> forall p :: p in ps ==> routeId != Some(p.id)
    ensures r.Some? ==> exists i :: 0 <= i < |ps| && ps[i] == r.value && forall j :: 0 <= j < i ==> routeId != Some(ps[j].id)
  {
    Find(ps, (p: PrayerRequest) => routeId == Some(p.id))
  }

  /**
   * `id ? getMockComments(id) : []`: every catalogue comment on the addressed
   * prayer, in table order; none without an id.
   */
  function DetailComments(routeId: Option<string>): (r: seq<PrayerComment>)
    ensures routeId.None? || routeId.value == "" ==> r == []
    ensures forall c :: c in r ==> routeId == Some(c.prayerId) && c in MockComments
    ensures routeId.Some? && routeId.value != "" ==>
      (forall c :: c in MockComments && c.prayerId == routeId.value ==> c in r)
    ensures routeId.Some? && routeId.value != "" ==> KeptInOrder(r, MockComments, OnPrayer(routeId.value))
  {
    if routeId.None? || routeId.value == "" then [] else GetMockComments(routeId.value)
  }

  /**
   * Before anything is posted on the feed, the detail page of a prayer shows
   * the same comments, in the same order, as that prayer's card on the feed.
   */
  lemma DetailMatchesFeedCard(prayerId: string)
    requires prayerId != ""
    ensures DetailComments(Some(prayerId)) == PrayerWallPage.CommentsFor(map[], prayerId)
  {
    PrayerWallPage.CardWithoutLocalComments(map[], prayerId);
  }

  /** The shown prayer, if any, keeps the invariants every feed keeps. */
  predicate Sound(prayer: Option<PrayerRequest>) {
    prayer.Some? ==>
      && (prayer.value.isAnonymous ==> prayer.value.userId.None?)
      && (prayer.value.isAnswered ==> prayer.value.answeredAt.Some?)
  }

  datatype DetailView = PrayerNotFound | PrayerShown(prayer: PrayerRequest)

  class Detail {
    const routeId: Option<string>
    const user: Option<AuthUser>
    var prayer: Option<PrayerRequest>
    /** The text the comment box is primed with by a reply. */
    var replyTo: string
    const comments: seq<PrayerComment>
    const reactionStore: ReactionStore
    const toasts: ToastProvider

    ghost predicate Valid()
      reads this, reactionStore, toasts
    {
      reactionStore.Valid() && toasts.Valid() && Sound(prayer)
    }

    /** The page's state as it mounts: the prayer found for the address and its comments. */
    constructor(routeId: Option<string>, user: Option<AuthUser>, found: Option<PrayerRequest>, comments: seq<PrayerComment>)
      requires Sound(found)
      ensures Valid()
      ensures this.routeId == routeId && this.user == user
      ensures prayer == found && replyTo == "" && this.comments == comments
      ensures fresh(reactionStore) && fresh(toasts) && toasts.toasts == []
    {
      var store := NewReactionStore();
      reactionStore := store;
      toasts := new ToastProvider();
      this.routeId := routeId;
      this.user := user;
      prayer := found;
      replyTo := "";
      this.comments := comments;
    }

    /** "Prayer not found" exactly when no prayer is held. */
    function View(): (v: DetailView)
      reads this
      ensures v.PrayerNotFound? <==> prayer.None?
      ensures v.PrayerShown? ==> v.prayer == prayer.value
    {
      match prayer
      case None => PrayerNotFound
      case Some(p) => PrayerShown(p)
    }

    /**
     * `user?.id === prayer.userId`: the signed-in author. A signed-out
     * visitor owns nothing, and nobody owns an anonymous prayer.
     */
    predicate IsOwner()
      reads this, reactionStore, toasts
      ensures IsOwner() ==> user.Some? && prayer.Some? && prayer.value.userId == Some(user.value.id)
      ensures Valid() && prayer.Some? && prayer.value.isAnonymous ==> !IsOwner()
    {
      user.Some? && prayer.Some? && prayer.value.userId == Some(user.value.id)
    }

    /** The mark-as-answered and delete controls: for the owner, while the prayer is open. */
    predicate ShowsOwnerControls()
      reads this, reactionStore, toasts
      ensures ShowsOwnerControls() ==> IsOwner()
      ensures prayer.Some? && prayer.value.isAnswered ==> !ShowsOwnerControls()
    {
      IsOwner() && !prayer.value.isAnswered
    }

    /** `handleTogglePraying`: with no prayer nothing happens; otherwise the reaction flips and the count follows it. */
    method TogglePraying()
      requires Valid()
      modifies this`prayer, reactionStore
      ensures Valid()
      ensures old(prayer).None? ==> prayer == old(prayer) && reactionStore.reactions == old(reactionStore.reactions)
      ensures old(prayer).Some? ==>
        && reactionStore.reactions == WithPrayingToggled(old(reactionStore.reactions), old(prayer).value.id)
        && prayer == Some(WithPrayingAdjusted(old(prayer).value, IsPraying(old(reactionStore.reactions), old(prayer).value.id)))
    {
      if prayer.None? {
        return;
      }
      var wasPraying := reactionStore.TogglePraying(prayer.value.id);
      prayer := Some(WithPrayingAdjusted(prayer.value, wasPraying));
    }

    /** `handleToggleBookmark`: with no prayer nothing happens. */
    method ToggleBookmark()
      requires Valid()
      modifies reactionStore
      ensures Valid()
      ensures prayer.None? ==> reactionStore.reactions == old(reactionStore.reactions)
      ensures prayer.Some? ==> reactionStore.reactions == WithBookmarkToggled(old(reactionStore.reactions), prayer.value.id)
    {
      if prayer.None? {
        return;
      }
      reactionStore.ToggleBookmark(prayer.value.id);
    }

    /** `handleSubmitComment`: the count goes up, the activity time moves to now, and the reply box is cleared. */
    method SubmitComment(nowIso: string)
      requires Valid()
      modifies this`prayer, this`replyTo, toasts
      ensures Valid()
      ensures old(prayer).None? ==> prayer.None?
      ensures old(prayer).Some? ==> prayer == Some(WithCommentBumped(old(prayer).value, nowIso))
      ensures replyTo == ""
      ensures toasts.toasts == Shown(old(toasts.toasts), Toast(old(toasts.nextId), CommentPostedMessage, Success))
    {
      if prayer.Some? {
        prayer := Some(WithCommentBumped(prayer.value, nowIso));
      }
      var _ := toasts.ShowToast(CommentPostedMessage, None);
      replyTo := "";
    }

    /** `handleReply`: the comment box is primed with a mention of the author. */
    method Reply(authorName: string)
      modifies this`replyTo
      ensures replyTo == ReplyPrefix(authorName)
    {
      replyTo := "@" + authorName + " ";
    }

    /** `handleMarkAnswered`: the prayer becomes answered now, with the testimony if one was written. */
    method MarkAnswered(praiseText: string, nowIso: string)
      requires Valid()
      modifies this`prayer, toasts
      ensures Valid()
      ensures old(prayer).None? ==> prayer.None?
      ensures old(prayer).Some? ==> prayer == Some(WithAnswer(old(prayer).value, praiseText, nowIso))
      ensures !ShowsOwnerControls()
      ensures toasts.toasts == Shown(old(toasts.toasts), Toast(old(toasts.nextId), AnsweredMessage, Success))
    {
      var _ := toasts.ShowToast(AnsweredMessage, None);
      if prayer.Some? {
        var answered := WithAnswer(prayer.value, praiseText, nowIso);
        assert answered.isAnswered && answered.answeredAt.Some?;
        prayer := Some(answered);
      }
    }

    /** `handleDelete`: only the notice; the prayer stays on the page. */
    method Delete()
      requires Valid()
      modifies toasts
      ensures Valid()
      ensures toasts.toasts == Shown(old(toasts.toasts), Toast(old(toasts.nextId), DeletedMessage, Success))
    {
      var _ := toasts.ShowToast(DeletedMessage, None);
    }
  }

  /** The page as it mounts for the address's id and the signed-in user, if any. */
  method Mount(routeId: Option<string>, user: Option<AuthUser>) returns (page: Detail)
    ensures fresh(page) && page.Valid()
    ensures page.prayer == FindPrayer(GetMockPrayers(), routeId)
    ensures page.comments == DetailComments(routeId) && page.user == user && page.replyTo == ""
  {
    var feed := LoadFeed();
    var found := FindPrayer(feed, routeId);
    if found.Some? {
      var i :| 0 <= i < |feed| && feed[i] == found.value;
    }
    page := new Detail(routeId, user, found, DetailComments(routeId));
  }

  /** Two presses of the praying button leave the prayer's count as it was. */
  method PrayTwice(page: Detail)
    requires page.Valid()
    modifies page`prayer, page.reactionStore
    ensures page.Valid() && page.prayer == old(page.prayer)
  {
    page.TogglePraying();
    page.TogglePraying();
    if old(page.prayer).Some? {
      PrayingAdjustUndone(old(page.prayer).value, IsPraying(old(page.reactionStore.reactions), old(page.prayer).value.id));
    }
  }
}
