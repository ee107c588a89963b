/**
 * The changes the Prayer Wall pages make to their prayers and comments, all
 * kept in page state: a new prayer or comment, the praying count moving by
 * one, the comment count going up, a prayer marked answered or deleted, and
 * the lists the dashboard and profile tabs show.
 */
module PrayerUpdates {
  import opened Wrappers
  import opened Text
  import opened Seqs
  import opened PrayerWallTypes
  import opened PrayerReactions
  import opened MockCatalog
  import opened MockData

  /** The toasts that confirm the updates, the same on every page. */
  const CommentPostedMessage: string := "Comment posted."
  const AnsweredMessage: string := "Prayer marked as answered."
  const DeletedMessage: string := "Prayer deleted."

  /** The prayer the composer adds: `prayer-new-<now>`, credited to "Anonymous", the user's first name, or "You". */
  function NewPrayer(nowMillis: nat, nowIso: string, content: string, isAnonymous: bool, user: Option<AuthUser>): (p: PrayerRequest)
    ensures p.isAnonymous == isAnonymous && p.content == content
    ensures isAnonymous ==> p.userId.None? && p.authorName == "Anonymous"
    ensures !isAnonymous && user.Some? ==> p.userId == Some(user.value.id) && p.authorName == user.value.firstName
    ensures !isAnonymous && user.None? ==> p.userId.None? && p.authorName == "You"
    ensures !p.isAnswered && p.answeredText.None? && p.answeredAt.None? && p.authorAvatarUrl.None?
    ensures p.prayingCount == 0 && p.commentCount == 0 && p.createdAt == nowIso && p.lastActivityAt == nowIso
  {
    PrayerRequest(
      id := "prayer-new-" + NatToString(nowMillis),
      userId := if isAnonymous then None else (if user.Some? then Some(user.value.id) else None),
      authorName := if isAnonymous then "Anonymous" else (if user.Some? then user.value.firstName else "You"),
      authorAvatarUrl := None,
      isAnonymous := isAnonymous,
      content := content,
      isAnswered := false,
      answeredText := None,
      answeredAt := None,
      createdAt := nowIso,
      lastActivityAt := nowIso,
      prayingCount := 0,
      commentCount := 0)
  }

  /** The comment a signed-in visitor posts: `comment-local-<now>`, by the user or, failing that, "anonymous"/"You". */
  function NewComment(nowMillis: nat, nowIso: string, prayerId: string, content: string, user: Option<AuthUser>): (c: PrayerComment)
    ensures c.prayerId == prayerId && c.content == content && c.createdAt == nowIso && c.authorAvatarUrl.None?
    ensures user.Some? ==> c.userId == user.value.id && c.authorName == user.value.firstName
    ensures user.None? ==> c.userId == "anonymous" && c.authorName == "You"
  {
    PrayerComment(
      id := "comment-local-" + NatToString(nowMillis),
      prayerId := prayerId,
      userId := if user.Some? then user.value.id else "anonymous",
      authorName := if user.Some? then user.value.firstName else "You",
      authorAvatarUrl := None,
      content := content,
      createdAt := nowIso)
  }

  /** `prayers.map(p => p.id === id ? f(p) : p)`. */
  function UpdateById(ps: seq<PrayerRequest>, id: string, f: PrayerRequest -> PrayerRequest): (r: seq<PrayerRequest>)
    ensures |r| == |ps|
    ensures forall i :: 0 <= i < |ps| ==> r[i] == if ps[i].id == id then f(ps[i]) else ps[i]
  {
    Map(ps, (p: PrayerRequest) => if p.id == id then f(p) else p)
  }

  /** Updating with `f` and then with an inverse of `f` gives the list back. */
  lemma UpdateUndone(ps: seq<PrayerRequest>, id: string, f: PrayerRequest -> PrayerRequest, g: PrayerRequest -> PrayerRequest)
    requires forall p :: f(p).id == p.id && g(f(p)) == p
    ensures UpdateById(UpdateById(ps, id, f), id, g) == ps
  {
    var once := UpdateById(ps, id, f);
    var twice := UpdateById(once, id, g);
    forall i | 0 <= i < |ps|
      ensures twice[i] == ps[i]
    {
      if ps[i].id == id {
        assert once[i] == f(ps[i]);
      }
    }
  }

  /** `prayingCount + (wasPraying ? -1 : 1)`. */
  function WithPrayingAdjusted(p: PrayerRequest, wasPraying: bool): (q: PrayerRequest)
    ensures q.prayingCount == p.prayingCount + (if wasPraying then -1 else 1)
    ensures q.(prayingCount := p.prayingCount) == p
  {
    p.(prayingCount := p.prayingCount + (if wasPraying then -1 else 1))
  }

  /** A second toggle, which sees the flag the first one set, puts the count back. */
  lemma PrayingAdjustUndone(p: PrayerRequest, wasPraying: bool)
    ensures WithPrayingAdjusted(WithPrayingAdjusted(p, wasPraying), !wasPraying) == p
  {
  }

  function AdjustPraying(wasPraying: bool): PrayerRequest -> PrayerRequest {
    (p: PrayerRequest) => WithPrayingAdjusted(p, wasPraying)
  }

  /** Two praying toggles on the same prayer leave the whole list as it was. */
  lemma PrayingListUndone(ps: seq<PrayerRequest>, id: string, wasPraying: bool)
    ensures UpdateById(UpdateById(ps, id, AdjustPraying(wasPraying)), id, AdjustPraying(!wasPraying)) == ps
  {
    UpdateUndone(ps, id, AdjustPraying(wasPraying), AdjustPraying(!wasPraying));
  }

  /** A new comment: one more in the count, and the prayer's last activity is now. */
  function WithCommentBumped(p: PrayerRequest, nowIso: string): (q: PrayerRequest)
    ensures q.commentCount == p.commentCount + 1 && q.lastActivityAt == nowIso
    ensures q.(commentCount := p.commentCount, lastActivityAt := p.lastActivityAt) == p
  {
    p.(commentCount := p.commentCount + 1, lastActivityAt := nowIso)
  }

  function BumpComments(nowIso: string): PrayerRequest -> PrayerRequest {
    (p: PrayerRequest) => WithCommentBumped(p, nowIso)
  }

  /** `praiseText || null`: an empty testimony is recorded as none. */
  function AnsweredText(praiseText: string): (t: Option<string>)
    ensures t.None? <==> praiseText == ""
    ensures t.Some? ==> t.value == praiseText
  {
    if praiseText == "" then None else Some(praiseText)
  }

  /** Marking a prayer answered, with the testimony (if any) and the time. */
  function WithAnswer(p: PrayerRequest, praiseText: string, nowIso: string): (q: PrayerRequest)
    ensures q.isAnswered && q.answeredText == AnsweredText(praiseText) && q.answeredAt == Some(nowIso)
    ensures q.(isAnswered := p.isAnswered, answeredText := p.answeredText, answeredAt := p.answeredAt) == p
  {
    p.(isAnswered := true, answeredText := AnsweredText(praiseText), answeredAt := Some(nowIso))
  }

  function MarkAnswered(praiseText: string, nowIso: string): PrayerRequest -> PrayerRequest {
    (p: PrayerRequest) => WithAnswer(p, praiseText, nowIso)
  }

  /** Every answered prayer records when it was answered. */
  predicate AnswersDated(ps: seq<PrayerRequest>) {
    forall i :: 0 <= i < |ps| && ps[i].isAnswered ==> ps[i].answeredAt.Some?
  }

  /** The updates keep every answered prayer dated; marking answered makes the target answered. */
  lemma UpdatesKeepAnswersDated(ps: seq<PrayerRequest>, id: string, praiseText: string, nowIso: string, wasPraying: bool)
    requires AnswersDated(ps)
    ensures AnswersDated(UpdateById(ps, id, MarkAnswered(praiseText, nowIso)))
    ensures AnswersDated(UpdateById(ps, id, BumpComments(nowIso)))
    ensures AnswersDated(UpdateById(ps, id, AdjustPraying(wasPraying)))
    ensures forall p :: p in UpdateById(ps, id, MarkAnswered(praiseText, nowIso)) && p.id == id ==> p.isAnswered
  {
    var r := UpdateById(ps, id, MarkAnswered(praiseText, nowIso));
    forall p | p in r && p.id == id
      ensures p.isAnswered
    {
      var i :| 0 <= i < |r| && r[i] == p;
    }
  }

  /** Marking answered twice in the same way is marking once. */
  lemma MarkAnsweredIdempotent(ps: seq<PrayerRequest>, id: string, praiseText: string, nowIso: string)
    ensures UpdateById(UpdateById(ps, id, MarkAnswered(praiseText, nowIso)), id, MarkAnswered(praiseText, nowIso))
      == UpdateById(ps, id, MarkAnswered(praiseText, nowIso))
  {
  }

  /** The test `p.id !== id` that deletion filters by. */
  function OtherId(id: string): PrayerRequest -> bool {
    (p: PrayerRequest) => p.id != id
  }

  /** `prayers.filter(p => p.id !== id)`: every prayer with another id, in feed order. */
  function RemovePrayer(ps: seq<PrayerRequest>, id: string): (r: seq<PrayerRequest>)
    ensures forall p :: p in r <==> p in ps && p.id != id
    ensures KeptInOrder(r, ps, OtherId(id))
  {
    Filter(ps, OtherId(id))
  }

  /** Deleting the one prayer with an id removes just it: the prayers before and after stay, in order. */
  lemma RemoveOnlyThatPrayer(before: seq<PrayerRequest>, q: PrayerRequest, after: seq<PrayerRequest>)
    requires forall p :: p in before ==> p.id != q.id
    requires forall p :: p in after ==> p.id != q.id
    ensures RemovePrayer(before + [q] + after, q.id) == before + after
  {
    var keep := OtherId(q.id);
    assert Filter(before + [q], keep) == before by {
      FilterConcat(before, [q], keep);
      FilterAll(before, keep);
      FilterNone([q], keep);
    }
    assert Filter(after, keep) == after by {
      FilterAll(after, keep);
    }
    FilterConcat(before + [q], after, keep);
  }

  /** Deleting twice is deleting once, and deleting an id not on the list changes nothing. */
  lemma RemoveIdempotent(ps: seq<PrayerRequest>, id: string)
    ensures RemovePrayer(RemovePrayer(ps, id), id) == RemovePrayer(ps, id)
    ensures (forall p :: p in ps ==> p.id != id) ==> RemovePrayer(ps, id) == ps
  {
    FilterIdempotent(ps, OtherId(id));
    if forall p :: p in ps ==> p.id != id {
      FilterAll(ps, OtherId(id));
    }
  }

  /** The test `p.userId === userId`. */
  function ByAuthor(userId: string): PrayerRequest -> bool {
    (p: PrayerRequest) => p.userId == Some(userId)
  }

  /** The test `p.userId === userId && !p.isAnonymous`. */
  function ByNamedAuthor(userId: string): PrayerRequest -> bool {
    (p: PrayerRequest) => p.userId == Some(userId) && !p.isAnonymous
  }

  /** The test `c.userId === userId`. */
  function ByCommenter(userId: string): PrayerComment -> bool {
    (c: PrayerComment) => c.userId == userId
  }

  /** The test `ids.includes(p.id)`. */
  function IdIn(ids: set<string>): PrayerRequest -> bool {
    (p: PrayerRequest) => p.id in ids
  }

  /** The dashboard's "My Prayers": `p.userId === user.id`, in feed order. */
  function PrayersBy(ps: seq<PrayerRequest>, userId: string): (r: seq<PrayerRequest>)
    ensures forall p :: p in r <==> p in ps && p.userId == Some(userId)
    ensures KeptInOrder(r, ps, ByAuthor(userId))
  {
    Filter(ps, ByAuthor(userId))
  }

  /** A profile's "Prayers": `p.userId === id && !p.isAnonymous`, in feed order. */
  function ProfilePrayers(ps: seq<PrayerRequest>, userId: string): (r: seq<PrayerRequest>)
    ensures forall p :: p in r <==> p in ps && p.userId == Some(userId) && !p.isAnonymous
    ensures KeptInOrder(r, ps, ByNamedAuthor(userId))
  {
    Filter(ps, ByNamedAuthor(userId))
  }

  /** A prayer shared anonymously is not on its author's own list. */
  lemma AnonymousPrayerNotListed(nowMillis: nat, nowIso: string, content: string, user: Option<AuthUser>, ps: seq<PrayerRequest>, userId: string)
    ensures NewPrayer(nowMillis, nowIso, content, true, user) !in PrayersBy([NewPrayer(nowMillis, nowIso, content, true, user)] + ps, userId)
  {
  }

  /** `comments.filter(c => c.userId === id)`, in table order. */
  function CommentsBy(cs: seq<PrayerComment>, userId: string): (r: seq<PrayerComment>)
    ensures forall c :: c in r <==> c in cs && c.userId == userId
    ensures KeptInOrder(r, cs, ByCommenter(userId))
  {
    Filter(cs, ByCommenter(userId))
  }

  /** The ids whose entry has the bookmark flag: `Object.entries(reactions).filter(([, r]) => r.isBookmarked)`. */
  function BookmarkedIds(m: Reactions): (ids: set<string>)
    ensures forall id :: id in ids <==> IsBookmarked(m, id)
  {
    set id | id in m && m[id].isBookmarked
  }

  /** The ids whose entry has the praying flag. */
  function PrayingIds(m: Reactions): (ids: set<string>)
    ensures forall id :: id in ids <==> IsPraying(m, id)
  {
    set id | id in m && m[id].isPraying
  }

  /** The "Bookmarks" tab: the prayers whose id is bookmarked, in feed order. */
  function BookmarkedPrayers(ps: seq<PrayerRequest>, m: Reactions): (r: seq<PrayerRequest>)
    ensures forall p :: p in r <==> p in ps && IsBookmarked(m, p.id)
    ensures KeptInOrder(r, ps, IdIn(BookmarkedIds(m)))
  {
    Filter(ps, IdIn(BookmarkedIds(m)))
  }

  /** The "Reactions" tab: the prayers the user is praying for, in feed order. */
  function PrayedForPrayers(ps: seq<PrayerRequest>, m: Reactions): (r: seq<PrayerRequest>)
    ensures forall p :: p in r <==> p in ps && IsPraying(m, p.id)
    ensures KeptInOrder(r, ps, IdIn(PrayingIds(m)))
  {
    Filter(ps, IdIn(PrayingIds(m)))
  }

  /** Bookmarking a listed prayer puts it on the Bookmarks tab, and bookmarking again takes it off. */
  lemma BookmarkToggleMovesPrayer(ps: seq<PrayerRequest>, m: Reactions, p: PrayerRequest)
    requires p in ps
    ensures p in BookmarkedPrayers(ps, WithBookmarkToggled(m, p.id)) <==> p !in BookmarkedPrayers(ps, m)
  {
  }

  /** Anonymous prayers carry no author id, so no author list can reveal them. */
  predicate AnonymousUnattributed(ps: seq<PrayerRequest>) {
    forall i :: 0 <= i < |ps| && ps[i].isAnonymous ==> ps[i].userId.None?
  }

  /** Prepending what the composer builds, and every update by id, keep anonymous prayers unattributed. */
  lemma FeedChangesKeepAnonymity(ps: seq<PrayerRequest>, nowMillis: nat, nowIso: string, content: string, isAnonymous: bool, user: Option<AuthUser>,
                                 id: string, praiseText: string, wasPraying: bool)
    requires AnonymousUnattributed(ps)
    ensures AnonymousUnattributed([NewPrayer(nowMillis, nowIso, content, isAnonymous, user)] + ps)
    ensures AnonymousUnattributed(UpdateById(ps, id, AdjustPraying(wasPraying)))
    ensures AnonymousUnattributed(UpdateById(ps, id, BumpComments(nowIso)))
    ensures AnonymousUnattributed(UpdateById(ps, id, MarkAnswered(praiseText, nowIso)))
    ensures AnonymousUnattributed(RemovePrayer(ps, id))
  {
    var r := RemovePrayer(ps, id);
    forall i | 0 <= i < |r| && r[i].isAnonymous
      ensures r[i].userId.None?
    {
      assert r[i] in ps;
      var j :| 0 <= j < |ps| && ps[j] == r[i];
    }
  }

  /** On such a list, an author's profile shows the same prayers as their dashboard. */
  lemma ProfileMatchesDashboard(ps: seq<PrayerRequest>, userId: string)
    requires AnonymousUnattributed(ps)
    ensures ProfilePrayers(ps, userId) == PrayersBy(ps, userId)
  {
    forall p | p in ps
      ensures (p.userId == Some(userId) && !p.isAnonymous) == (p.userId == Some(userId))
    {
      var i :| 0 <= i < |ps| && ps[i] == p;
    }
    FilterSameOn(ps, ByNamedAuthor(userId), ByAuthor(userId));
  }

  /** The catalogue every page starts from keeps anonymous prayers unattributed. */
  lemma CatalogueAnonymity()
    ensures AnonymousUnattributed(GetMockPrayers())
  {
    AnonymousPrayersHaveNoUser();
  }

  /** `getMockPrayers()` as a page reads it, with the invariants every page keeps. */
  method LoadFeed() returns (all: seq<PrayerRequest>)
    ensures all == GetMockPrayers()
    ensures AnonymousUnattributed(all) && AnswersDated(all)
  {
    all := GetMockPrayers();
    CatalogueAnonymity();
  }
}
