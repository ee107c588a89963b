/**
 * `usePrayerReactions`: the signed-in user's per-prayer reactions, a map from
 * prayer id to its "praying" and "bookmarked" flags, with one toggle for each
 * flag. A prayer with no entry counts as neither praying nor bookmarked.
 */
module PrayerReactions {
  import opened PrayerWallTypes
  import opened MockData

  type Reactions = map<string, PrayerReaction>

  /** `prev[prayerId]?.isPraying ?? false`. */
  predicate IsPraying(m: Reactions, prayerId: string) {
    prayerId in m && m[prayerId].isPraying
  }

  /** `prev[prayerId]?.isBookmarked ?? false`. */
  predicate IsBookmarked(m: Reactions, prayerId: string) {
    prayerId in m && m[prayerId].isBookmarked
  }

  /** Every entry records the prayer id it is filed under. */
  predicate WellKeyed(m: Reactions) {
    forall id :: id in m ==> m[id].prayerId == id
  }

  /** The map after `togglePraying(prayerId)`: the praying flag flips, nothing else changes. */
  function WithPrayingToggled(m: Reactions, prayerId: string): (r: Reactions)
    ensures prayerId in r && r[prayerId].prayerId == prayerId
    ensures IsPraying(r, prayerId) <==> !IsPraying(m, prayerId)
    ensures IsBookmarked(r, prayerId) <==> IsBookmarked(m, prayerId)
    ensures forall id :: id != prayerId ==> (id in r <==> id in m)
    ensures forall id :: id != prayerId && id in m ==> r[id] == m[id]
  {
    m[prayerId := PrayerReaction(prayerId, !IsPraying(m, prayerId), IsBookmarked(m, prayerId))]
  }

  /** The map after `toggleBookmark(prayerId)`: the bookmark flag flips, nothing else changes. */
  function WithBookmarkToggled(m: Reactions, prayerId: string): (r: Reactions)
    ensures prayerId in r && r[prayerId].prayerId == prayerId
    ensures IsBookmarked(r, prayerId) <==> !IsBookmarked(m, prayerId)
    ensures IsPraying(r, prayerId) <==> IsPraying(m, prayerId)
    ensures forall id :: id != prayerId ==> (id in r <==> id in m)
    ensures forall id :: id != prayerId && id in m ==> r[id] == m[id]
  {
    m[prayerId := PrayerReaction(prayerId, IsPraying(m, prayerId), !IsBookmarked(m, prayerId))]
  }

  /** Both toggles keep every entry filed under its own prayer id. */
  lemma TogglesKeepWellKeyed(m: Reactions, prayerId: string)
    requires WellKeyed(m)
    ensures WellKeyed(WithPrayingToggled(m, prayerId))
    ensures WellKeyed(WithBookmarkToggled(m, prayerId))
  {
  }

  /** Toggling praying twice restores an existing entry exactly. */
  lemma PrayingToggleTwice(m: Reactions, prayerId: string)
    requires WellKeyed(m) && prayerId in m
    ensures WithPrayingToggled(WithPrayingToggled(m, prayerId), prayerId) == m
  {
    var r := WithPrayingToggled(WithPrayingToggled(m, prayerId), prayerId);
    assert r[prayerId] == m[prayerId];
  }

  /** Toggling the bookmark twice restores an existing entry exactly. */
  lemma BookmarkToggleTwice(m: Reactions, prayerId: string)
    requires WellKeyed(m) && prayerId in m
    ensures WithBookmarkToggled(WithBookmarkToggled(m, prayerId), prayerId) == m
  {
    var r := WithBookmarkToggled(WithBookmarkToggled(m, prayerId), prayerId);
    assert r[prayerId] == m[prayerId];
  }

  /** On a prayer with no entry, two toggles leave an entry with both flags off. */
  lemma ToggleTwiceOnMissingEntry(m: Reactions, prayerId: string)
    requires prayerId !in m
    ensures WithPrayingToggled(WithPrayingToggled(m, prayerId), prayerId) == m[prayerId := PrayerReaction(prayerId, false, false)]
    ensures WithBookmarkToggled(WithBookmarkToggled(m, prayerId), prayerId) == m[prayerId := PrayerReaction(prayerId, false, false)]
  {
  }

  /** The two toggles are independent: their order does not matter. */
  lemma TogglesCommute(m: Reactions, a: string, b: string)
    ensures WithPrayingToggled(WithBookmarkToggled(m, a), b) == WithBookmarkToggled(WithPrayingToggled(m, b), a)
  {
    var x := WithPrayingToggled(WithBookmarkToggled(m, a), b);
    var y := WithBookmarkToggled(WithPrayingToggled(m, b), a);
    assert x.Keys == y.Keys;
    forall id | id in x.Keys
      ensures x[id] == y[id]
    {
    }
  }

  /** The catalogue reactions the hook starts from are filed under their own ids. */
  lemma InitialReactionsWellKeyed()
    ensures WellKeyed(GetMockReactions())
  {
  }

  class ReactionStore {
    var reactions: Reactions

    ghost predicate Valid()
      reads this
    {
      WellKeyed(reactions)
    }

    /** The hook's initial state: the signed-in mock user's reactions. */
    constructor()
      ensures Valid() && reactions == GetMockReactions()
    {
      reactions := GetMockReactions();
    }

    /** `togglePraying(prayerId)`: flip the praying flag and report whether it was on before. */
    method TogglePraying(prayerId: string) returns (wasPraying: bool)
      requires Valid()
      modifies this
      ensures Valid()
      ensures wasPraying <==> IsPraying(old(reactions), prayerId)
      ensures reactions == WithPrayingToggled(old(reactions), prayerId)
    {
      wasPraying := false;
      var isBookmarked := false;
      if prayerId in reactions {
        wasPraying := reactions[prayerId].isPraying;
        isBookmarked := reactions[prayerId].isBookmarked;
      }
      reactions := reactions[prayerId := PrayerReaction(prayerId, !wasPraying, isBookmarked)];
    }

    /** `toggleBookmark(prayerId)`: flip the bookmark flag. */
    method ToggleBookmark(prayerId: string)
      requires Valid()
      modifies this
      ensures Valid()
      ensures reactions == WithBookmarkToggled(old(reactions), prayerId)
    {
      var isPraying := false;
      var isBookmarked := false;
      if prayerId in reactions {
        isPraying := reactions[prayerId].isPraying;
        isBookmarked := reactions[prayerId].isBookmarked;
      }
      reactions := reactions[prayerId := PrayerReaction(prayerId, isPraying, !isBookmarked)];
    }
  }

  /** `usePrayerReactions()` as a page mounts: a new store holding the catalogue's reactions. */
  method NewReactionStore() returns (store: ReactionStore)
    ensures fresh(store) && store.Valid()
  {
    store := new ReactionStore();
  }
}
