/**
 * The Prayer Wall's records. Every `string | null` field is an `Option<string>`;
 * timestamps are ISO 8601 strings in one fixed format, so their string order
 * is their time order.
 */
module PrayerWallTypes {
  import opened Wrappers

  datatype PrayerWallUser = PrayerWallUser(
    id: string,
    firstName: string,
    lastName: string,
    /** `None`: the avatar shows initials. */
    avatarUrl: Option<string>,
    bio: string,
    joinedDate: string)

  datatype PrayerRequest = PrayerRequest(
    id: string,
    /** `None`: posted anonymously. */
    userId: Option<string>,
    authorName: string,
    authorAvatarUrl: Option<string>,
    isAnonymous: bool,
    content: string,
    isAnswered: bool,
    answeredText: Option<string>,
    answeredAt: Option<string>,
    createdAt: string,
    /** Bumped by new comments; the feed is ordered by it. */
    lastActivityAt: string,
    prayingCount: int,
    commentCount: int)

  datatype PrayerComment = PrayerComment(
    id: string,
    prayerId: string,
    userId: string,
    authorName: string,
    authorAvatarUrl: Option<string>,
    /** May contain mentions such as "@Sarah". */
    content: string,
    createdAt: string)

  /** The signed-in user's reaction to one prayer. */
  datatype PrayerReaction = PrayerReaction(prayerId: string, isPraying: bool, isBookmarked: bool)

  /** The signed-in account as the authentication context reports it. */
  datatype AuthUser = AuthUser(id: string, firstName: string, lastName: string, email: string)

  /**
   * `a <= b` on strings: after a common prefix of length `k`, either `a`
   * ends or its next character is the smaller. This is JavaScript's
   * code-unit-by-code-unit comparison only on text inside the Basic
   * Multilingual Plane, such as the ASCII timestamps it is used for.
   */
  predicate StringLessEq(a: string, b: string) {
    exists k :: 0 <= k <= |a| && k <= |b| && a[..k] == b[..k] && (k == |a| || (k < |b| && a[k] < b[k]))
  }

  /** Each prayer's last activity is no earlier than the next one's: newest first. */
  predicate NewestFirst(prayers: seq<PrayerRequest>) {
    forall i :: 0 < i < |prayers| ==> StringLessEq(prayers[i].lastActivityAt, prayers[i - 1].lastActivityAt)
  }
}

/** The page addresses the Prayer Wall links to. */
module Routes {
  const ProfileRoutePrefix: string := "/prayer-wall/user/"

  /** `/prayer-wall/user/<userId>`: a user's profile page. */
  function ProfileRoute(userId: string): (r: string)
    ensures |r| == |ProfileRoutePrefix| + |userId|
    ensures r[..|ProfileRoutePrefix|] == ProfileRoutePrefix
  {
    ProfileRoutePrefix + userId
  }

  /** The user id a profile address names, if it is one. */
  function UserIdOfRoute(route: string): (u: string)
    requires |route| >= |ProfileRoutePrefix|
  {
    route[|ProfileRoutePrefix|..]
  }

  /** The id can be read back from a profile address, so distinct users get distinct pages. */
  lemma ProfileRouteRoundTrip(userId: string)
    ensures UserIdOfRoute(ProfileRoute(userId)) == userId
  {
    var r := ProfileRoute(userId);
    assert r[|ProfileRoutePrefix|..] == userId;
  }
}
