/**
 * The avatar: a placeholder icon for anonymous authors, the photo when there
 * is one that loaded, and otherwise the initials on a colour picked from a
 * palette of eight by a hash of the user id.
 */
module Avatar {
  import opened Wrappers
  import opened Text
  import opened Seqs

  const AvatarColors: seq<string> := [
    "#6D28D9", "#2563EB", "#059669", "#D97706", "#DC2626", "#7C3AED", "#0891B2", "#BE185D"
  ]

  /** `split('').reduce((acc, ch) => acc + ch.charCodeAt(0), 0)`: the sum of the character codes, left to right. */
  function CharCodeSum(s: string): (n: nat)
    ensures s == [] ==> n == 0
  {
    if s == [] then 0 else CharCodeSum(s[..|s| - 1]) + (s[|s| - 1] as nat)
  }

  /** The sum of a concatenation is the sum of the parts. */
  lemma {:induction false} CharCodeSumConcat(a: string, b: string)
    ensures CharCodeSum(a + b) == CharCodeSum(a) + CharCodeSum(b)
    decreases |b|
  {
    if b != [] {
      var ab := a + b;
      assert ab[..|ab| - 1] == a + b[..|b| - 1];
      assert ab[|ab| - 1] == b[|b| - 1];
      CharCodeSumConcat(a, b[..|b| - 1]);
    } else {
      assert a + b == a;
    }
  }

  /** `getAvatarColor(key)`: the palette entry at the code sum modulo eight. */
  function AvatarColor(key: string): (c: string)
    ensures c in AvatarColors
  {
    AvatarColors[CharCodeSum(key) % |AvatarColors|]
  }

  /** The colour depends only on which characters the key holds, not their order: swapping two halves keeps it. */
  lemma ColorIgnoresOrder(a: string, b: string)
    ensures AvatarColor(a + b) == AvatarColor(b + a)
  {
    CharCodeSumConcat(a, b);
    CharCodeSumConcat(b, a);
  }

  /** `userId || firstName`: the colour key is the user id, or the first name when the id is empty. */
  function ColorKey(userId: string, firstName: string): (k: string)
    ensures k == [] ==> userId == [] && firstName == []
    ensures userId != [] ==> k == userId
    ensures userId == [] ==> k == firstName
  {
    if userId != "" then userId else firstName
  }

  /** The first letter of each name, upper-cased; an empty name contributes nothing. */
  function Initials(firstName: string, lastName: string): (r: string)
    ensures |r| == (if firstName == [] then 0 else 1) + (if lastName == [] then 0 else 1)
    ensures firstName != [] ==> r[0] == UpperChar(firstName[0])
    ensures lastName != [] ==> r[|r| - 1] == UpperChar(lastName[0])
  {
    ToUpper(Take(firstName, 1) + Take(lastName, 1))
  }

  datatype AvatarView =
    | AnonymousIcon
    | Photo(url: string)
    | InitialsBadge(initials: string, color: string)

  /**
   * What the avatar shows. `imgError` records that the photo failed to load;
   * an empty photo address counts as none.
   */
  function AvatarFor(firstName: string, lastName: string, avatarUrl: Option<string>,
                     isAnonymous: bool, userId: string, imgError: bool): (v: AvatarView)
    ensures v.AnonymousIcon? <==> isAnonymous
    ensures v.Photo? <==> !isAnonymous && avatarUrl.Some? && avatarUrl.value != "" && !imgError
    ensures v.Photo? ==> v.url == avatarUrl.value
    ensures v.InitialsBadge? ==> v.color in AvatarColors && |v.initials| <= 2
    ensures v.InitialsBadge? ==>
      v == InitialsBadge(Initials(firstName, lastName), AvatarColor(ColorKey(userId, firstName)))
  {
    if isAnonymous then AnonymousIcon
    else if avatarUrl.Some? && avatarUrl.value != "" && !imgError then Photo(avatarUrl.value)
    else InitialsBadge(Initials(firstName, lastName), AvatarColor(ColorKey(userId, firstName)))
  }

  /** Once the photo fails to load, a named author's avatar falls back to initials. */
  lemma FallsBackAfterError(firstName: string, lastName: string, avatarUrl: Option<string>, userId: string)
    ensures AvatarFor(firstName, lastName, avatarUrl, false, userId, true)
      == InitialsBadge(Initials(firstName, lastName), AvatarColor(ColorKey(userId, firstName)))
  {
  }

  /** Two initials badges for the same non-empty user id get the same colour, whatever the names. */
  lemma SameUserSameColor(userId: string, a: string, b: string, la: string, lb: string)
    requires userId != ""
    ensures AvatarFor(a, la, None, false, userId, false).color == AvatarFor(b, lb, None, false, userId, false).color
  {
  }
}
