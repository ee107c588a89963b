/**
 * The comments under a prayer card: the first five comments, a "See more"
 * link to the prayer's own page when the prayer has more than five, and a
 * comment box that a reply pre-fills with a mention of the author replied to.
 */
module CommentsSection {
  import opened Text
  import opened Seqs
  import opened PrayerWallTypes
  import opened CommentItem

  const MaxVisibleComments: nat := 5

  /** `comments.slice(0, 5)`: the first five comments, in order. */
  function VisibleComments(comments: seq<PrayerComment>): (r: seq<PrayerComment>)
    ensures |r| == Min(|comments|, MaxVisibleComments)
    ensures forall i :: 0 <= i < |r| ==> r[i] == comments[i]
  {
    Take(comments, MaxVisibleComments)
  }

  /** Five or fewer comments are all shown. */
  lemma FewCommentsAllVisible(comments: seq<PrayerComment>)
    requires |comments| <= MaxVisibleComments
    ensures VisibleComments(comments) == comments
  {
  }

  /**
   * The "See more" link is shown when the prayer's comment count, which
   * need not be the length of the list passed in, is above five.
   */
  predicate ShowsSeeMore(totalCount: int): (b: bool)
    ensures forall cs: seq<PrayerComment> :: |cs| == totalCount ==> (b <==> |VisibleComments(cs)| < |cs|)
  {
    totalCount > MaxVisibleComments
  }

  const SeeMoreOpening: string := "See more comments (showing 5 of "

  /** The link's text: "See more comments (showing 5 of <totalCount>)". */
  function SeeMoreText(totalCount: nat): (r: string)
    ensures |r| > |SeeMoreOpening| + 1 && r[..|SeeMoreOpening|] == SeeMoreOpening && r[|r| - 1] == ')'
    ensures var digits := r[|SeeMoreOpening|..|r| - 1];
      (forall i :: 0 <= i < |digits| ==> IsDigit(digits[i])) && ParseDecimal(digits) == totalCount
  {
    var r := SeeMoreOpening + NatToString(totalCount) + ")";
    assert r[|SeeMoreOpening|..|r| - 1] == NatToString(totalCount);
    ParseNatToString(totalCount);
    r
  }

  class CommentsSection {
    /** `replyTo`: the text the comment box is pre-filled with. */
    var replyTo: string

    constructor()
      ensures replyTo == ""
    {
      replyTo := "";
    }

    /** `handleReply(authorName)`: pre-fill the comment box with "@" + the author's name + " ". */
    method HandleReply(authorName: string)
      modifies this
      ensures replyTo == ReplyPrefix(authorName)
    {
      replyTo := "@" + authorName + " ";
    }
  }
}
