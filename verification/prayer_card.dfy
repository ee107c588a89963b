/**
 * The prayer card: a long prayer is cut to its first 150 characters until it
 * is expanded, and the author's name links to their profile unless the
 * prayer is anonymous.
 */
module PrayerCard {
  import opened Wrappers
  import opened PrayerWallTypes
  import opened Routes

  const TruncateLength: nat := 150
  const Ellipsis: string := "..."

  /** `needsTruncation`: a collapsible card holding more than 150 characters. */
  predicate NeedsTruncation(content: string, showFull: bool): (b: bool)
    ensures b ==> !showFull && |content| > TruncateLength && content[..TruncateLength] < content
    ensures !showFull && |content| > TruncateLength ==> b
  {
    !showFull && |content| > TruncateLength
  }

  /** `displayText`: the whole prayer when shown in full or expanded, else the first 150 characters and "...". */
  function DisplayText(content: string, showFull: bool, isExpanded: bool): (d: string)
    ensures showFull || isExpanded || !NeedsTruncation(content, showFull) ==> d == content
    ensures !isExpanded && NeedsTruncation(content, showFull) ==> d == content[..TruncateLength] + Ellipsis
  {
    if showFull || isExpanded then content
    else if NeedsTruncation(content, showFull) then content[..TruncateLength] + Ellipsis
    else content
  }

  /** The "Show more" / "Show less" button exists only on a card that needs truncating. */
  predicate HasExpandToggle(content: string, showFull: bool): (b: bool)
    ensures b ==> |DisplayText(content, showFull, false)| == TruncateLength + |Ellipsis|
    ensures b ==> DisplayText(content, showFull, true) == content
    ensures !b ==> DisplayText(content, showFull, false) == content
  {
    NeedsTruncation(content, showFull)
  }

  /** The toggle's label names what pressing it does. */
  function ExpandToggleLabel(isExpanded: bool): (caption: string)
    ensures caption == "Show less" <==> isExpanded
    ensures caption == "Show more" <==> !isExpanded
  {
    if isExpanded then "Show less" else "Show more"
  }

  /** The displayed text always starts with the prayer's first 150 characters (or all of a shorter one). */
  lemma DisplayKeepsOpening(content: string, showFull: bool, isExpanded: bool)
    ensures var n := if |content| < TruncateLength then |content| else TruncateLength;
      content[..n] <= DisplayText(content, showFull, isExpanded)
  {
  }

  /** A collapsed long prayer shows exactly 153 characters; expanding it shows all of it. */
  lemma ToggleSwitchesBetweenCutAndWhole(content: string)
    requires HasExpandToggle(content, false)
    ensures |DisplayText(content, false, false)| == TruncateLength + |Ellipsis|
    ensures DisplayText(content, false, true) == content
    ensures ExpandToggleLabel(false) == "Show more" && ExpandToggleLabel(true) == "Show less"
  {
  }

  /** Prayers of at most 150 characters, and every prayer on a full page, are never cut. */
  lemma ShortOrFullNeverCut(content: string, showFull: bool, isExpanded: bool)
    requires |content| <= TruncateLength || showFull
    ensures DisplayText(content, showFull, isExpanded) == content
    ensures !HasExpandToggle(content, showFull)
  {
  }

  /** `authorLink`: the author's profile, unless the prayer is anonymous or has no author id. */
  function AuthorLink(p: PrayerRequest): (link: Option<string>)
    ensures link.Some? <==> !p.isAnonymous && p.userId.Some? && p.userId.value != ""
    ensures link.Some? ==> |link.value| >= |ProfileRoutePrefix| && UserIdOfRoute(link.value) == p.userId.value
  {
    if !p.isAnonymous && p.userId.Some? && p.userId.value != "" then
      ProfileRouteRoundTrip(p.userId.value);
      Some(ProfileRoute(p.userId.value))
    else
      None
  }

  /** An anonymous prayer never links to anyone, whatever author id it carries. */
  lemma AnonymousHasNoLink(p: PrayerRequest)
    requires p.isAnonymous
    ensures AuthorLink(p).None?
  {
  }
}
