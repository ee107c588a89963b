/**
 * The share menu of a prayer card: the text it shares, and the arrow-key
 * movement between its items.
 */
module ShareDropdown {
  import opened Wrappers
  import opened Seqs
  import opened RovingFocus

  const SharePrefix: string := "Please pray with me \U{2014} "
  const ShareSuffix: string := " \U{2014} Worship Room Prayer Wall"
  /** How much of the prayer is quoted before it is cut off. */
  const QuoteLength: nat := 100

  /** The quoted part: the prayer itself, or its first 100 characters and "...". */
  function Quote(content: string): (q: string)
    ensures |content| <= QuoteLength ==> q == content
    ensures |content| > QuoteLength ==> q == content[..QuoteLength] + "..."
  {
    Take(content, QuoteLength) + (if |content| > QuoteLength then "..." else "")
  }

  /** `getShareText(content)`: the quote between a fixed lead-in and sign-off. */
  function GetShareText(content: string): (r: string)
    ensures |SharePrefix| + |ShareSuffix| <= |r| <= |SharePrefix| + QuoteLength + 3 + |ShareSuffix|
    ensures r[..|SharePrefix|] == SharePrefix && r[|r| - |ShareSuffix|..] == ShareSuffix
    ensures r[|SharePrefix|..|r| - |ShareSuffix|] == Quote(content)
  {
    var r := SharePrefix + Quote(content) + ShareSuffix;
    assert r[..|SharePrefix|] == SharePrefix;
    assert r[|r| - |ShareSuffix|..] == ShareSuffix;
    assert r[|SharePrefix|..|r| - |ShareSuffix|] == Quote(content);
    r
  }

  /** The quote read back out of a share text. */
  function QuotedPart(shareText: string): (q: string)
    requires |shareText| >= |SharePrefix| + |ShareSuffix|
  {
    shareText[|SharePrefix|..|shareText| - |ShareSuffix|]
  }

  /** A prayer of at most 100 characters is shared verbatim, without an ellipsis. */
  lemma ShortContentVerbatim(content: string)
    requires |content| <= QuoteLength
    ensures QuotedPart(GetShareText(content)) == content
    ensures GetShareText(content) == SharePrefix + content + ShareSuffix
  {
  }

  /** A longer prayer is cut to its first 100 characters, followed by "...". */
  lemma LongContentCut(content: string)
    requires |content| > QuoteLength
    ensures QuotedPart(GetShareText(content)) == content[..QuoteLength] + "..."
    ensures |GetShareText(content)| == |SharePrefix| + QuoteLength + 3 + |ShareSuffix|
  {
  }

  /** Two prayers of at most 100 characters share the same text only if they are equal. */
  lemma ShortContentInjective(a: string, b: string)
    requires |a| <= QuoteLength && |b| <= QuoteLength
    requires GetShareText(a) == GetShareText(b)
    ensures a == b
  {
    ShortContentVerbatim(a);
    ShortContentVerbatim(b);
  }

  /** Where a key moves the focus from item `i` of `n`, if anywhere. */
  function MenuTarget(key: Key, i: nat, n: nat): (t: Option<nat>)
    requires i < n
    ensures t.Some? ==> t.value < n
    ensures t.Some? <==> key in {ArrowDown, ArrowUp, Home, End}
  {
    match key
    case ArrowDown => Some(StepForward(i, n))
    case ArrowUp => Some(StepBack(i, n))
    case Home => Some(0)
    case End => Some(n - 1)
    case _ => None
  }

  /**
   * `handleKeyDown`: `currentIndex` is the focused element's position among
   * the menu items, -1 when focus is elsewhere. Returns the item to focus.
   */
  method HandleKeyDown(key: Key, currentIndex: int, itemCount: nat) returns (next: Option<nat>)
    requires currentIndex == -1 || 0 <= currentIndex < itemCount
    ensures currentIndex == -1 ==> next.None?
    ensures currentIndex >= 0 ==> next == MenuTarget(key, currentIndex, itemCount)
  {
    if currentIndex == -1 {
      return None;
    }
    var nextIndex: Option<nat> := None;
    if key == ArrowDown {
      nextIndex := Some((currentIndex + 1) % itemCount);
    } else if key == ArrowUp {
      nextIndex := Some((currentIndex - 1 + itemCount) % itemCount);
    } else if key == Home {
      nextIndex := Some(0);
    } else if key == End {
      nextIndex := Some(itemCount - 1);
    }
    next := nextIndex;
  }

  /** Down then up returns to the same item, and so does up then down. */
  lemma DownUpRoundTrip(i: nat, n: nat)
    requires i < n
    ensures MenuTarget(ArrowUp, MenuTarget(ArrowDown, i, n).value, n) == Some(i)
    ensures MenuTarget(ArrowDown, MenuTarget(ArrowUp, i, n).value, n) == Some(i)
  {
    BackUndoesForward(i, n);
    ForwardUndoesBack(i, n);
  }

  /** Down from the last item wraps to the first; up from the first wraps to the last. */
  lemma MenuWraps(n: nat)
    requires n > 0
    ensures MenuTarget(ArrowDown, n - 1, n) == Some(0)
    ensures MenuTarget(ArrowUp, 0, n) == Some(n - 1)
  {
  }
}
