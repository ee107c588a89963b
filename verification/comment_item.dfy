/**
 * A comment's text with its `@name` mentions picked out. The text is split
 * like `split(/(@[name chars]+)/)`: ordinary text and mentions alternate,
 * starting and ending with (possibly empty) ordinary text. A part that starts
 * with "@" links to the profile of the user of that first name, when the
 * catalogue has one, and is otherwise highlighted.
 */
module CommentItem {
  import opened Wrappers
  import opened Text
  import opened Seqs
  import opened PrayerWallTypes
  import opened MockCatalog
  import opened MockData
  import opened Routes

  /** A character a mention name may hold: a letter, a digit or "_". */
  predicate IsNameChar(c: char) {
    ('a' <= c <= 'z') || ('A' <= c <= 'Z') || IsDigit(c) || c == '_'
  }

  /** The pattern matches at `i`: an "@" followed by at least one name character. */
  predicate MentionAt(s: string, i: int) {
    0 <= i && i + 1 < |s| && s[i] == '@' && IsNameChar(s[i + 1])
  }

  /** A whole mention: "@" and one or more name characters. */
  predicate IsMention(part: string) {
    |part| >= 2 && part[0] == '@' && forall k :: 1 <= k < |part| ==> IsNameChar(part[k])
  }

  /** Text in which the pattern matches nowhere. */
  predicate MentionFree(part: string) {
    forall j :: 0 <= j < |part| ==> !MentionAt(part, j)
  }

  /** The length of the run of name characters that `s` starts with (the greedy `+`). */
  function NameRun(s: string): (n: nat)
    ensures n <= |s|
    ensures forall k :: 0 <= k < n ==> IsNameChar(s[k])
    ensures n < |s| ==> !IsNameChar(s[n])
  {
    if s != [] && IsNameChar(s[0]) then 1 + NameRun(s[1..]) else 0
  }

  /** The first position at or after `from` where the pattern matches. */
  function FirstMention(s: string, from: nat): (r: Option<nat>)
    ensures r.Some? ==> from <= r.value && MentionAt(s, r.value)
    ensures forall j :: from <= j && (r.None? || j < r.value) ==> !MentionAt(s, j)
    decreases |s| - from
  {
    if from + 1 >= |s| then None
    else if MentionAt(s, from) then Some(from)
    else FirstMention(s, from + 1)
  }

  /** All parts concatenated. */
  function Concat(parts: seq<string>): string {
    if parts == [] then [] else parts[0] + Concat(parts[1..])
  }

  lemma ConcatCons2(a: string, b: string, rest: seq<string>)
    ensures Concat([a, b] + rest) == a + b + Concat(rest)
  {
    assert ([a, b] + rest)[1..] == [b] + rest;
    assert ([b] + rest)[1..] == rest;
  }

  /**
   * Ordinary text at even positions and mentions at odd ones, an odd number
   * of parts in all, and every mention running as far as the name characters
   * do: the text part after a mention does not start with one.
   */
  predicate Alternates(parts: seq<string>) {
    && |parts| % 2 == 1
    && (forall k :: 0 <= k < |parts| && k % 2 == 1 ==> IsMention(parts[k]))
    && (forall k :: 0 <= k < |parts| && k % 2 == 0 ==> MentionFree(parts[k]))
    && (forall k :: 0 < k < |parts| && k % 2 == 0 ==> parts[k] == [] || !IsNameChar(parts[k][0]))
  }

  /** Text, then a mention, then a split whose first part does not continue the mention, alternates. */
  lemma ConsAlternates(text: string, mention: string, tail: seq<string>)
    requires MentionFree(text) && IsMention(mention) && Alternates(tail)
    requires tail[0] == [] || !IsNameChar(tail[0][0])
    ensures Alternates([text, mention] + tail)
  {
    var parts := [text, mention] + tail;
    forall k | 0 <= k < |parts| && k % 2 == 1
      ensures IsMention(parts[k])
    {
      if k > 1 {
        assert parts[k] == tail[k - 2];
      }
    }
    forall k | 0 <= k < |parts| && k % 2 == 0
      ensures MentionFree(parts[k])
    {
      if k > 0 {
        assert parts[k] == tail[k - 2];
      }
    }
    forall k | 0 < k < |parts| && k % 2 == 0
      ensures parts[k] == [] || !IsNameChar(parts[k][0])
    {
      assert parts[k] == tail[k - 2];
    }
  }

  /** The first part of a split is where the split text begins. */
  lemma ConcatStartsWithFirst(parts: seq<string>)
    requires parts != []
    ensures parts[0] <= Concat(parts)
  {
  }

  /** Where the mention starting at `i` ends: just past its run of name characters. */
  function MentionEnd(s: string, i: nat): (e: nat)
    requires MentionAt(s, i)
    ensures i + 2 <= e <= |s|
  {
    i + 1 + NameRun(s[i + 1..])
  }

  /** Before the first match the text holds no match. */
  lemma TextBeforeFirstMention(s: string, i: nat)
    requires FirstMention(s, 0) == Some(i)
    ensures MentionFree(s[..i])
  {
    var text := s[..i];
    forall j | 0 <= j < |text| && MentionAt(text, j)
      ensures false
    {
      assert MentionAt(s, j);
    }
  }

  /** A match is a whole mention, and the text after it does not continue the name. */
  lemma MentionIsMaximal(s: string, i: nat)
    requires MentionAt(s, i)
    ensures IsMention(s[i..MentionEnd(s, i)])
    ensures var rest := s[MentionEnd(s, i)..]; rest == [] || !IsNameChar(rest[0])
  {
    var e := MentionEnd(s, i);
    var name := s[i + 1..];
    var mention := s[i..e];
    forall k | 1 <= k < |mention|
      ensures IsNameChar(mention[k])
    {
      assert mention[k] == name[k - 1];
    }
    if e < |s| {
      assert s[e] == name[e - i - 1];
    }
  }

  /** Text without a match is split into itself alone. */
  lemma NoMentionSplit(s: string)
    requires FirstMention(s, 0).None?
    ensures Concat([s]) == s && Alternates([s])
  {
    assert Concat([s]) == s + Concat([]);
  }

  /** Cutting the text at its first match and splitting the rest gives a split of the whole text. */
  lemma MentionSplit(s: string, i: nat, tail: seq<string>)
    requires FirstMention(s, 0) == Some(i)
    requires Concat(tail) == s[MentionEnd(s, i)..] && Alternates(tail)
    ensures var e := MentionEnd(s, i);
      Concat([s[..i], s[i..e]] + tail) == s && Alternates([s[..i], s[i..e]] + tail)
  {
    var e := MentionEnd(s, i);
    TextBeforeFirstMention(s, i);
    MentionIsMaximal(s, i);
    ConcatStartsWithFirst(tail);
    ConsAlternates(s[..i], s[i..e], tail);
    ConcatCons2(s[..i], s[i..e], tail);
    assert s[..i] + s[i..e] + s[e..] == s;
  }

  /** `text.split(/(@[name chars]+)/)`: alternating text and mentions that join back into the text. */
  function SplitMentions(s: string): (parts: seq<string>)
    ensures Concat(parts) == s
    ensures Alternates(parts)
    decreases |s|
  {
    match FirstMention(s, 0)
    case None =>
      NoMentionSplit(s);
      [s]
    case Some(i) =>
      var e := MentionEnd(s, i);
      var tail := SplitMentions(s[e..]);
      MentionSplit(s, i, tail);
      [s[..i], s[i..e]] + tail
  }

  /** How one part is shown. */
  datatype PartView =
    | PlainText(text: string)
    | MentionLink(text: string, route: string)
    | MentionSpan(text: string)

  /**
   * A part starting with "@" takes the mention branch: a link to the profile
   * of a user with that first name (ignoring case), else a highlighted span.
   * Any other part is plain text. The part's own text is always what is shown.
   */
  function ViewPart(part: string): (v: PartView)
    ensures v.text == part
    ensures v.PlainText? <==> part == [] || part[0] != '@'
    ensures v.MentionLink? ==> exists u :: u in MockUsers && ToLower(u.firstName) == ToLower(part[1..]) && v.route == ProfileRoute(u.id)
    ensures v.MentionSpan? ==> forall u :: u in MockUsers ==> ToLower(u.firstName) != ToLower(part[1..])
  {
    if part != [] && part[0] == '@' then
      match GetMockUserByName(part[1..])
      case Some(u) => MentionLink(part, ProfileRoute(u.id))
      case None => MentionSpan(part)
    else
      PlainText(part)
  }

  /** `parseContent`: the comment's parts, each with how it is shown. */
  function ParseContent(text: string): (views: seq<PartView>)
    ensures |views| == |SplitMentions(text)|
  {
    Map(SplitMentions(text), ViewPart)
  }

  function Texts(views: seq<PartView>): (r: seq<string>)
    ensures |r| == |views|
    ensures forall k :: 0 <= k < |views| ==> r[k] == views[k].text
  {
    Map(views, (v: PartView) => v.text)
  }

  /** Rendering loses nothing: the shown parts read back as the comment's text. */
  lemma ParseContentShowsWholeText(text: string)
    ensures Concat(Texts(ParseContent(text))) == text
  {
    var parts := SplitMentions(text);
    assert Texts(ParseContent(text)) == parts;
  }

  /** Every mention in a comment takes the mention branch; ordinary text only does when it starts with "@". */
  lemma MentionsAreHighlighted(text: string, k: nat)
    requires k < |SplitMentions(text)| && k % 2 == 1
    ensures !ParseContent(text)[k].PlainText?
  {
  }

  /** Ordinary text can itself start with "@", as in "@ home" or "@@Sarah"; it is then highlighted like a mention. */
  lemma LoneAtTakesMentionBranch()
    ensures SplitMentions("@ home") == ["@ home"]
    ensures ViewPart("@ home").MentionSpan?
  {
    assert !MentionAt("@ home", 0);
    assert FirstMention("@ home", 0) == None;
    assert ViewPart("@ home").MentionSpan? by {
      NameNotFoundWhenNotAName(" home");
    }
  }

  /** No catalogue user's first name starts with a space, so a text like "@ home" never resolves. */
  lemma NameNotFoundWhenNotAName(name: string)
    requires name != [] && name[0] == ' '
    ensures GetMockUserByName(name).None?
  {
    forall u | u in MockUsers
      ensures ToLower(u.firstName) != ToLower(name)
    {
      FirstNamesStartWithLetter(u);
      assert ToLower(name)[0] == ' ';
    }
  }

  lemma FirstNamesStartWithLetter(u: PrayerWallUser)
    requires u in MockUsers
    ensures u.firstName != [] && 'A' <= u.firstName[0] <= 'Z'
  {
  }

  /** "@" + name + " ", the text a reply starts with. */
  function ReplyPrefix(authorName: string): (r: string)
    ensures |r| == |authorName| + 2 && r[0] == '@' && r[|r| - 1] == ' '
  {
    "@" + authorName + " "
  }

  /** A run of name characters followed by something else is read up to its end. */
  lemma {:induction false} NameRunOfName(name: string, rest: string)
    requires forall k :: 0 <= k < |name| ==> IsNameChar(name[k])
    requires rest == [] || !IsNameChar(rest[0])
    ensures NameRun(name + rest) == |name|
    decreases |name|
  {
    if name == [] {
      assert name + rest == rest;
    } else {
      assert (name + rest)[1..] == name[1..] + rest;
      NameRunOfName(name[1..], rest);
    }
  }

  /** Text without an "@" holds no match. */
  lemma NoAtNoMention(rest: string)
    requires forall k :: 0 <= k < |rest| ==> rest[k] != '@'
    ensures FirstMention(rest, 0) == None
  {
  }

  /** A text that opens with a mention and has no other "@" splits into nothing, that mention, and the rest. */
  lemma LeadingMention(name: string, rest: string)
    requires name != [] && forall k :: 0 <= k < |name| ==> IsNameChar(name[k])
    requires forall k :: 0 <= k < |rest| ==> rest[k] != '@'
    requires rest == [] || !IsNameChar(rest[0])
    ensures SplitMentions("@" + name + rest) == ["", "@" + name, rest]
  {
    var s := "@" + name + rest;
    ConcatParts("@", name, rest);
    assert FirstMention(s, 0) == Some(0) by {
      assert s[0] == '@' && s[1] == name[0];
    }
    assert MentionEnd(s, 0) == |name| + 1 by {
      NameRunOfName(name, rest);
    }
    MentionFreeSplit(rest);
    SplitAtFirstMention(s, 0);
    assert s[..0] == "";
  }

  /** The split cuts the text at its first match. */
  lemma SplitAtFirstMention(s: string, i: nat)
    requires FirstMention(s, 0) == Some(i)
    ensures SplitMentions(s) == [s[..i], s[i..MentionEnd(s, i)]] + SplitMentions(s[MentionEnd(s, i)..])
  {
  }

  /** Text with no "@" at all is a single part. */
  lemma MentionFreeSplit(rest: string)
    requires forall k :: 0 <= k < |rest| ==> rest[k] != '@'
    ensures SplitMentions(rest) == [rest]
  {
    NoAtNoMention(rest);
  }

  /** A reply to an author whose name is all name characters starts with exactly one mention of them. */
  lemma ReplyPrefixIsOneMention(authorName: string)
    requires authorName != [] && forall k :: 0 <= k < |authorName| ==> IsNameChar(authorName[k])
    ensures SplitMentions(ReplyPrefix(authorName)) == ["", "@" + authorName, " "]
  {
    LeadingMention(authorName, " ");
  }

  /** A mention of a catalogue user's first name links to that user's profile. */
  lemma KnownMentionLinks(name: string, u: PrayerWallUser)
    requires GetMockUserByName(name) == Some(u)
    ensures ViewPart("@" + name) == MentionLink("@" + name, ProfileRoute(u.id))
  {
    assert ("@" + name)[1..] == name;
  }

  /**
   * A comment opening with a mention of a catalogue user (say "@Sarah", who
   * is user-1) shows that mention as a link to their profile and the rest as
   * plain text.
   */
  lemma LeadingMentionLinks(name: string, rest: string, u: PrayerWallUser)
    requires name != [] && forall k :: 0 <= k < |name| ==> IsNameChar(name[k])
    requires forall k :: 0 <= k < |rest| ==> rest[k] != '@'
    requires rest == [] || !IsNameChar(rest[0])
    requires GetMockUserByName(name) == Some(u)
    ensures ParseContent("@" + name + rest) ==
      [PlainText(""), MentionLink("@" + name, ProfileRoute(u.id)), PlainText(rest)]
  {
    var mention := "@" + name;
    LeadingMention(name, rest);
    MapOfThree("", mention, rest, ViewPart);
    KnownMentionLinks(name, u);
    assert ViewPart(rest) == PlainText(rest) by {
      assert rest == [] || rest[0] != '@';
    }
  }
}
