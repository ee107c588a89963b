/**
 * `timeAgo`: the relative age of a timestamp ("just now", "3 hours ago").
 *
 * The clock and the date parser are inputs: `nowMs` is the current time and
 * `thenMs` the parsed timestamp in milliseconds since the epoch, `None` when
 * the date string does not parse (JavaScript's `NaN`).
 */
module RelativeTime {
  import opened Wrappers
  import opened Text

  const Minute: nat := 60
  const Hour: nat := 60 * Minute
  const Day: nat := 24 * Hour
  const Week: nat := 7 * Day
  /** A month is taken to be 30 days. */
  const Month: nat := 30 * Day
  /** A year is taken to be 365 days. */
  const Year: nat := 365 * Day

  datatype Unit = Minutes | Hours | Days | Weeks | Months | Years

  /** The length of one unit, in seconds. */
  function UnitSeconds(u: Unit): (n: nat)
    ensures n >= Minute
  {
    match u
    case Minutes => Minute
    case Hours => Hour
    case Days => Day
    case Weeks => Week
    case Months => Month
    case Years => Year
  }

  /** The age at which the next unit takes over; years have no upper bound. */
  function UnitLimit(u: Unit): Option<nat> {
    match u
    case Minutes => Some(Hour)
    case Hours => Some(Day)
    case Days => Some(Week)
    case Weeks => Some(Month)
    case Months => Some(Year)
    case Years => None
  }

  /** `seconds` falls in the bucket of unit `u`: at least one unit and below the next threshold. */
  predicate InBucket(seconds: int, u: Unit) {
    UnitSeconds(u) <= seconds && (UnitLimit(u).Some? ==> seconds < UnitLimit(u).value)
  }

  /** A relative age as `timeAgo` classifies it, before it is rendered as text. */
  datatype Relative = JustNow | Ago(count: nat, unit: Unit)

  /** Whole seconds elapsed, rounded down (`Math.floor` of the millisecond difference over 1000). */
  function ElapsedSeconds(nowMs: int, thenMs: int): (s: int)
    ensures s * 1000 <= nowMs - thenMs < s * 1000 + 1000
  {
    (nowMs - thenMs) / 1000
  }

  /**
   * The bucket of an age in seconds: negative ages and ages under a minute
   * are "just now"; otherwise the count of whole units of the one bucket the
   * age falls in, which is never 0.
   */
  function Classify(seconds: int): (r: Relative)
    ensures r.JustNow? <==> seconds < Minute
    ensures r.Ago? ==> InBucket(seconds, r.unit)
    ensures r.Ago? ==> r.count >= 1 && r.count * UnitSeconds(r.unit) <= seconds < (r.count + 1) * UnitSeconds(r.unit)
  {
    if seconds < 0 then JustNow
    else if seconds < Minute then JustNow
    else if seconds < Hour then Ago(seconds / Minute, Minutes)
    else if seconds < Day then Ago(seconds / Hour, Hours)
    else if seconds < Week then Ago(seconds / Day, Days)
    else if seconds < Month then Ago(seconds / Week, Weeks)
    else if seconds < Year then Ago(seconds / Month, Months)
    else Ago(seconds / Year, Years)
  }

  /** The buckets do not overlap, so the unit `Classify` picks is the only one that fits. */
  lemma BucketUnique(seconds: int, u: Unit)
    requires InBucket(seconds, u)
    ensures Classify(seconds) == Ago(seconds / UnitSeconds(u), u)
  {
  }

  /** The count stays within what one unit below the next threshold allows. */
  lemma CountRange(seconds: int)
    ensures Classify(seconds).Ago? ==> match Classify(seconds).unit
      case Minutes => Classify(seconds).count <= 59
      case Hours => Classify(seconds).count <= 23
      case Days => Classify(seconds).count <= 6
      case Weeks => Classify(seconds).count <= 4
      case Months => Classify(seconds).count <= 12
      case Years => true
  {
  }

  /** The unit's name, singular exactly when the count is 1. */
  function UnitWord(u: Unit, count: nat): (w: string)
    ensures |w| >= 3 && (w[|w| - 1] == 's' <==> count != 1)
  {
    var singular := match u
      case Minutes => "minute"
      case Hours => "hour"
      case Days => "day"
      case Weeks => "week"
      case Months => "month"
      case Years => "year";
    if count == 1 then singular else singular + "s"
  }

  /** The text of a classification: "just now", or the count, the unit word and "ago". */
  function Render(r: Relative): (t: string)
    ensures t == "just now" <==> r.JustNow?
    ensures r.Ago? ==> |t| > 4 && IsDigit(t[0]) && t[|t| - 4..] == " ago"
  {
    match r
    case JustNow => "just now"
    case Ago(count, unit) => NatToString(count) + " " + UnitWord(unit, count) + " ago"
  }

  /** `timeAgo(isoDate)` at time `nowMs`, the date already parsed to `thenMs`. */
  function TimeAgo(nowMs: int, thenMs: Option<int>): (s: string)
    ensures thenMs.None? ==> s == "just now"
    ensures thenMs.Some? && nowMs - thenMs.value < 60000 ==> s == "just now"
    ensures thenMs.Some? ==> ParseRelative(s) == Some(Classify(ElapsedSeconds(nowMs, thenMs.value)))
  {
    match thenMs
    case None => "just now"
    case Some(t) =>
      var r := Classify(ElapsedSeconds(nowMs, t));
      RenderParses(r);
      Render(r)
  }

  // ----- reading the text back -----

  /** The number of leading decimal digits of `s`. */
  function DigitPrefix(s: string): (n: nat)
    ensures n <= |s|
    ensures forall i :: 0 <= i < n ==> IsDigit(s[i])
    ensures n < |s| ==> !IsDigit(s[n])
  {
    if s != [] && IsDigit(s[0]) then 1 + DigitPrefix(s[1..]) else 0
  }

  /**
   * The unit whose name `rest` spells between the count and " ago", in the
   * number the count calls for: singular for 1, plural for any other count.
   */
  function UnitOfWord(rest: string, count: nat): Option<Unit> {
    if count == 1 then
      if rest == " minute ago" then Some(Minutes)
      else if rest == " hour ago" then Some(Hours)
      else if rest == " day ago" then Some(Days)
      else if rest == " week ago" then Some(Weeks)
      else if rest == " month ago" then Some(Months)
      else if rest == " year ago" then Some(Years)
      else None
    else
      if rest == " minutes ago" then Some(Minutes)
      else if rest == " hours ago" then Some(Hours)
      else if rest == " days ago" then Some(Days)
      else if rest == " weeks ago" then Some(Weeks)
      else if rest == " months ago" then Some(Months)
      else if rest == " years ago" then Some(Years)
      else None
  }

  /**
   * Recover the classification from the rendered text, if it is one: "just
   * now", or a count written without leading zeros followed by the unit in
   * the number the count calls for.
   */
  function ParseRelative(s: string): Option<Relative> {
    if s == "just now" then Some(JustNow)
    else
      var n := DigitPrefix(s);
      if n == 0 || (s[0] == '0' && n > 1) then None
      else
        var count := ParseDecimal(s[..n]);
        match UnitOfWord(s[n..], count)
        case None => None
        case Some(u) => Some(Ago(count, u))
  }

  lemma {:induction false} DigitPrefixOfDigits(d: string, t: string)
    requires forall i :: 0 <= i < |d| ==> IsDigit(d[i])
    requires t != [] && !IsDigit(t[0])
    ensures DigitPrefix(d + t) == |d|
    decreases |d|
  {
    if d != [] {
      assert (d + t)[1..] == d[1..] + t;
      DigitPrefixOfDigits(d[1..], t);
    } else {
      assert d + t == t;
    }
  }

  /** The words after the count name the unit back, in either number. */
  lemma UnitOfWordRoundTrip(u: Unit, count: nat)
    ensures UnitOfWord(" " + UnitWord(u, count) + " ago", count) == Some(u)
  {
    if count == 1 {
      SingularUnitRoundTrip(u);
    } else {
      PluralUnitRoundTrip(u, count);
    }
  }

  /** " minute ago", " hour ago" and so on name their unit. */
  lemma SingularUnitRoundTrip(u: Unit)
    ensures UnitOfWord(" " + UnitWord(u, 1) + " ago", 1) == Some(u)
  {
    match u
    case Minutes => assert " " + UnitWord(u, 1) + " ago" == " minute ago";
    case Hours => assert " " + UnitWord(u, 1) + " ago" == " hour ago";
    case Days => assert " " + UnitWord(u, 1) + " ago" == " day ago";
    case Weeks => assert " " + UnitWord(u, 1) + " ago" == " week ago";
    case Months => assert " " + UnitWord(u, 1) + " ago" == " month ago";
    case Years => assert " " + UnitWord(u, 1) + " ago" == " year ago";
  }

  /** " minutes ago", " hours ago" and so on name their unit. */
  lemma PluralUnitRoundTrip(u: Unit, count: nat)
    requires count != 1
    ensures UnitOfWord(" " + UnitWord(u, count) + " ago", count) == Some(u)
  {
    match u
    case Minutes => assert " " + UnitWord(u, count) + " ago" == " minutes ago";
    case Hours => assert " " + UnitWord(u, count) + " ago" == " hours ago";
    case Days => assert " " + UnitWord(u, count) + " ago" == " days ago";
    case Weeks => assert " " + UnitWord(u, count) + " ago" == " weeks ago";
    case Months => assert " " + UnitWord(u, count) + " ago" == " months ago";
    case Years => assert " " + UnitWord(u, count) + " ago" == " years ago";
  }

  /** The rendered text determines the classification: no two ages read the same. */
  lemma RenderParses(r: Relative)
    ensures ParseRelative(Render(r)) == Some(r)
  {
    if r.Ago? {
      var digits := NatToString(r.count);
      var rest := " " + UnitWord(r.unit, r.count) + " ago";
      var text := digits + rest;
      assert Render(r) == text;
      assert text[0] == digits[0] && IsDigit(text[0]);
      assert text != "just now" by {
        assert "just now"[0] == 'j';
      }
      DigitPrefixOfDigits(digits, rest);
      assert text[|digits|..] == rest;
      assert text[..|digits|] == digits;
      NatToStringCanonical(r.count);
      ParseNatToString(r.count);
      UnitOfWordRoundTrip(r.unit, r.count);
    }
  }

  /** The unit words the parser accepts are exactly the ones `UnitWord` writes for that count. */
  lemma UnitOfWordOnlyUnitWord(rest: string, count: nat, u: Unit)
    requires UnitOfWord(rest, count) == Some(u)
    ensures rest == " " + UnitWord(u, count) + " ago"
  {
    if count == 1 {
      OnlySingularWord(rest, u);
    } else {
      OnlyPluralWord(rest, count, u);
    }
  }

  /** For a count of 1 the parser accepts only the singular words. */
  lemma OnlySingularWord(rest: string, u: Unit)
    requires UnitOfWord(rest, 1) == Some(u)
    ensures rest == " " + UnitWord(u, 1) + " ago"
  {
    var w := UnitWord(u, 1);
    if rest == " minute ago" {
      assert w == "minute";
    } else if rest == " hour ago" {
      assert w == "hour";
    } else if rest == " day ago" {
      assert w == "day";
    } else if rest == " week ago" {
      assert w == "week";
    } else if rest == " month ago" {
      assert w == "month";
    } else {
      assert w == "year";
    }
  }

  /** For any other count the parser accepts only the plural words. */
  lemma OnlyPluralWord(rest: string, count: nat, u: Unit)
    requires count != 1
    requires UnitOfWord(rest, count) == Some(u)
    ensures rest == " " + UnitWord(u, count) + " ago"
  {
    var w := UnitWord(u, count);
    if rest == " minutes ago" {
      assert w == "minutes";
    } else if rest == " hours ago" {
      assert w == "hours";
    } else if rest == " days ago" {
      assert w == "days";
    } else if rest == " weeks ago" {
      assert w == "weeks";
    } else if rest == " months ago" {
      assert w == "months";
    } else {
      assert w == "years";
    }
  }

  /**
   * The parser accepts nothing but rendered text: whatever reads back as a
   * classification is that classification's rendering, character for character.
   */
  lemma ParseOnlyRender(s: string, r: Relative)
    requires ParseRelative(s) == Some(r)
    ensures s == Render(r)
  {
    if s != "just now" {
      var n := DigitPrefix(s);
      var digits := s[..n];
      assert IsCanonicalDecimal(digits);
      CanonicalIsNatToString(digits);
      UnitOfWordOnlyUnitWord(s[n..], r.count, r.unit);
      assert s == digits + s[n..];
    }
  }

  /**
   * `TimeAgo`'s contract fixes its text: any string that reads back as the
   * same classification is the very string `TimeAgo` returns.
   */
  lemma TimeAgoUnique(nowMs: int, thenMs: int, other: string)
    requires ParseRelative(other) == Some(Classify(ElapsedSeconds(nowMs, thenMs)))
    ensures other == TimeAgo(nowMs, Some(thenMs))
  {
    var r := Classify(ElapsedSeconds(nowMs, thenMs));
    ParseOnlyRender(other, r);
    ParseOnlyRender(TimeAgo(nowMs, Some(thenMs)), r);
  }

  /** A unit word in the other number than the count's is refused. */
  lemma WrongNumberRejected(u: Unit, count: nat, other: nat)
    requires (count == 1) != (other == 1)
    ensures ParseRelative(NatToString(count) + " " + UnitWord(u, other) + " ago") == None
  {
    var digits := NatToString(count);
    var rest := " " + UnitWord(u, other) + " ago";
    var text := digits + rest;
    assert NatToString(count) + " " + UnitWord(u, other) + " ago" == text;
    assert text[0] == digits[0];
    assert text != "just now" by {
      assert "just now"[0] == 'j';
    }
    DigitPrefixOfDigits(digits, rest);
    assert text[|digits|..] == rest;
    assert text[..|digits|] == digits;
    ParseNatToString(count);
    WrongNumberWord(u, count, other);
  }

  /** The unit word in the other number than the count's names no unit. */
  lemma WrongNumberWord(u: Unit, count: nat, other: nat)
    requires (count == 1) != (other == 1)
    ensures UnitOfWord(" " + UnitWord(u, other) + " ago", count) == None
  {
    if other == 1 {
      SingularWordForPlural(u, count);
    } else {
      PluralWordForSingular(u, other);
    }
  }

  /** " minute ago", " hour ago" and so on are refused after a count other than 1. */
  lemma SingularWordForPlural(u: Unit, count: nat)
    requires count != 1
    ensures UnitOfWord(" " + UnitWord(u, 1) + " ago", count) == None
  {
    var rest := " " + UnitWord(u, 1) + " ago";
    match u
    case Minutes => assert rest == " minute ago";
    case Hours => assert rest == " hour ago";
    case Days => assert rest == " day ago";
    case Weeks => assert rest == " week ago";
    case Months => assert rest == " month ago";
    case Years => assert rest == " year ago";
  }

  /** " minutes ago", " hours ago" and so on are refused after the count 1. */
  lemma PluralWordForSingular(u: Unit, other: nat)
    requires other != 1
    ensures UnitOfWord(" " + UnitWord(u, other) + " ago", 1) == None
  {
    var rest := " " + UnitWord(u, other) + " ago";
    match u
    case Minutes => assert rest == " minutes ago";
    case Hours => assert rest == " hours ago";
    case Days => assert rest == " days ago";
    case Weeks => assert rest == " weeks ago";
    case Months => assert rest == " months ago";
    case Years => assert rest == " years ago";
  }

  /** A count padded with leading zeros is refused, whatever follows it. */
  lemma LeadingZeroRejected(digits: string, rest: string)
    requires |digits| > 1 && digits[0] == '0'
    requires forall i :: 0 <= i < |digits| ==> IsDigit(digits[i])
    requires rest != [] && !IsDigit(rest[0])
    ensures ParseRelative(digits + rest) == None
  {
    var text := digits + rest;
    assert text[0] == '0';
    assert text != "just now" by {
      assert "just now"[0] == 'j';
    }
    DigitPrefixOfDigits(digits, rest);
  }

  /** The unit word ends in "s" exactly when the count is not 1. */
  lemma UnitWordNumber(u: Unit, count: nat)
    ensures var w := UnitWord(u, count); |w| >= 1 && (w[|w| - 1] == 's' <==> count != 1)
  {
  }

  /** Two ages render alike exactly when they are classified alike. */
  lemma RenderInjective(r1: Relative, r2: Relative)
    ensures Render(r1) == Render(r2) <==> r1 == r2
  {
    RenderParses(r1);
    RenderParses(r2);
  }

  // ----- expected outputs -----

  lemma ExampleFifteenMinutes(now: int)
    ensures TimeAgo(now, Some(now - 900 * 1000)) == "15 minutes ago"
  {
    var stamp := now - 900 * 1000;
    assert ElapsedSeconds(now, stamp) == 900;
    assert Classify(900) == Ago(15, Minutes);
    assert Render(Ago(15, Minutes)) == "15 minutes ago" by {
      assert NatToString(15) == NatToString(1) + [DigitChar(5)] == "15";
    }
  }

  lemma ExampleOneMinute(now: int)
    ensures TimeAgo(now, Some(now - 60 * 1000)) == "1 minute ago"
  {
    var stamp := now - 60 * 1000;
    assert ElapsedSeconds(now, stamp) == 60;
    assert Classify(60) == Ago(1, Minutes);
    assert Render(Ago(1, Minutes)) == "1 minute ago";
  }

  lemma ExampleUnderAMinute(now: int)
    ensures TimeAgo(now, Some(now - 30 * 1000)) == "just now"
  {
    var stamp := now - 30 * 1000;
    assert ElapsedSeconds(now, stamp) == 30;
    assert Classify(30) == JustNow;
    assert Render(JustNow) == "just now";
  }

  lemma ExampleThreeHours(now: int)
    ensures TimeAgo(now, Some(now - 10800 * 1000)) == "3 hours ago"
  {
    var stamp := now - 10800 * 1000;
    assert ElapsedSeconds(now, stamp) == 10800;
    assert Classify(10800) == Ago(3, Hours);
    assert Render(Ago(3, Hours)) == "3 hours ago";
  }

  lemma ExampleOneHour(now: int)
    ensures TimeAgo(now, Some(now - 3600 * 1000)) == "1 hour ago"
  {
    var stamp := now - 3600 * 1000;
    assert ElapsedSeconds(now, stamp) == 3600;
    assert Classify(3600) == Ago(1, Hours);
    assert Render(Ago(1, Hours)) == "1 hour ago";
  }

  lemma ExampleThreeDays(now: int)
    ensures TimeAgo(now, Some(now - 259200 * 1000)) == "3 days ago"
  {
    var stamp := now - 259200 * 1000;
    assert ElapsedSeconds(now, stamp) == 259200;
    assert Classify(259200) == Ago(3, Days);
    assert Render(Ago(3, Days)) == "3 days ago";
  }

  lemma ExampleTwoWeeks(now: int)
    ensures TimeAgo(now, Some(now - 1209600 * 1000)) == "2 weeks ago"
  {
    var stamp := now - 1209600 * 1000;
    assert ElapsedSeconds(now, stamp) == 1209600;
    assert Classify(1209600) == Ago(2, Weeks);
    assert Render(Ago(2, Weeks)) == "2 weeks ago";
  }

  lemma ExampleTwoMonths(now: int)
    ensures TimeAgo(now, Some(now - 5356800 * 1000)) == "2 months ago"
  {
    var stamp := now - 5356800 * 1000;
    assert ElapsedSeconds(now, stamp) == 5356800;
    assert Classify(5356800) == Ago(2, Months);
    assert Render(Ago(2, Months)) == "2 months ago";
  }

  lemma ExampleTwoYears(now: int)
    ensures TimeAgo(now, Some(now - 63158400 * 1000)) == "2 years ago"
  {
    var stamp := now - 63158400 * 1000;
    assert ElapsedSeconds(now, stamp) == 63158400;
    assert Classify(63158400) == Ago(2, Years);
    assert Render(Ago(2, Years)) == "2 years ago";
  }

  /** A timestamp in the future reads "just now". */
  lemma FutureIsJustNow(now: int, stamp: int)
    requires stamp > now
    ensures TimeAgo(now, Some(stamp)) == "just now"
  {
  }
}
