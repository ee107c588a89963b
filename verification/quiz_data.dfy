/**
 * The starting-point quiz: five questions of four options each, every option
 * awarding points to some of seven feature keys, and `calculateResult`, which
 * adds up the points of the chosen options and recommends the destination of
 * the best-scoring feature, `pray` winning every tie.
 */
module QuizData {
  import opened Wrappers

  datatype FeatureKey = Pray | Journal | Meditate | Music | SleepRest | PrayerWall | LocalSupport

  /** One answer option; `points` is sparse, an absent key scores 0. */
  datatype QuizOption = QuizOption(text: string, points: map<FeatureKey, int>)

  datatype QuizQuestion = QuizQuestion(question: string, options: seq<QuizOption>)

  datatype QuizDestination = QuizDestination(
    key: FeatureKey,
    name: string,
    route: string,
    ctaLabel: string,
    description: string,
    verse: string,
    verseReference: string)

  /** The canonical key order; `Pray` is first, so it wins ties. */
  const FeatureKeys: seq<FeatureKey> :=
    [Pray, Journal, Meditate, Music, SleepRest, PrayerWall, LocalSupport]

  const QuizQuestions: seq<QuizQuestion> := [
    QuizQuestion("What brought you here today?", [
      QuizOption("Going through a hard time", map[Pray := 2, LocalSupport := 1]),
      QuizOption("Want to grow my faith", map[Meditate := 2, Journal := 1]),
      QuizOption("Feeling anxious or stressed", map[Music := 2, Meditate := 1]),
      QuizOption("All of the above", map[Pray := 1, Journal := 1, Meditate := 1, Music := 1])
    ]),
    QuizQuestion("How are you feeling right now?", [
      QuizOption("I need comfort", map[Pray := 2, Music := 1]),
      QuizOption("I feel stuck in my faith", map[Meditate := 2, Journal := 1]),
      QuizOption("I'm okay but want more", map[Journal := 2, PrayerWall := 1]),
      QuizOption("I'm doing well", map[PrayerWall := 2, Music := 1])
    ]),
    QuizQuestion("What sounds most helpful?", [
      QuizOption("Prayer and scripture", map[Pray := 3]),
      QuizOption("Writing out my thoughts", map[Journal := 3]),
      QuizOption("Quiet reflection", map[Meditate := 3]),
      QuizOption("Worship music", map[Music := 3])
    ]),
    QuizQuestion("When do you most need support?", [
      QuizOption("Mornings", map[Pray := 1, Journal := 1]),
      QuizOption("During stressful moments", map[Pray := 1, Music := 1]),
      QuizOption("At night / bedtime", map[SleepRest := 2, Music := 1]),
      QuizOption("Throughout the day", map[Journal := 1, PrayerWall := 1])
    ]),
    QuizQuestion("What's your experience with faith practices?", [
      QuizOption("I practice regularly", map[PrayerWall := 2, Journal := 1]),
      QuizOption("I try but not consistent", map[Meditate := 1, Music := 1]),
      QuizOption("I used to but stopped", map[Pray := 1, Meditate := 1]),
      QuizOption("I'm brand new", map[Pray := 2, LocalSupport := 1])
    ])
  ]

  const QuizDestinations: seq<QuizDestination> := [
    QuizDestination(Pray, "Prayer", "/scripture", "Prayer",
      "It sounds like you could use a moment with God. Share what's on your heart and receive a personalized scripture and prayer.",
      "Cast all your anxiety on him because he cares for you.",
      "1 Peter 5:7"),
    QuizDestination(Journal, "Journaling", "/journal", "Journaling",
      "Writing is a powerful way to process your thoughts. Let guided prompts help you reflect on what God is doing in your life.",
      "Search me, God, and know my heart; test me and know my anxious thoughts.",
      "Psalm 139:23"),
    QuizDestination(Meditate, "Meditation", "/meditate", "Meditation",
      "A quiet moment of reflection can bring clarity and peace. Explore scripture-based meditations at your own pace.",
      "Be still, and know that I am God.",
      "Psalm 46:10"),
    QuizDestination(Music, "Worship Music", "/music", "Worship Music",
      "Sometimes worship music speaks when words can't. Let curated playlists meet you where you are.",
      "Sing to the Lord a new song, for he has done marvelous things.",
      "Psalm 98:1"),
    QuizDestination(SleepRest, "Sleep & Rest", "/music/sleep", "Sleep & Rest",
      "Nighttime can be the hardest. Let calming scripture and gentle sounds help you find rest.",
      "In peace I will lie down and sleep, for you alone, Lord, make me dwell in safety.",
      "Psalm 4:8"),
    QuizDestination(PrayerWall, "Prayer Wall", "/prayer-wall", "Prayer Wall",
      "You're not alone in this. See what others are praying for and find encouragement in community.",
      "Carry each other\U{2019}s burdens, and in this way you will fulfill the law of Christ.",
      "Galatians 6:2"),
    QuizDestination(LocalSupport, "Local Support", "/churches", "Local Support",
      "Sometimes the next step is a real conversation. Find churches and Christian counselors near you.",
      "Where two or three gather in my name, there am I with them.",
      "Matthew 18:20")
  ]

  /** The position of `k` in the canonical order. */
  function KeyIndex(k: FeatureKey): (j: nat)
    ensures j < |FeatureKeys| && FeatureKeys[j] == k
    ensures forall i :: 0 <= i < |FeatureKeys| && FeatureKeys[i] == k ==> i == j
  {
    match k
    case Pray => 0
    case Journal => 1
    case Meditate => 2
    case Music => 3
    case SleepRest => 4
    case PrayerWall => 5
    case LocalSupport => 6
  }

  // ----- the score, as a specification -----

  /** `answers[i]`, where a position past the end reads as unanswered (`undefined`). */
  function AnswerAt(answers: seq<Option<int>>, i: nat): Option<int> {
    if i < |answers| then answers[i] else None
  }

  /** The option chosen for question `i`, if the answer is present and indexes an option. */
  function ChosenOption(answers: seq<Option<int>>, i: nat): Option<QuizOption>
    requires i < |QuizQuestions|
  {
    match AnswerAt(answers, i)
    case None => None
    case Some(a) =>
      if 0 <= a < |QuizQuestions[i].options| then Some(QuizQuestions[i].options[a]) else None
  }

  function PointsFor(o: QuizOption, k: FeatureKey): int {
    if k in o.points then o.points[k] else 0
  }

  /** What question `i` adds to feature `k`: the chosen option's points, or 0. */
  function QuestionPoints(answers: seq<Option<int>>, i: nat, k: FeatureKey): int
    requires i < |QuizQuestions|
  {
    match ChosenOption(answers, i)
    case None => 0
    case Some(o) => PointsFor(o, k)
  }

  /** The points feature `k` collects from the first `n` questions. */
  function ScoreUpTo(answers: seq<Option<int>>, k: FeatureKey, n: nat): int
    requires n <= |QuizQuestions|
  {
    if n == 0 then 0 else ScoreUpTo(answers, k, n - 1) + QuestionPoints(answers, n - 1, k)
  }

  function Score(answers: seq<Option<int>>, k: FeatureKey): int {
    ScoreUpTo(answers, k, |QuizQuestions|)
  }

  /**
   * The winner: its score is at least every feature's score, and every
   * feature before it in the canonical order scores strictly less.
   */
  ghost predicate IsWinner(answers: seq<Option<int>>, k: FeatureKey) {
    && (forall k' :: Score(answers, k') <= Score(answers, k))
    && (forall j :: 0 <= j < KeyIndex(k) ==> Score(answers, FeatureKeys[j]) < Score(answers, k))
  }

  /** The scan over the keys from position `j`, replacing the winner only on a strictly greater score. */
  function ScanFrom(answers: seq<Option<int>>, j: nat, winner: FeatureKey): FeatureKey
    requires j <= |FeatureKeys|
    decreases |FeatureKeys| - j
  {
    if j == |FeatureKeys| then winner
    else if Score(answers, FeatureKeys[j]) > Score(answers, winner) then ScanFrom(answers, j + 1, FeatureKeys[j])
    else ScanFrom(answers, j + 1, winner)
  }

  function Winner(answers: seq<Option<int>>): FeatureKey {
    ScanFrom(answers, 0, FeatureKeys[0])
  }

  /** The destination listed for feature `k`. */
  function DestinationFor(k: FeatureKey): (d: QuizDestination)
    ensures d in QuizDestinations && d.key == k
  {
    QuizDestinations[KeyIndex(k)]
  }

  /** What `calculateResult` returns, as a function. */
  function Recommend(answers: seq<Option<int>>): QuizDestination {
    DestinationFor(Winner(answers))
  }

  // ----- calculateResult -----

  /** The points of `o` for `k` already added, once the keys in `remaining` are still to do. */
  function Added(o: QuizOption, remaining: set<FeatureKey>, k: FeatureKey): int {
    if k in o.points && k !in remaining then o.points[k] else 0
  }

  /**
   * `calculateResult`: accumulate the chosen options' points in a score record,
   * scan the keys for the first maximum, and look its destination up.
   */
  method CalculateResult(answers: seq<Option<int>>) returns (d: QuizDestination)
    ensures d == Recommend(answers)
    ensures d in QuizDestinations && IsWinner(answers, d.key)
  {
    var scores: map<FeatureKey, int> := map[
      Pray := 0, Journal := 0, Meditate := 0, Music := 0,
      SleepRest := 0, PrayerWall := 0, LocalSupport := 0];
    forall k ensures k in scores && scores[k] == 0 {
      assert k == FeatureKeys[KeyIndex(k)];
    }

    for i := 0 to |QuizQuestions|
      invariant forall k :: k in scores && scores[k] == ScoreUpTo(answers, k, i)
    {
      var answer := AnswerAt(answers, i);
      if answer.None? {
        continue;
      }
      var answerIndex := answer.value;
      if !(0 <= answerIndex < |QuizQuestions[i].options|) {
        continue;
      }
      var option := QuizQuestions[i].options[answerIndex];
      var remaining := option.points.Keys;
      while remaining != {}
        invariant remaining <= option.points.Keys
        invariant forall k :: k in scores && scores[k] == ScoreUpTo(answers, k, i) + Added(option, remaining, k)
        decreases remaining
      {
        var key :| key in remaining;
        scores := scores[key := scores[key] + option.points[key]];
        remaining := remaining - {key};
      }
    }

    var winnerKey := FeatureKeys[0];
    var maxScore := scores[winnerKey];
    for j := 0 to |FeatureKeys|
      invariant maxScore == Score(answers, winnerKey)
      invariant ScanFrom(answers, j, winnerKey) == Winner(answers)
    {
      var key := FeatureKeys[j];
      if scores[key] > maxScore {
        maxScore := scores[key];
        winnerKey := key;
      }
    }

    DestinationKeysInOrder();
    var n := 0;
    while QuizDestinations[n].key != winnerKey
      invariant 0 <= n <= KeyIndex(winnerKey)
      decreases KeyIndex(winnerKey) - n
    {
      n := n + 1;
    }
    d := QuizDestinations[n];
    WinnerIsWinner(answers);
  }

  // ----- properties -----

  /** The tables have the shape the quiz relies on. */
  lemma TableShape()
    ensures |QuizQuestions| == 5
    ensures forall q :: q in QuizQuestions ==> |q.options| == 4
    ensures |QuizDestinations| == 7 && FeatureKeys[0] == Pray
    ensures forall q, o, k :: q in QuizQuestions && o in q.options && k in o.points ==> o.points[k] > 0
  {
  }

  /** Destinations are listed in the canonical key order, one per key. */
  lemma DestinationKeysInOrder()
    ensures |QuizDestinations| == |FeatureKeys|
    ensures forall j :: 0 <= j < |QuizDestinations| ==> QuizDestinations[j].key == FeatureKeys[j]
  {
  }

  /** Every key has exactly one destination, so the final lookup never fails. */
  lemma DestinationsCoverKeys(k: FeatureKey)
    ensures exists j :: 0 <= j < |QuizDestinations| && QuizDestinations[j].key == k
    ensures forall i, j :: 0 <= i < j < |QuizDestinations| ==> QuizDestinations[i].key != QuizDestinations[j].key
  {
    DestinationKeysInOrder();
    assert QuizDestinations[KeyIndex(k)].key == k;
  }

  /** A scan started with a winner that beats every key before `j` ends on the overall winner. */
  lemma {:induction false} ScanFromIsWinner(answers: seq<Option<int>>, j: nat, w: FeatureKey)
    requires j <= |FeatureKeys|
    requires forall i :: 0 <= i < j ==> Score(answers, FeatureKeys[i]) <= Score(answers, w)
    requires forall i :: 0 <= i < KeyIndex(w) ==> Score(answers, FeatureKeys[i]) < Score(answers, w)
    ensures IsWinner(answers, ScanFrom(answers, j, w))
    decreases |FeatureKeys| - j
  {
    if j == |FeatureKeys| {
      forall k' ensures Score(answers, k') <= Score(answers, w) {
        assert FeatureKeys[KeyIndex(k')] == k';
      }
    } else if Score(answers, FeatureKeys[j]) > Score(answers, w) {
      ScanFromIsWinner(answers, j + 1, FeatureKeys[j]);
    } else {
      ScanFromIsWinner(answers, j + 1, w);
    }
  }

  /** The strict-greater scan picks the earliest key of maximal score. */
  lemma WinnerIsWinner(answers: seq<Option<int>>)
    ensures IsWinner(answers, Winner(answers))
  {
    ScanFromIsWinner(answers, 0, FeatureKeys[0]);
  }

  /** There is only one winner: the maximum with no equal score before it. */
  lemma WinnerUnique(answers: seq<Option<int>>, k: FeatureKey)
    requires IsWinner(answers, k)
    ensures k == Winner(answers)
  {
    var w := Winner(answers);
    WinnerIsWinner(answers);
    // Each is at least the other, so they tie, and neither can come first.
    assert Score(answers, FeatureKeys[KeyIndex(k)]) == Score(answers, FeatureKeys[KeyIndex(w)]);
  }

  /** Pray wins whenever it ties for the maximum. */
  lemma PrayWinsTies(answers: seq<Option<int>>)
    requires forall k :: Score(answers, k) <= Score(answers, Pray)
    ensures Winner(answers) == Pray
  {
    WinnerUnique(answers, Pray);
  }

  /** Every score is the sum of the chosen options' points, so only answered questions count. */
  lemma {:induction false} ScoreOfUnanswered(answers: seq<Option<int>>, k: FeatureKey, n: nat)
    requires n <= |QuizQuestions|
    requires forall i :: 0 <= i < n ==> ChosenOption(answers, i).None?
    ensures ScoreUpTo(answers, k, n) == 0
  {
    if n > 0 {
      ScoreOfUnanswered(answers, k, n - 1);
    }
  }

  /** No answers at all: every score is 0 and the tie goes to `pray`. */
  lemma AllUnansweredIsPray(answers: seq<Option<int>>)
    requires forall i :: 0 <= i < |answers| ==> answers[i].None?
    ensures forall k :: Score(answers, k) == 0
    ensures Recommend(answers).key == Pray
  {
    forall k ensures Score(answers, k) == 0 {
      ScoreOfUnanswered(answers, k, |QuizQuestions|);
    }
    PrayWinsTies(answers);
  }

  /** Scores depend only on what the first five positions say, each read as `AnswerAt`. */
  lemma {:induction false} ScoreReadsFirstFive(a: seq<Option<int>>, b: seq<Option<int>>, k: FeatureKey, n: nat)
    requires n <= |QuizQuestions|
    requires forall i :: 0 <= i < n ==> AnswerAt(a, i) == AnswerAt(b, i)
    ensures ScoreUpTo(a, k, n) == ScoreUpTo(b, k, n)
  {
    if n > 0 {
      ScoreReadsFirstFive(a, b, k, n - 1);
      assert ChosenOption(a, n - 1) == ChosenOption(b, n - 1);
    }
  }

  /** Entries past the fifth are ignored. */
  lemma ExtraAnswersIgnored(answers: seq<Option<int>>, extra: seq<Option<int>>)
    requires |answers| >= |QuizQuestions|
    ensures forall k :: Score(answers + extra, k) == Score(answers, k)
    ensures Recommend(answers + extra) == Recommend(answers)
  {
    forall k ensures Score(answers + extra, k) == Score(answers, k) {
      ScoreReadsFirstFive(answers + extra, answers, k, |QuizQuestions|);
    }
    RecommendReadsScores(answers + extra, answers);
  }

  /** A short answer array behaves as if padded with unanswered entries. */
  lemma MissingAnswersAreUnanswered(answers: seq<Option<int>>, pad: seq<Option<int>>)
    requires forall i :: 0 <= i < |pad| ==> pad[i].None?
    ensures forall k :: Score(answers + pad, k) == Score(answers, k)
    ensures Recommend(answers + pad) == Recommend(answers)
  {
    forall k ensures Score(answers + pad, k) == Score(answers, k) {
      ScoreReadsFirstFive(answers + pad, answers, k, |QuizQuestions|);
    }
    RecommendReadsScores(answers + pad, answers);
  }

  /** An answer that indexes no option counts the same as no answer. */
  lemma OutOfRangeIsUnanswered(a: seq<Option<int>>, b: seq<Option<int>>, i: nat)
    requires |a| == |b| && i < |a| && i < |QuizQuestions|
    requires forall j :: 0 <= j < |a| && j != i ==> a[j] == b[j]
    requires a[i].Some? && !(0 <= a[i].value < |QuizQuestions[i].options|) && b[i].None?
    ensures forall k :: Score(a, k) == Score(b, k)
    ensures Recommend(a) == Recommend(b)
  {
    forall k ensures Score(a, k) == Score(b, k) {
      ScoreChosenAgree(a, b, k, |QuizQuestions|);
    }
    RecommendReadsScores(a, b);
  }

  /** Scores agree when every question's chosen option agrees. */
  lemma {:induction false} ScoreChosenAgree(a: seq<Option<int>>, b: seq<Option<int>>, k: FeatureKey, n: nat)
    requires n <= |QuizQuestions|
    requires forall i :: 0 <= i < n ==> ChosenOption(a, i) == ChosenOption(b, i)
    ensures ScoreUpTo(a, k, n) == ScoreUpTo(b, k, n)
  {
    if n > 0 {
      ScoreChosenAgree(a, b, k, n - 1);
    }
  }

  /** The recommendation is a function of the seven scores alone. */
  lemma RecommendReadsScores(a: seq<Option<int>>, b: seq<Option<int>>)
    requires forall k :: Score(a, k) == Score(b, k)
    ensures Recommend(a) == Recommend(b)
  {
    WinnerIsWinner(a);
    WinnerUnique(b, Winner(a));
  }

  /** A score is the sum of what the five questions add to it. */
  lemma ScoreIsSumOfQuestions(answers: seq<Option<int>>, k: FeatureKey)
    ensures Score(answers, k) == QuestionPoints(answers, 0, k) + QuestionPoints(answers, 1, k)
      + QuestionPoints(answers, 2, k) + QuestionPoints(answers, 3, k) + QuestionPoints(answers, 4, k)
  {
    assert ScoreUpTo(answers, k, 1) == QuestionPoints(answers, 0, k);
    assert ScoreUpTo(answers, k, 2) == ScoreUpTo(answers, k, 1) + QuestionPoints(answers, 1, k);
    assert ScoreUpTo(answers, k, 3) == ScoreUpTo(answers, k, 2) + QuestionPoints(answers, 2, k);
    assert ScoreUpTo(answers, k, 4) == ScoreUpTo(answers, k, 3) + QuestionPoints(answers, 3, k);
  }

  /** A key that scores at least every key, and more than every earlier key, is recommended. */
  lemma RecommendByScores(answers: seq<Option<int>>, w: FeatureKey)
    requires forall k :: Score(answers, k) <= Score(answers, w)
    requires forall k :: KeyIndex(k) < KeyIndex(w) ==> Score(answers, k) < Score(answers, w)
    ensures Recommend(answers).key == w
  {
    WinnerUnique(answers, w);
  }

  /** Choosing every first option recommends prayer. */
  lemma ExampleFirstOptions()
    ensures Recommend([Some(0), Some(0), Some(0), Some(0), Some(0)]).key == Pray
  {
    var a := [Some(0), Some(0), Some(0), Some(0), Some(0)];
    assert ChosenOption(a, 0) == Some(QuizQuestions[0].options[0]);
    assert ChosenOption(a, 1) == Some(QuizQuestions[1].options[0]);
    assert ChosenOption(a, 2) == Some(QuizQuestions[2].options[0]);
    assert ChosenOption(a, 3) == Some(QuizQuestions[3].options[0]);
    assert ChosenOption(a, 4) == Some(QuizQuestions[4].options[0]);
    forall k ensures Score(a, k) <= Score(a, Pray) && (KeyIndex(k) < KeyIndex(Pray) ==> Score(a, k) < Score(a, Pray)) {
      ScoreIsSumOfQuestions(a, k);
      ScoreIsSumOfQuestions(a, Pray);
    }
    RecommendByScores(a, Pray);
  }

  /** Growth, wanting more and writing recommend journaling. */
  lemma ExampleJournal()
    ensures Recommend([Some(1), Some(2), Some(1), Some(0), Some(0)]).key == Journal
  {
    var a := [Some(1), Some(2), Some(1), Some(0), Some(0)];
    assert ChosenOption(a, 0) == Some(QuizQuestions[0].options[1]);
    assert ChosenOption(a, 1) == Some(QuizQuestions[1].options[2]);
    assert ChosenOption(a, 2) == Some(QuizQuestions[2].options[1]);
    assert ChosenOption(a, 3) == Some(QuizQuestions[3].options[0]);
    assert ChosenOption(a, 4) == Some(QuizQuestions[4].options[0]);
    forall k ensures Score(a, k) <= Score(a, Journal) && (KeyIndex(k) < KeyIndex(Journal) ==> Score(a, k) < Score(a, Journal)) {
      ScoreIsSumOfQuestions(a, k);
      ScoreIsSumOfQuestions(a, Journal);
    }
    RecommendByScores(a, Journal);
  }

  /** Anxiety, comfort and worship music recommend music. */
  lemma ExampleMusic()
    ensures Recommend([Some(2), Some(0), Some(3), Some(1), Some(1)]).key == Music
  {
    var a := [Some(2), Some(0), Some(3), Some(1), Some(1)];
    assert ChosenOption(a, 0) == Some(QuizQuestions[0].options[2]);
    assert ChosenOption(a, 1) == Some(QuizQuestions[1].options[0]);
    assert ChosenOption(a, 2) == Some(QuizQuestions[2].options[3]);
    assert ChosenOption(a, 3) == Some(QuizQuestions[3].options[1]);
    assert ChosenOption(a, 4) == Some(QuizQuestions[4].options[1]);
    forall k ensures Score(a, k) <= Score(a, Music) && (KeyIndex(k) < KeyIndex(Music) ==> Score(a, k) < Score(a, Music)) {
      ScoreIsSumOfQuestions(a, k);
      ScoreIsSumOfQuestions(a, Music);
    }
    RecommendByScores(a, Music);
  }

  /** Feeling stuck and quiet reflection recommend meditation. */
  lemma ExampleMeditate()
    ensures Recommend([Some(1), Some(1), Some(2), Some(2), Some(2)]).key == Meditate
  {
    var a := [Some(1), Some(1), Some(2), Some(2), Some(2)];
    assert ChosenOption(a, 0) == Some(QuizQuestions[0].options[1]);
    assert ChosenOption(a, 1) == Some(QuizQuestions[1].options[1]);
    assert ChosenOption(a, 2) == Some(QuizQuestions[2].options[2]);
    assert ChosenOption(a, 3) == Some(QuizQuestions[3].options[2]);
    assert ChosenOption(a, 4) == Some(QuizQuestions[4].options[2]);
    forall k ensures Score(a, k) <= Score(a, Meditate) && (KeyIndex(k) < KeyIndex(Meditate) ==> Score(a, k) < Score(a, Meditate)) {
      ScoreIsSumOfQuestions(a, k);
      ScoreIsSumOfQuestions(a, Meditate);
    }
    RecommendByScores(a, Meditate);
  }

  /** Doing well and practising regularly recommend the prayer wall. */
  lemma ExamplePrayerWall()
    ensures Recommend([Some(3), Some(3), Some(0), Some(3), Some(0)]).key == PrayerWall
  {
    var a := [Some(3), Some(3), Some(0), Some(3), Some(0)];
    assert ChosenOption(a, 0) == Some(QuizQuestions[0].options[3]);
    assert ChosenOption(a, 1) == Some(QuizQuestions[1].options[3]);
    assert ChosenOption(a, 2) == Some(QuizQuestions[2].options[0]);
    assert ChosenOption(a, 3) == Some(QuizQuestions[3].options[3]);
    assert ChosenOption(a, 4) == Some(QuizQuestions[4].options[0]);
    forall k ensures Score(a, k) <= Score(a, PrayerWall) && (KeyIndex(k) < KeyIndex(PrayerWall) ==> Score(a, k) < Score(a, PrayerWall)) {
      ScoreIsSumOfQuestions(a, k);
      ScoreIsSumOfQuestions(a, PrayerWall);
    }
    RecommendByScores(a, PrayerWall);
  }

  /** Answering only "at night" recommends sleep and rest. */
  lemma ExampleSleepRest()
    ensures Recommend([None, None, None, Some(2), None]).key == SleepRest
  {
    var a := [None, None, None, Some(2), None];
    assert ChosenOption(a, 0).None?;
    assert ChosenOption(a, 1).None?;
    assert ChosenOption(a, 2).None?;
    assert ChosenOption(a, 3) == Some(QuizQuestions[3].options[2]);
    assert ChosenOption(a, 4).None?;
    forall k ensures Score(a, k) <= Score(a, SleepRest) && (KeyIndex(k) < KeyIndex(SleepRest) ==> Score(a, k) < Score(a, SleepRest)) {
      ScoreIsSumOfQuestions(a, k);
      ScoreIsSumOfQuestions(a, SleepRest);
    }
    RecommendByScores(a, SleepRest);
  }

  /** A tie between prayer and meditation goes to prayer. */
  lemma ExampleTie()
    ensures Recommend([Some(1), Some(1), Some(0), Some(1), Some(2)]).key == Pray
  {
    var a := [Some(1), Some(1), Some(0), Some(1), Some(2)];
    assert ChosenOption(a, 0) == Some(QuizQuestions[0].options[1]);
    assert ChosenOption(a, 1) == Some(QuizQuestions[1].options[1]);
    assert ChosenOption(a, 2) == Some(QuizQuestions[2].options[0]);
    assert ChosenOption(a, 3) == Some(QuizQuestions[3].options[1]);
    assert ChosenOption(a, 4) == Some(QuizQuestions[4].options[2]);
    forall k ensures Score(a, k) <= Score(a, Pray) && (KeyIndex(k) < KeyIndex(Pray) ==> Score(a, k) < Score(a, Pray)) {
      ScoreIsSumOfQuestions(a, k);
      ScoreIsSumOfQuestions(a, Pray);
    }
    RecommendByScores(a, Pray);
  }
}
