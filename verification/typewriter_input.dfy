/**
 * The hero input of the home page. While nobody is typing in it, it types
 * out one of three phrases a character at a time, pauses, deletes it, pauses
 * again and moves on to the next phrase. Focusing the input stops the
 * animation and empties it; leaving it empty starts the animation over from
 * the first phrase.
 *
 * Each timer firing, and each step the effect takes at once, is one call of
 * `Tick`; timings are not modelled.
 */
module TypewriterInput {
  import opened Wrappers
  import opened Text

  const Phrases: seq<string> := [
    "I'm going through a difficult season.",
    "I want to journal but I don't know where to start.",
    "My life is crazy and I don't know how to relax."
  ]

  lemma PhrasesNonEmpty()
    ensures |Phrases| == 3
    ensures forall i :: 0 <= i < |Phrases| ==> |Phrases[i]| > 0
  {
  }

  datatype Phase = Typing | PausingComplete | Deleting | PausingEmpty

  /** The animation's state. */
  datatype Animation = Animation(phase: Phase, displayText: string, phraseIndex: nat, announcement: string)

  /** The display is a prefix of the current phrase; the screen-reader announcement is empty or a phrase. */
  ghost predicate Consistent(a: Animation) {
    && a.phraseIndex < |Phrases|
    && a.displayText <= Phrases[a.phraseIndex]
    && (a.announcement == "" || a.announcement in Phrases)
  }

  /** While the animation runs: after typing completes the display is the whole phrase, after deleting it is empty. */
  ghost predicate Settled(a: Animation)
    requires a.phraseIndex < |Phrases|
  {
    && (a.phase == PausingComplete ==> a.displayText == Phrases[a.phraseIndex])
    && (a.phase == PausingEmpty ==> a.displayText == "")
  }

  /** One step of the animation. */
  function Tick(a: Animation): (b: Animation)
    requires a.phraseIndex < |Phrases|
    ensures b.phraseIndex < |Phrases|
    ensures Consistent(a) && Settled(a) ==> Consistent(b) && Settled(b)
    ensures b.phraseIndex != a.phraseIndex ==> a.phase == PausingEmpty && b.phraseIndex == (a.phraseIndex + 1) % |Phrases|
  {
    var phrase := Phrases[a.phraseIndex];
    match a.phase
    case Typing =>
      if |a.displayText| < |phrase| then a.(displayText := phrase[..|a.displayText| + 1])
      else a.(announcement := phrase, phase := PausingComplete)
    case PausingComplete => a.(phase := Deleting)
    case Deleting =>
      if |a.displayText| > 0 then a.(displayText := a.displayText[..|a.displayText| - 1])
      else a.(phase := PausingEmpty)
    case PausingEmpty => a.(phraseIndex := (a.phraseIndex + 1) % |Phrases|, phase := Typing)
  }

  /** `k` steps of the animation. */
  function Run(a: Animation, k: nat): (b: Animation)
    requires a.phraseIndex < |Phrases|
    ensures b.phraseIndex < |Phrases|
    decreases k
  {
    if k == 0 then a else Run(Tick(a), k - 1)
  }

  lemma {:induction false} RunAdds(a: Animation, m: nat, k: nat)
    requires a.phraseIndex < |Phrases|
    ensures Run(a, m + k) == Run(Run(a, m), k)
    decreases m
  {
    if m > 0 {
      RunAdds(Tick(a), m - 1, k);
    }
  }

  /** Typing from `j` characters reaches the whole phrase after the remaining steps. */
  lemma {:induction false} TypingRuns(a: Animation, j: nat)
    requires a.phraseIndex < |Phrases| && a.phase == Typing
    requires j <= |Phrases[a.phraseIndex]| && a.displayText == Phrases[a.phraseIndex][..j]
    ensures Run(a, |Phrases[a.phraseIndex]| - j) == a.(displayText := Phrases[a.phraseIndex])
    decreases |Phrases[a.phraseIndex]| - j
  {
    var p := Phrases[a.phraseIndex];
    if j < |p| {
      assert p[..j + 1][..j + 1] == p[..j + 1];
      TypingRuns(Tick(a), j + 1);
    } else {
      assert p[..j] == p;
    }
  }

  /** Deleting from `j` characters reaches the empty display after `j` steps. */
  lemma {:induction false} DeletingRuns(a: Animation, j: nat)
    requires a.phraseIndex < |Phrases| && a.phase == Deleting
    requires j <= |Phrases[a.phraseIndex]| && a.displayText == Phrases[a.phraseIndex][..j]
    ensures Run(a, j) == a.(displayText := "")
    decreases j
  {
    var p := Phrases[a.phraseIndex];
    if j > 0 {
      assert p[..j][..j - 1] == p[..j - 1];
      DeletingRuns(Tick(a), j - 1);
    }
  }

  /**
   * One full round: from an empty display at phrase `i`, 2n + 4 steps (n the
   * phrase's length) type it, pause, delete it, pause, and reach phrase
   * i + 1 (mod 3) with an empty display, having announced phrase `i`.
   */
  lemma FullRound(i: nat, announcement: string)
    requires i < |Phrases|
    ensures var n := |Phrases[i]|;
      Run(Animation(Typing, "", i, announcement), 2 * n + 4) == Animation(Typing, "", (i + 1) % |Phrases|, Phrases[i])
  {
    var p := Phrases[i];
    var n := |p|;
    var a0 := Animation(Typing, "", i, announcement);
    assert p[..0] == "";
    TypingRuns(a0, 0);
    var a1 := Animation(Typing, p, i, announcement);
    assert Run(a0, n) == a1;
    var a2 := Animation(PausingComplete, p, i, p);
    assert Run(a1, 2) == Animation(Deleting, p, i, p);
    var a3 := Animation(Deleting, p, i, p);
    assert p[..n] == p;
    DeletingRuns(a3, n);
    var a4 := Animation(Deleting, "", i, p);
    assert Run(a4, 2) == Animation(Typing, "", (i + 1) % |Phrases|, p);
    RunAdds(a0, n, 2);
    RunAdds(a0, n + 2, n);
    RunAdds(a0, 2 * n + 2, 2);
  }

  class Typewriter {
    var anim: Animation
    var isFocused: bool
    var userValue: string
    /** `prefers-reduced-motion`: the animation never runs. */
    const reducedMotion: bool

    ghost predicate Valid()
      reads this
    {
      && Consistent(anim)
      && (isFocused ==> anim.displayText == "")
      && (!isFocused ==> Settled(anim))
    }

    constructor(reducedMotion: bool)
      ensures Valid() && !isFocused && userValue == "" && this.reducedMotion == reducedMotion
      ensures anim == Animation(Typing, "", 0, "")
    {
      anim := Animation(Typing, "", 0, "");
      isFocused := false;
      userValue := "";
      this.reducedMotion := reducedMotion;
    }

    /** A timer fires, or the effect advances at once; only while unfocused and with motion allowed. */
    method Step()
      requires Valid() && !reducedMotion && !isFocused
      modifies this
      ensures Valid() && anim == Tick(old(anim))
      ensures isFocused == old(isFocused) && userValue == old(userValue)
    {
      var phrase := Phrases[anim.phraseIndex];
      match anim.phase {
        case Typing =>
          if |anim.displayText| < |phrase| {
            anim := anim.(displayText := phrase[..|anim.displayText| + 1]);
          } else {
            anim := anim.(announcement := phrase, phase := PausingComplete);
          }
        case PausingComplete =>
          anim := anim.(phase := Deleting);
        case Deleting =>
          if |anim.displayText| > 0 {
            anim := anim.(displayText := anim.displayText[..|anim.displayText| - 1]);
          } else {
            anim := anim.(phase := PausingEmpty);
          }
        case PausingEmpty =>
          anim := anim.(phraseIndex := (anim.phraseIndex + 1) % |Phrases|, phase := Typing);
      }
    }

    /** What the input shows: the visitor's own text while focused, the animation otherwise. */
    function InputValue(): (v: string)
      reads this
      ensures isFocused ==> v == userValue
      ensures Valid() && !isFocused ==> v <= Phrases[anim.phraseIndex]
    {
      if isFocused then userValue else anim.displayText
    }

    /** `handleFocus`: stop the animation and empty the display. */
    method Focus()
      requires Valid()
      modifies this
      ensures Valid() && isFocused && anim == old(anim).(displayText := "") && userValue == old(userValue)
    {
      isFocused := true;
      anim := anim.(displayText := "");
    }

    /** Typing is taken only while focused. */
    method Type(newValue: string)
      requires Valid()
      modifies this
      ensures Valid() && anim == old(anim) && isFocused == old(isFocused)
      ensures userValue == (if isFocused then newValue else old(userValue))
    {
      if isFocused {
        userValue := newValue;
      }
    }

    /** `handleBlur`: leaving an empty input restarts the animation from the first phrase; otherwise nothing changes. */
    method Blur()
      requires Valid()
      modifies this
      ensures Valid() && userValue == old(userValue)
      ensures old(InputValue()) == "" ==> !isFocused && anim == Animation(Typing, "", 0, "")
      ensures old(InputValue()) != "" ==> isFocused == old(isFocused) && anim == old(anim)
    {
      if InputValue() == "" {
        isFocused := false;
        anim := Animation(Typing, "", 0, "");
      }
    }

    /** `handleSubmit`: the trimmed input, handed to `onSubmit` when it is not empty. */
    method Submit() returns (sent: Option<string>)
      requires Valid()
      ensures sent == (if Trim(InputValue()) != "" then Some(Trim(InputValue())) else None)
    {
      var value := if isFocused then Trim(userValue) else Trim(anim.displayText);
      sent := if value != "" then Some(value) else None;
    }
  }

  /** The trimmed text of a prefix of `p` occurs in `p`. */
  lemma TrimOfPrefixOccurs(d: string, p: string)
    requires d <= p
    ensures OccursAt(Trim(d), p, |d| - |TrimStart(d)|)
  {
    TrimOccursIn(d);
    OccursInExtension(Trim(d), d, p, |d| - |TrimStart(d)|);
  }

  /** Submitting without focusing sends a trimmed piece of the phrase being animated. */
  lemma UnfocusedSubmitSendsPhrasePiece(a: Animation)
    requires Consistent(a)
    ensures exists k :: OccursAt(Trim(a.displayText), Phrases[a.phraseIndex], k)
  {
    TrimOfPrefixOccurs(a.displayText, Phrases[a.phraseIndex]);
  }
}
