/**
 * Wrap-around index arithmetic shared by the keyboard handlers of the share
 * menu and of the dashboard and profile tab bars: one step forward with
 * `(i + 1) % n`, one step back with `(i - 1 + n) % n`. Both operands are
 * non-negative there, so JavaScript's `%` agrees with Dafny's.
 */
module RovingFocus {
  import opened Wrappers

  /** The keys the keyboard handlers distinguish; every other key is `OtherKey`. */
  datatype Key = ArrowUp | ArrowDown | ArrowLeft | ArrowRight | Home | End | Enter | OtherKey

  /** One step forward, from the last position back to the first. */
  function StepForward(i: nat, n: nat): (j: nat)
    requires i < n
    ensures j < n
    ensures j == if i == n - 1 then 0 else i + 1
  {
    (i + 1) % n
  }

  /** One step back, from the first position round to the last. */
  function StepBack(i: nat, n: nat): (j: nat)
    requires i < n
    ensures j < n
    ensures j == if i == 0 then n - 1 else i - 1
  {
    (i - 1 + n) % n
  }

  /** A step back undoes a step forward. */
  lemma BackUndoesForward(i: nat, n: nat)
    requires i < n
    ensures StepBack(StepForward(i, n), n) == i
  {
  }

  /** A step forward undoes a step back. */
  lemma ForwardUndoesBack(i: nat, n: nat)
    requires i < n
    ensures StepForward(StepBack(i, n), n) == i
  {
  }

  /** `k` steps forward from `i`. */
  function StepsForward(i: nat, n: nat, k: nat): (j: nat)
    requires i < n
    ensures j < n
  {
    if k == 0 then i else StepForward(StepsForward(i, n, k - 1), n)
  }

  /** Until the end is reached, `k` steps forward from `i` land on `i + k`. */
  lemma {:induction false} StepsBeforeWrap(i: nat, n: nat, k: nat)
    requires i + k < n
    ensures StepsForward(i, n, k) == i + k
  {
    if k > 0 {
      StepsBeforeWrap(i, n, k - 1);
    }
  }

  /** After passing the end, counting restarts at the first position. */
  lemma {:induction false} StepsAfterWrap(i: nat, n: nat, m: nat)
    requires i < n && m <= i
    ensures StepsForward(i, n, n - i + m) == m
  {
    if m == 0 {
      StepsBeforeWrap(i, n, n - i - 1);
    } else {
      StepsAfterWrap(i, n, m - 1);
    }
  }

  /** Going all the way round returns to the start. */
  lemma FullCircle(i: nat, n: nat)
    requires i < n
    ensures StepsForward(i, n, n) == i
  {
    StepsAfterWrap(i, n, i);
  }

  /**
   * The tab a key moves focus and selection to from tab `i` of `n`: the
   * arrows step with wrap-around, Home and End jump to the first and last
   * tab, and any other key is left to the browser.
   */
  function TabTarget(key: Key, i: nat, n: nat): (r: Option<nat>)
    requires i < n
    ensures r.Some? <==> key.ArrowRight? || key.ArrowLeft? || key.Home? || key.End?
    ensures r.Some? ==> r.value < n
    ensures key.Home? ==> r == Some(0)
    ensures key.End? ==> r == Some(n - 1)
  {
    match key
    case ArrowRight => Some(StepForward(i, n))
    case ArrowLeft => Some(StepBack(i, n))
    case Home => Some(0)
    case End => Some(n - 1)
    case _ => None
  }

  /** ArrowLeft undoes ArrowRight and the other way round, on every tab bar. */
  lemma TabArrowsUndo(i: nat, n: nat)
    requires i < n
    ensures TabTarget(ArrowLeft, TabTarget(ArrowRight, i, n).value, n) == Some(i)
    ensures TabTarget(ArrowRight, TabTarget(ArrowLeft, i, n).value, n) == Some(i)
  {
    BackUndoesForward(i, n);
    ForwardUndoesBack(i, n);
  }

  /**
   * A tab bar's `onKeyDown`: `nextIndex` starts at the tab's own index and
   * is reassigned by the branch for the key; for any other key the handler
   * returns early and nothing is selected.
   */
  method NextTab(key: Key, index: nat, n: nat) returns (handled: bool, nextIndex: nat)
    requires index < n
    ensures handled <==> TabTarget(key, index, n).Some?
    ensures handled ==> nextIndex == TabTarget(key, index, n).value
    ensures nextIndex < n
  {
    nextIndex := index;
    handled := true;
    if key == ArrowRight {
      nextIndex := (index + 1) % n;
    } else if key == ArrowLeft {
      nextIndex := (index - 1 + n) % n;
    } else if key == Home {
      nextIndex := 0;
    } else if key == End {
      nextIndex := n - 1;
    } else {
      handled := false;
    }
  }
}
