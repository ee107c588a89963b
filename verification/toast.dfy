/**
 * The toast provider: short notices stacked in the corner of the page. Each
 * notice gets the next number of a counter as its id, at most the three most
 * recent are kept, and each one is dismissed when its own six-second timer
 * fires. The timer firing is the method `Dismiss`.
 */
module Toasts {
  import opened Wrappers
  import opened Seqs

  datatype ToastType = Success | Error

  datatype Toast = Toast(id: nat, message: string, kind: ToastType)

  /** How many toasts are visible at once. */
  const MaxVisible: nat := 3

  /** Ids increase strictly from the oldest toast to the newest. */
  predicate IncreasingIds(s: seq<Toast>) {
    forall i, j :: 0 <= i < j < |s| ==> s[i].id < s[j].id
  }

  /** `slice(-n)`: the last `n` toasts, or all of them when there are fewer. */
  function KeepLast(s: seq<Toast>, n: nat): (r: seq<Toast>)
    ensures |r| == Min(|s|, n)
    ensures forall i :: 0 <= i < |r| ==> r[i] == s[|s| - |r| + i]
  {
    if |s| <= n then s else s[|s| - n..]
  }

  /** The list after dismissing `id`: every toast with another id, in order. */
  function Without(s: seq<Toast>, id: nat): (r: seq<Toast>)
    ensures forall t :: t in r <==> t in s && t.id != id
  {
    Filter(s, OtherThan(id))
  }

  /** The test `t.id !== id` that dismissal filters by. */
  function OtherThan(id: nat): Toast -> bool {
    (t: Toast) => t.id != id
  }

  /** The list after `showToast`: the new toast appended, then trimmed to the newest three. */
  function Shown(s: seq<Toast>, t: Toast): (r: seq<Toast>)
    ensures |r| <= MaxVisible && r != [] && r[|r| - 1] == t
    ensures |s| < MaxVisible ==> r == s + [t]
    ensures |s| >= MaxVisible ==> r == s[|s| - MaxVisible + 1..] + [t]
  {
    KeepLast(s + [t], MaxVisible)
  }

  /** Keeping a suffix keeps ids increasing. */
  lemma KeepLastIncreasing(s: seq<Toast>, n: nat)
    requires IncreasingIds(s)
    ensures IncreasingIds(KeepLast(s, n))
  {
    if |s| > n {
      var k := |s| - n;
      var r := s[k..];
      forall i, j | 0 <= i < j < |r|
        ensures r[i].id < r[j].id
      {
        assert r[i] == s[k + i] && r[j] == s[k + j];
      }
    }
  }

  /** Filtering keeps ids increasing. */
  lemma {:induction false} WithoutIncreasing(s: seq<Toast>, id: nat)
    requires IncreasingIds(s)
    ensures IncreasingIds(Without(s, id))
    decreases |s|
  {
    if s != [] {
      var p := OtherThan(id);
      WithoutIncreasing(s[1..], id);
      var rest := Without(s[1..], id);
      if p(s[0]) {
        assert Without(s, id) == [s[0]] + rest;
        forall t | t in rest
          ensures s[0].id < t.id
        {
          assert t in s[1..];
        }
      } else {
        assert Without(s, id) == rest;
      }
    }
  }

  /** Dismissing an id that is not shown, for instance one already pushed out, changes nothing. */
  lemma DismissAbsent(s: seq<Toast>, id: nat)
    requires forall t :: t in s ==> t.id != id
    ensures Without(s, id) == s
  {
    FilterAll(s, OtherThan(id));
  }

  /** In an increasing list, the toasts before `t` have smaller ids. */
  lemma IdsBefore(before: seq<Toast>, t: Toast, after: seq<Toast>)
    requires IncreasingIds(before + [t] + after)
    ensures forall x :: x in before ==> x.id < t.id
  {
    var s := before + [t] + after;
    forall x | x in before
      ensures x.id < t.id
    {
      var i :| 0 <= i < |before| && before[i] == x;
      assert s[i] == x && s[|before|] == t;
    }
  }

  /** In an increasing list, the toasts after `t` have larger ids. */
  lemma IdsAfter(before: seq<Toast>, t: Toast, after: seq<Toast>)
    requires IncreasingIds(before + [t] + after)
    ensures forall x :: x in after ==> t.id < x.id
  {
    var s := before + [t] + after;
    forall x | x in after
      ensures t.id < x.id
    {
      var i :| 0 <= i < |after| && after[i] == x;
      assert s[|before| + 1 + i] == x && s[|before|] == t;
    }
  }

  /** Filtering out `t.id` where no other toast has it drops just `t`. */
  lemma WithoutSeparated(before: seq<Toast>, t: Toast, after: seq<Toast>)
    requires forall x :: x in before ==> x.id != t.id
    requires forall x :: x in after ==> x.id != t.id
    ensures Without(before + [t] + after, t.id) == before + after
  {
    var p := OtherThan(t.id);
    assert Filter(before + [t], p) == before by {
      FilterConcat(before, [t], p);
      FilterAll(before, p);
      FilterNone([t], p);
    }
    assert Filter(after, p) == after by {
      FilterAll(after, p);
    }
    FilterConcat(before + [t], after, p);
  }

  /** Dismissing removes exactly the toast with that id; those before and after keep their order. */
  lemma DismissRemovesOnlyThatToast(before: seq<Toast>, t: Toast, after: seq<Toast>)
    requires IncreasingIds(before + [t] + after)
    ensures Without(before + [t] + after, t.id) == before + after
  {
    IdsBefore(before, t, after);
    IdsAfter(before, t, after);
    WithoutSeparated(before, t, after);
  }

  class ToastProvider {
    var toasts: seq<Toast>
    /** `nextIdRef.current`: the id the next toast will get. */
    var nextId: nat

    /** At most three toasts, ids increasing, every id already handed out. */
    ghost predicate Valid()
      reads this
    {
      && |toasts| <= MaxVisible
      && IncreasingIds(toasts)
      && forall t :: t in toasts ==> t.id < nextId
    }

    constructor()
      ensures Valid() && toasts == [] && nextId == 0
    {
      toasts := [];
      nextId := 0;
    }

    /** `showToast(message, type)`: the type defaults to success. */
    method ShowToast(message: string, kind: Option<ToastType>) returns (id: nat)
      requires Valid()
      modifies this
      ensures Valid()
      ensures id == old(nextId) && nextId == old(nextId) + 1
      ensures toasts == Shown(old(toasts), Toast(id, message, kind.GetOr(Success)))
    {
      id := nextId;
      nextId := nextId + 1;
      var t := Toast(id, message, kind.GetOr(Success));
      var updated := toasts + [t];
      assert IncreasingIds(updated) by {
        forall i, j | 0 <= i < j < |updated|
          ensures updated[i].id < updated[j].id
        {
          if j == |updated| - 1 {
            assert updated[i] in toasts;
          }
        }
      }
      KeepLastIncreasing(updated, MaxVisible);
      toasts := KeepLast(updated, MaxVisible);
      forall x | x in toasts
        ensures x.id < nextId
      {
        assert x in updated;
      }
    }

    /** The toast's six-second timer fires: remove the toast with that id, if still shown. */
    method Dismiss(id: nat)
      requires Valid()
      modifies this
      ensures Valid()
      ensures toasts == Without(old(toasts), id) && nextId == old(nextId)
    {
      WithoutIncreasing(toasts, id);
      var rest := Without(toasts, id);
      assert |rest| <= |toasts|;
      toasts := rest;
    }
  }

  /** Four toasts in a row leave the last three on screen, the first pushed out. */
  lemma FourthToastPushesOutFirst(t1: Toast, t2: Toast, t3: Toast, t4: Toast)
    ensures Shown(Shown(Shown(Shown([], t1), t2), t3), t4) == [t2, t3, t4]
  {
    assert Shown(Shown(Shown([], t1), t2), t3) == [t1, t2, t3];
  }
}
