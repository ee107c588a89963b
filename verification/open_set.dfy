/**
 * `useOpenSet`: the set of prayer ids whose comment sections are open, with
 * a toggle that opens a closed one and closes an open one.
 */
module OpenSet {
  /** The set after toggling `id`: its membership flips and every other id's is kept. */
  function Toggled(s: set<string>, id: string): (r: set<string>)
    ensures id in r <==> id !in s
    ensures forall x :: x != id ==> (x in r <==> x in s)
  {
    if id in s then s - {id} else s + {id}
  }

  /** Toggling the same id twice gives back the original set. */
  lemma ToggleTwice(s: set<string>, id: string)
    ensures Toggled(Toggled(s, id), id) == s
  {
  }

  /** Toggles of different ids do not interfere. */
  lemma TogglesCommute(s: set<string>, a: string, b: string)
    ensures Toggled(Toggled(s, a), b) == Toggled(Toggled(s, b), a)
  {
  }

  class OpenComments {
    var openSet: set<string>

    /** Every comment section starts closed. */
    constructor()
      ensures openSet == {}
    {
      openSet := {};
    }

    /** `toggle(id)`: copy the set, then delete `id` if present and add it otherwise. */
    method Toggle(id: string)
      modifies this
      ensures openSet == Toggled(old(openSet), id)
    {
      var next := openSet;
      if id in next {
        next := next - {id};
      } else {
        next := next + {id};
      }
      openSet := next;
    }

    predicate IsOpen(id: string)
      reads this
    {
      id in openSet
    }
  }
}
