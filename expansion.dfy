/**
 * A set of comment ids whose replies are shown, held in a state cell
 * (`ExpansionSet`). The comment section holds one of its own; a comment item
 * is given one, with its setter, by whatever renders it. Every change builds a
 * copy of the set, adds or deletes one id and installs the copy; the
 * functions below say what the installed set is.
 */
module Expansion {

  /** The set after adding id. */
  function Expanded(s: set<string>, id: string): (r: set<string>)
    ensures id in r
    ensures forall x :: x != id ==> (x in r <==> x in s)
  {
    s + {id}
  }

  /** The set after deleting id. */
  function Collapsed(s: set<string>, id: string): (r: set<string>)
    ensures id !in r
    ensures forall x :: x != id ==> (x in r <==> x in s)
  {
    s - {id}
  }

  /** The set after flipping id: deleted when present, added otherwise. */
  function Toggled(s: set<string>, id: string): (r: set<string>)
    ensures id in r <==> id !in s
    ensures forall x :: x != id ==> (x in r <==> x in s)
  {
    if id in s then Collapsed(s, id) else Expanded(s, id)
  }

  lemma ExpandIdempotent(s: set<string>, id: string)
    ensures Expanded(Expanded(s, id), id) == Expanded(s, id)
  {
  }

  lemma CollapseIdempotent(s: set<string>, id: string)
    ensures Collapsed(Collapsed(s, id), id) == Collapsed(s, id)
  {
  }

  /** Toggling the same id twice restores the set. */
  lemma ToggleTwice(s: set<string>, id: string)
    ensures Toggled(Toggled(s, id), id) == s
  {
  }

  /** Toggles commute, so an id's membership depends only on how often it was toggled. */
  lemma ToggleOtherIds(s: set<string>, a: string, b: string)
    ensures Toggled(Toggled(s, a), b) == Toggled(Toggled(s, b), a)
  {
  }

  /** The state cell holding the expanded ids. */
  class ExpansionSet {
    var ids: set<string>

    /** The section starts with every comment collapsed. */
    constructor ()
      ensures ids == {}
    {
      ids := {};
    }
  }
}
