// The watchlist update applied by the toggle handler of the application root:
// a present id is removed (every occurrence), an absent one appended.

module Watchlist {
  import opened Seqs

  /**
   * The watchlist after toggling id. Removal is `RemoveAll`, which
   * `Seqs.RemoveAllIsFilter` proves equal to the filter "differs from id".
   */
  function Toggled(list: seq<string>, id: string): (r: seq<string>)
    ensures id in r <==> id !in list
    ensures forall x :: x != id ==> (x in r <==> x in list)
    ensures id !in list ==> r == list + [id]
    ensures RemoveAll(r, id) == RemoveAll(list, id)
    ensures NoDup(list) ==> NoDup(r)
  {
    if id in list then
      RemoveAllMembersAll(list, id);
      RemoveAllAbsent(RemoveAll(list, id), id);
      RemoveAllNoDup(list, id);
      RemoveAll(list, id)
    else
      RemoveAllAppend(list, [id], id);
      RemoveAllAbsent(list, id);
      list + [id]
  }

  lemma RemoveAllMembersAll(list: seq<string>, id: string)
    ensures forall y :: y in RemoveAll(list, id) <==> y in list && y != id
  {
    forall y
      ensures y in RemoveAll(list, id) <==> y in list && y != id
    {
      RemoveAllMembers(list, id, y);
    }
  }

  /** Toggling an absent id twice restores the list exactly. */
  lemma ToggleTwiceAbsent(list: seq<string>, id: string)
    requires id !in list
    ensures Toggled(Toggled(list, id), id) == list
  {
    RemoveAllAppend(list, [id], id);
    RemoveAllAbsent(list, id);
  }

  /**
   * Toggling a present id twice restores membership of every id, but the id
   * moves to the end: the other ids keep their order, then comes id.
   */
  lemma ToggleTwicePresent(list: seq<string>, id: string)
    requires id in list
    ensures Toggled(Toggled(list, id), id) == RemoveAll(list, id) + [id]
    ensures forall x :: x in Toggled(Toggled(list, id), id) <==> x in list
  {
  }

  /** Toggling a present id twice need not give back the same list. */
  lemma ToggleTwiceMayReorder()
    ensures Toggled(Toggled(["1", "2"], "1"), "1") == ["2", "1"]
  {
    assert RemoveAll(["1", "2"], "1") == ["2"] by {
      assert ["1", "2"][1..] == ["2"];
      assert ["2"][1..] == [];
    }
  }

  /** Adding "5" and then "2" to an empty watchlist gives ["5", "2"]. */
  lemma ToggleScenario()
    ensures Toggled(Toggled([], "5"), "2") == ["5", "2"]
  {
  }
}
