/**
 * The set of favourite product ids a storefront page keeps after it has
 * asked the back end to add or remove one.
 */
module FavoriteIds {

  /** The ids after a successful toggle: `id` leaves the set if it was in it and joins it otherwise. */
  function Toggled(ids: set<string>, id: string): (r: set<string>)
    ensures id in r <==> id !in ids
    ensures r - {id} == ids - {id}
  {
    if id in ids then ids - {id} else ids + {id}
  }

  /** Toggling the same product twice restores the set. */
  lemma {:induction false} ToggleTwiceRestores(ids: set<string>, id: string)
    ensures Toggled(Toggled(ids, id), id) == ids
  {
    var once := Toggled(ids, id);
    assert once - {id} == ids - {id};
    if id in ids {
      assert ids == (ids - {id}) + {id};
    } else {
      assert ids == ids - {id};
    }
  }

  /** Toggles of different products do not interfere. */
  lemma {:induction false} TogglesCommute(ids: set<string>, a: string, b: string)
    ensures Toggled(Toggled(ids, a), b) == Toggled(Toggled(ids, b), a)
  {
  }
}
