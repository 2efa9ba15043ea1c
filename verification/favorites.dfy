/**
 * The favorites table: a set of (user, product) pairs kept as rows in
 * insertion order, with an idempotent add and a delete that reports a
 * missing pair.
 */
module Favorites {
  import opened Wrappers
  import opened Text
  import opened Seqs

  datatype Favorite = Favorite(userId: string, productId: int, createdAt: int)

  predicate Pair(f: Favorite, userId: string, productId: int) { f.userId == userId && f.productId == productId }

  predicate DistinctPairs(a: Favorite, b: Favorite) { !Pair(b, a.userId, a.productId) }

  /** The user's favorite product ids, newest first. */
  function FavoriteIds(rows: seq<Favorite>, userId: string): (r: seq<int>)
    ensures forall p :: p in r <==> exists k :: 0 <= k < |rows| && Pair(rows[k], userId, p)
  {
    if rows == [] then []
    else
      var rest := FavoriteIds(rows[1..], userId);
      assert forall k :: 1 <= k < |rows| ==> rows[k] == rows[1..][k - 1];
      if rows[0].userId == userId then rest + [rows[0].productId] else rest
  }

  /** A newly added favorite is listed first. */
  lemma {:induction false} NewestListedFirst(rows: seq<Favorite>, f: Favorite)
    ensures FavoriteIds(rows + [f], f.userId) == [f.productId] + FavoriteIds(rows, f.userId)
  {
    if rows == [] {
      assert (rows + [f])[1..] == [];
    } else {
      assert (rows + [f])[1..] == rows[1..] + [f];
      NewestListedFirst(rows[1..], f);
    }
  }

  /** The pairs the table holds. */
  function Pairs(rows: seq<Favorite>): set<(string, int)> {
    set k | 0 <= k < |rows| :: (rows[k].userId, rows[k].productId)
  }

  /** A missing field or a falsy value. */
  predicate Blank(field: Option<string>) { field.None? || PhpFalsy(field.value) }

  predicate BlankId(field: Option<int>) { field.None? || field.value == 0 }

  datatype GetResponse = MissingUser | Listed(productIds: seq<int>)

  datatype AddResponse = AddMissingFields | AlreadyPresent | Added

  datatype RemoveResponse = RemoveMissingFields | NotFound | Removed

  class FavoriteStore {
    var rows: seq<Favorite>
    /** Time of the latest insert, in seconds. */
    var clock: int

    ghost predicate Valid()
      reads this
    {
      Ordered(rows, DistinctPairs) &&
      (forall f :: f in rows ==> f.createdAt <= clock)
    }

    constructor(now: int)
      ensures Valid() && rows == [] && clock == now
    {
      rows := [];
      clock := now;
    }

    /** GET: the user's product ids, newest first. */
    method Get(userId: Option<string>) returns (resp: GetResponse)
      requires Valid()
      ensures resp == MissingUser <==> Blank(userId)
      ensures resp.Listed? ==> resp.productIds == FavoriteIds(rows, userId.value)
    {
      if Blank(userId) {
        return MissingUser;
      }
      return Listed(FavoriteIds(rows, userId.value));
    }

    /** POST: adding a pair that is already present inserts nothing. */
    method Add(userId: Option<string>, productId: Option<int>, now: int) returns (resp: AddResponse)
      requires Valid() && now >= clock
      modifies this
      ensures Valid()
      ensures resp == AddMissingFields <==> Blank(userId) || BlankId(productId)
      ensures resp == AlreadyPresent <==> !resp.AddMissingFields? && (userId.value, productId.value) in old(Pairs(rows))
      ensures resp != Added ==> rows == old(rows) && clock == old(clock)
      ensures resp == Added ==> rows == old(rows) + [Favorite(userId.value, productId.value, now)] && clock == now
      ensures resp != AddMissingFields ==> Pairs(rows) == old(Pairs(rows)) + {(userId.value, productId.value)}
    {
      if Blank(userId) || BlankId(productId) {
        return AddMissingFields;
      }
      var u, p := userId.value, productId.value;
      var k := 0;
      while k < |rows|
        invariant 0 <= k <= |rows|
        invariant forall j :: 0 <= j < k ==> !Pair(rows[j], u, p)
      {
        if Pair(rows[k], u, p) {
          assert (u, p) == (rows[k].userId, rows[k].productId);
          return AlreadyPresent;
        }
        k := k + 1;
      }
      assert (u, p) !in Pairs(rows);
      rows := rows + [Favorite(u, p, now)];
      clock := now;
      resp := Added;
      assert Pairs(rows) == old(Pairs(rows)) + {(u, p)} by {
        assert forall x :: x in Pairs(rows) ==> x in old(Pairs(rows)) || x == (u, p) by {
          forall x | x in Pairs(rows) ensures x in old(Pairs(rows)) || x == (u, p) {
            var j :| 0 <= j < |rows| && x == (rows[j].userId, rows[j].productId);
            if j < |old(rows)| {
              assert rows[j] == old(rows)[j];
            }
          }
        }
        assert (u, p) == (rows[|rows| - 1].userId, rows[|rows| - 1].productId);
        forall x | x in old(Pairs(rows)) ensures x in Pairs(rows) {
          var j :| 0 <= j < |old(rows)| && x == (old(rows)[j].userId, old(rows)[j].productId);
          assert rows[j] == old(rows)[j];
        }
      }
    }

    /** DELETE: removes the pair; a pair that is not present is reported and nothing changes. */
    method Remove(userId: Option<string>, productId: Option<int>) returns (resp: RemoveResponse)
      requires Valid()
      modifies this
      ensures Valid()
      ensures clock == old(clock)
      ensures resp == RemoveMissingFields <==> Blank(userId) || BlankId(productId)
      ensures resp == NotFound <==> !resp.RemoveMissingFields? && (userId.value, productId.value) !in old(Pairs(rows))
      ensures resp != Removed ==> rows == old(rows)
      ensures resp == Removed ==>
        rows == Filter(old(rows), f => !Pair(f, userId.value, productId.value)) &&
        Pairs(rows) == old(Pairs(rows)) - {(userId.value, productId.value)}
    {
      if Blank(userId) || BlankId(productId) {
        return RemoveMissingFields;
      }
      var u, p := userId.value, productId.value;
      if (u, p) !in Pairs(rows) {
        return NotFound;
      }
      var kept := Filter(rows, f => !Pair(f, u, p));
      FilterOrdered(rows, f => !Pair(f, u, p), DistinctPairs);
      PairsOfFilter(rows, u, p);
      rows := kept;
      return Removed;
    }
  }

  /** Removing the rows of one pair removes exactly that pair. */
  lemma {:induction false} PairsOfFilter(rows: seq<Favorite>, u: string, p: int)
    ensures Pairs(Filter(rows, f => !Pair(f, u, p))) == Pairs(rows) - {(u, p)}
  {
    var kept := Filter(rows, f => !Pair(f, u, p));
    forall x | x in Pairs(kept) ensures x in Pairs(rows) - {(u, p)} {
      var j :| 0 <= j < |kept| && x == (kept[j].userId, kept[j].productId);
      assert kept[j] in rows;
      var i :| 0 <= i < |rows| && rows[i] == kept[j];
    }
    forall x | x in Pairs(rows) - {(u, p)} ensures x in Pairs(kept) {
      var i :| 0 <= i < |rows| && x == (rows[i].userId, rows[i].productId);
      assert rows[i] in kept;
      var j :| 0 <= j < |kept| && kept[j] == rows[i];
    }
  }
}
