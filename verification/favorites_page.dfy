/** The favourites page: the signed-in customer's favourite products and their hearts. */
module FavoritesPage {
  import opened Wrappers
  import opened Seqs
  import opened Domain
  import ClientServices
  import opened FavoriteIds

  function InIds(ids: seq<string>): Product -> bool {
    (p: Product) => p.id in ids
  }

  function IdIsNot(id: string): Product -> bool {
    (p: Product) => p.id != id
  }

  /** The products shown for a list of favourite ids: exactly those favourited, in catalogue order. */
  lemma {:induction false} ShownAreFavorites(all: seq<Product>, ids: seq<string>)
    ensures var shown := Filter(all, InIds(ids));
      IsSubsequence(shown, all) && forall p :: p in shown <==> p in all && p.id in ids
  {
    FilterIsSubsequence(all, InIds(ids));
  }

  class FavoritesPage {
    var loading: bool
    var favoriteIds: set<string>
    var favoriteProducts: seq<Product>

    constructor()
      ensures loading && favoriteIds == {} && favoriteProducts == []
    {
      loading := true;
      favoriteIds := {};
      favoriteProducts := [];
    }

    /**
     * Opening the page for `userId`: without a user nothing is fetched and
     * loading ends. Otherwise the ids are fetched (`fetchedIds` is None
     * when that request fails); no ids empty the list without fetching
     * the catalogue; otherwise the catalogue (`catalogue`, None on
     * failure) is filtered to the favourites.
     */
    method Open(userId: Option<string>, fetchedIds: Option<seq<string>>, catalogue: Option<seq<Product>>)
      returns (catalogueFetched: bool)
      modifies this
      ensures !loading
      ensures userId.None? || userId.value == "" || fetchedIds.None? ==>
        !catalogueFetched && favoriteIds == old(favoriteIds) && favoriteProducts == old(favoriteProducts)
      ensures userId.Some? && userId.value != "" && fetchedIds.Some? ==> (
        favoriteIds == (set i | i in fetchedIds.value) &&
        (catalogueFetched <==> fetchedIds.value != []) &&
        (fetchedIds.value == [] ==> favoriteProducts == []) &&
        (fetchedIds.value != [] && catalogue.Some? ==>
          favoriteProducts == Filter(catalogue.value, InIds(fetchedIds.value))) &&
        (fetchedIds.value != [] && catalogue.None? ==> favoriteProducts == old(favoriteProducts)))
    {
      catalogueFetched := false;
      if userId.None? || userId.value == "" {
        loading := false;
        return;
      }
      loading := true;
      if fetchedIds.None? {
        loading := false;
        return;
      }
      var ids := fetchedIds.value;
      favoriteIds := set i | i in ids;
      if |ids| == 0 {
        favoriteProducts := [];
        loading := false;
        return;
      }
      catalogueFetched := true;
      if catalogue.Some? {
        favoriteProducts := Filter(catalogue.value, InIds(ids));
      }
      loading := false;
    }

    /**
     * `handleToggleFavorite`: nothing without a user; otherwise the service
     * is asked to add or remove, and on success the heart flips and an
     * unfavourited product leaves the list. Favouriting never adds to it.
     */
    method ToggleFavorite(userId: Option<string>, productId: string, succeeded: bool)
      returns (call: Option<ClientServices.FavoriteCall>)
      modifies this
      ensures loading == old(loading)
      ensures userId.None? || userId.value == "" ==>
        call.None? && favoriteIds == old(favoriteIds) && favoriteProducts == old(favoriteProducts)
      ensures userId.Some? && userId.value != "" ==>
        call == Some(ClientServices.ToggleCall(productId in old(favoriteIds)))
      ensures userId.Some? && userId.value != "" && succeeded ==> favoriteIds == Toggled(old(favoriteIds), productId)
      ensures !(userId.Some? && userId.value != "" && succeeded) ==> favoriteIds == old(favoriteIds)
      ensures userId.Some? && userId.value != "" && succeeded && productId in old(favoriteIds) ==>
        favoriteProducts == Filter(old(favoriteProducts), IdIsNot(productId))
      ensures !(userId.Some? && userId.value != "" && succeeded && productId in old(favoriteIds)) ==>
        favoriteProducts == old(favoriteProducts)
    {
      call := None;
      if userId.None? || userId.value == "" {
        return;
      }
      var isFavorited := productId in favoriteIds;
      call := Some(ClientServices.ToggleCall(isFavorited));
      if !succeeded {
        return;
      }
      var next := favoriteIds;
      if isFavorited {
        next := next - {productId};
      } else {
        next := next + {productId};
      }
      favoriteIds := next;
      if isFavorited {
        favoriteProducts := Filter(favoriteProducts, IdIsNot(productId));
      }
    }
  }

  /** After an unfavourite the product is gone from the list and the rest keep their order. */
  lemma {:induction false} UnfavoritedLeavesList(shown: seq<Product>, id: string)
    ensures var after := Filter(shown, IdIsNot(id));
      IsSubsequence(after, shown) && forall p :: p in after ==> p.id != id
  {
    FilterIsSubsequence(shown, IdIsNot(id));
  }
}
