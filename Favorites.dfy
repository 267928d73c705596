/** The favorites page: a paginated list of liked outfits, unliking, and saving an
    outfit's items to the closet. */
module Favorites {
  import opened Base
  import opened Lists

  /** A liked outfit as the page lists it. */
  datatype FavoriteOutfit = FavoriteOutfit(id: int, itemIds: seq<int>)

  /** `favorites.filter((f) => f.id !== outfitId)`, over any list whose entries have an id. */
  function Unliked<T(!new)>(favorites: seq<T>, idOf: T -> int, outfitId: int): (r: seq<T>)
    ensures |r| <= |favorites|
    ensures forall f :: f in r <==> f in favorites && idOf(f) != outfitId
  {
    Filter(favorites, f => idOf(f) != outfitId)
  }

  /** Unliking keeps the other favorites in their order: it works entry by entry. */
  lemma UnlikedKeepsOrder<T(!new)>(a: seq<T>, b: seq<T>, idOf: T -> int, outfitId: int)
    ensures Unliked(a + b, idOf, outfitId) == Unliked(a, idOf, outfitId) + Unliked(b, idOf, outfitId)
  {
    FilterAppend(a, b, f => idOf(f) != outfitId);
  }

  /** Unliking the same outfit twice is unliking it once. */
  lemma UnlikedIdempotent<T(!new)>(favorites: seq<T>, idOf: T -> int, outfitId: int)
    ensures Unliked(Unliked(favorites, idOf, outfitId), idOf, outfitId) == Unliked(favorites, idOf, outfitId)
  {
    FilterIdempotent(favorites, f => idOf(f) != outfitId);
  }

  /** Unliking an outfit that is not in the list changes nothing. */
  lemma UnlikedAbsent<T(!new)>(favorites: seq<T>, idOf: T -> int, outfitId: int)
    requires forall f :: f in favorites ==> idOf(f) != outfitId
    ensures Unliked(favorites, idOf, outfitId) == favorites
  {
    FilterKeepsAll(favorites, f => idOf(f) != outfitId);
  }

  const FetchFailed: string := "좋아요한 코디를 불러오는데 실패했습니다"
  const UnlikeFailed: string := "좋아요 취소에 실패했습니다"
  const AlreadySaved: string := "이미 옷장에 저장된 아이템입니다"
  const SavedToCloset: string := "✅ 옷장에 저장되었습니다!"
  const SaveFallback: string := "저장에 실패했습니다"

  /** What `getFavorites` gave: a page of outfits and the pagination, or an exception. */
  datatype FetchOutcome = Fetched(outfits: seq<FavoriteOutfit>, totalPages: int, hasNext: bool) | FetchThrew

  /** What `saveClosetItem` did. */
  datatype SaveOutcome = Saved | SaveFailed(message: Option<string>)

  function IdOf(f: FavoriteOutfit): int { f.id }

  class FavoritesPage {
    var favorites: seq<FavoriteOutfit>
    var loading: bool
    var error: string
    var savedItems: seq<int>
    var currentPage: int
    var totalPages: int
    var hasMore: bool

    ghost predicate Valid()
      reads this
    {
      currentPage >= 1 && NoDup(savedItems)
    }

    constructor ()
      ensures Valid() && favorites == [] && loading && error == "" && savedItems == []
      ensures currentPage == 1 && totalPages == 0 && !hasMore
    {
      favorites := [];
      loading := true;
      error := "";
      savedItems := [];
      currentPage := 1;
      totalPages := 0;
      hasMore := false;
    }

    /** fetchFavorites(page): a fetched page replaces the list and the pagination; a failure
        keeps them and shows the error. Loading ends either way. */
    method FetchFavorites(page: int, outcome: FetchOutcome)
      requires Valid() && page >= 1
      modifies this`favorites, this`loading, this`error, this`currentPage, this`totalPages, this`hasMore
      ensures Valid() && !loading
      ensures outcome.Fetched? ==>
                && favorites == outcome.outfits && currentPage == page && error == ""
                && totalPages == outcome.totalPages && hasMore == outcome.hasNext
      ensures outcome.FetchThrew? ==>
                && error == FetchFailed && favorites == old(favorites) && currentPage == old(currentPage)
                && totalPages == old(totalPages) && hasMore == old(hasMore)
    {
      loading := true;
      error := "";
      match outcome {
        case Fetched(outfits, pages, hasNext) =>
          favorites := outfits;
          currentPage := page;
          totalPages := pages;
          hasMore := hasNext;
        case FetchThrew =>
          error := FetchFailed;
      }
      loading := false;
    }

    /** The error view's retry button: fetch the current page again. */
    method Retry(outcome: FetchOutcome)
      requires Valid()
      modifies this`favorites, this`loading, this`error, this`currentPage, this`totalPages, this`hasMore
      ensures Valid() && !loading && currentPage == old(currentPage)
      ensures outcome.Fetched? ==>
                && favorites == outcome.outfits && error == ""
                && totalPages == outcome.totalPages && hasMore == outcome.hasNext
      ensures outcome.FetchThrew? ==>
                && error == FetchFailed && favorites == old(favorites)
                && totalPages == old(totalPages) && hasMore == old(hasMore)
    {
      FetchFavorites(currentPage, outcome);
    }

    /** handleUnlike: once the server removed it, the outfit leaves the list; otherwise the
        page alerts and the list is kept. */
    method HandleUnlike(outfitId: int, removed: bool) returns (alert: Option<string>)
      requires Valid()
      modifies this`favorites
      ensures Valid()
      ensures removed ==> favorites == Unliked(old(favorites), IdOf, outfitId) && alert == None
      ensures !removed ==> favorites == old(favorites) && alert == Some(UnlikeFailed)
    {
      if removed {
        favorites := Unliked(favorites, IdOf, outfitId);
        alert := None;
      } else {
        alert := Some(UnlikeFailed);
      }
    }

    /** handlePageChange: fetches only a page between 1 and the page count; any other page
        number changes nothing. */
    method HandlePageChange(newPage: int, outcome: FetchOutcome) returns (fetched: bool)
      requires Valid()
      modifies this`favorites, this`loading, this`error, this`currentPage, this`totalPages, this`hasMore
      ensures Valid()
      ensures fetched <==> 1 <= newPage <= old(totalPages)
      ensures !fetched ==>
                && favorites == old(favorites) && loading == old(loading) && error == old(error)
                && currentPage == old(currentPage) && totalPages == old(totalPages) && hasMore == old(hasMore)
      ensures fetched ==> !loading
      ensures fetched && outcome.Fetched? ==>
                && favorites == outcome.outfits && currentPage == newPage && error == ""
                && totalPages == outcome.totalPages && hasMore == outcome.hasNext
      ensures fetched && outcome.FetchThrew? ==>
                && error == FetchFailed && favorites == old(favorites) && currentPage == old(currentPage)
                && totalPages == old(totalPages) && hasMore == old(hasMore)
    {
      fetched := false;
      if newPage >= 1 && newPage <= totalPages {
        fetched := true;
        FetchFavorites(newPage, outcome);
      }
    }

    /** handleSaveToCloset: an item already saved is refused without a request; a successful
        save records the item; a failed one alerts with the server's message or the fallback. */
    method HandleSaveToCloset(itemId: int, outcome: SaveOutcome) returns (requested: bool, alert: string)
      requires Valid()
      modifies this`savedItems
      ensures Valid()
      ensures requested <==> itemId !in old(savedItems)
      ensures !requested ==> savedItems == old(savedItems) && alert == AlreadySaved
      ensures requested && outcome.Saved? ==> savedItems == old(savedItems) + [itemId] && alert == SavedToCloset
      ensures requested && outcome.SaveFailed? ==>
                savedItems == old(savedItems) && alert == OrElse(outcome.message, SaveFallback)
      ensures outcome.Saved? ==> itemId in savedItems
    {
      if itemId in savedItems {
        return false, AlreadySaved;
      }
      requested := true;
      match outcome {
        case Saved =>
          savedItems := savedItems + [itemId];
          alert := SavedToCloset;
        case SaveFailed(message) =>
          alert := OrElse(message, SaveFallback);
      }
    }
  }
}
