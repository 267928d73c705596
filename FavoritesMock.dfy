/** The earlier favorites page: three hard-coded liked outfits, an unlike button on each,
    and an empty-state view once none is left. */
module FavoritesMock {
  import opened Favorites

  /** A hard-coded liked outfit. */
  datatype MockFavorite = MockFavorite(id: int, style: string, season: string, description: string, likedAt: string)

  const InitialFavorites: seq<MockFavorite> := [
    MockFavorite(1, "캐주얼", "봄", "편안한 봄 캐주얼 룩", "2025-01-15"),
    MockFavorite(2, "미니멀", "여름", "시원한 여름 미니멀 룩", "2025-01-14"),
    MockFavorite(3, "스트릿", "가을", "트렌디한 가을 스트릿 룩", "2025-01-13")
  ]

  function MockIdOf(f: MockFavorite): int { f.id }

  class MockFavoritesPage {
    var favorites: seq<MockFavorite>

    constructor ()
      ensures favorites == InitialFavorites
    {
      favorites := InitialFavorites;
    }

    /** The empty-state view replaces the grid exactly when no favorite is left. */
    predicate ShowsEmptyState()
      reads this
    {
      !(|favorites| > 0)
    }

    /** handleUnlike: every favorite with this id leaves the list; the rest keep their order. */
    method HandleUnlike(outfitId: int)
      modifies this`favorites
      ensures favorites == Unliked(old(favorites), MockIdOf, outfitId)
      ensures forall f :: f in favorites ==> f.id != outfitId
      ensures ShowsEmptyState() <==> forall f :: f in old(favorites) ==> f.id == outfitId
    {
      favorites := Unliked(favorites, MockIdOf, outfitId);
      if favorites != [] {
        assert favorites[0] in favorites;
      }
    }
  }
}
