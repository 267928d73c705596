/** The earlier main page: the same carousel without a filter, over the first three
    outfits of the catalogue, with a like button and an "n / 3" indicator. */
module CarouselMock {
  import opened Base
  import opened Lists
  import Carousel

  /** The earlier page lists the first three outfits of the catalogue. */
  const MockOutfits: seq<Carousel.Outfit> := Carousel.AllOutfits[..3]

  class MockMainPage {
    var currentIndex: int
    var isTransitioning: bool
    var likedOutfits: seq<int>

    ghost predicate Valid()
      reads this
    {
      0 <= currentIndex < |MockOutfits| && NoDup(likedOutfits)
    }

    /** `outfits[currentIndex]`: always defined on this page. */
    function CurrentOutfit(): (r: Carousel.Outfit)
      reads this
      requires Valid()
      ensures r in MockOutfits && r.id == currentIndex + 1
    {
      MockOutfits[currentIndex]
    }

    /** isLiked: exactly membership of the current outfit's id. */
    predicate IsLiked()
      reads this
      requires Valid()
    {
      CurrentOutfit().id in likedOutfits
    }

    /** The "n / 3" indicator. */
    function PageIndicator(): (n: int)
      reads this
      requires Valid()
      ensures 1 <= n <= |MockOutfits| && n == CurrentOutfit().id
    {
      currentIndex + 1
    }

    constructor ()
      ensures Valid() && currentIndex == 0 && !isTransitioning && likedOutfits == []
    {
      currentIndex := 0;
      isTransitioning := false;
      likedOutfits := [];
    }

    /** handlePrev: one outfit back unless at the first or in a transition. */
    method HandlePrev()
      requires Valid()
      modifies this`currentIndex, this`isTransitioning
      ensures Valid() && isTransitioning == old(isTransitioning)
      ensures old(currentIndex) > 0 && !old(isTransitioning) ==> currentIndex == old(currentIndex) - 1
      ensures old(currentIndex) == 0 || old(isTransitioning) ==> currentIndex == old(currentIndex)
    {
      if currentIndex > 0 && !isTransitioning {
        isTransitioning := true;
        currentIndex := currentIndex - 1;
        isTransitioning := false;
      }
    }

    /** handleNext: one outfit on unless at the last or in a transition. */
    method HandleNext()
      requires Valid()
      modifies this`currentIndex, this`isTransitioning
      ensures Valid() && isTransitioning == old(isTransitioning)
      ensures old(currentIndex) < |MockOutfits| - 1 && !old(isTransitioning) ==> currentIndex == old(currentIndex) + 1
      ensures old(currentIndex) == |MockOutfits| - 1 || old(isTransitioning) ==> currentIndex == old(currentIndex)
    {
      if currentIndex < |MockOutfits| - 1 && !isTransitioning {
        isTransitioning := true;
        currentIndex := currentIndex + 1;
        isTransitioning := false;
      }
    }

    /** handleToggleLike: removes the current id if liked, otherwise appends it; other ids
        are untouched. */
    method HandleToggleLike()
      requires Valid()
      modifies this`likedOutfits
      ensures Valid()
      ensures likedOutfits == Toggle(old(likedOutfits), CurrentOutfit().id)
      ensures IsLiked() == !old(IsLiked())
      ensures forall id :: id != CurrentOutfit().id ==> (id in likedOutfits <==> id in old(likedOutfits))
    {
      var id := CurrentOutfit().id;
      ToggleNoDup(likedOutfits, id);
      if id in likedOutfits {
        likedOutfits := Without(likedOutfits, id);
      } else {
        likedOutfits := likedOutfits + [id];
      }
    }
  }
}
