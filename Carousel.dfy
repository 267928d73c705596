/** The main page: a carousel over the outfit catalogue, narrowed by a season/style
    multi-select filter, with liked outfits and items saved to the closet. */
module Carousel {
  import opened Base
  import opened Lists

  /** An outfit of the catalogue, with the ids of its items. */
  datatype Outfit = Outfit(id: int, style: string, season: string, itemIds: seq<int>)

  const Seasons: seq<string> := ["봄", "여름", "가을", "겨울"]
  const Styles: seq<string> := ["캐주얼", "미니멀", "스트릿", "스포티"]

  /** The catalogue shown by the page. */
  const AllOutfits: seq<Outfit> := [
    Outfit(1, "캐주얼", "봄", [101, 102, 103]),
    Outfit(2, "미니멀", "여름", [201, 202, 203]),
    Outfit(3, "스트릿", "가을", [301, 302, 303]),
    Outfit(4, "스포티", "여름", [401, 402, 403]),
    Outfit(5, "미니멀", "겨울", [501, 502, 503])
  ]

  /** The filter test: no season selected or the outfit's season selected, and the same for styles. */
  predicate Matches(o: Outfit, seasons: seq<string>, styles: seq<string>) {
    (|seasons| == 0 || o.season in seasons) && (|styles| == 0 || o.style in styles)
  }

  /** filteredOutfits: the outfits passing the filter, in catalogue order. */
  function FilteredOutfits(all: seq<Outfit>, seasons: seq<string>, styles: seq<string>): (r: seq<Outfit>)
    ensures |r| <= |all|
    ensures forall o :: o in r <==>
              o in all && (seasons == [] || o.season in seasons) && (styles == [] || o.style in styles)
  {
    Filter(all, o => Matches(o, seasons, styles))
  }

  /** With nothing selected the whole catalogue is shown, in order. */
  lemma NoFilterShowsAll(all: seq<Outfit>)
    ensures FilteredOutfits(all, [], []) == all
  {
    FilterKeepsAll(all, o => Matches(o, [], []));
  }

  /** The filter keeps catalogue order: it works element by element. */
  lemma FilteredOutfitsKeepOrder(a: seq<Outfit>, b: seq<Outfit>, seasons: seq<string>, styles: seq<string>)
    ensures FilteredOutfits(a + b, seasons, styles) == FilteredOutfits(a, seasons, styles) + FilteredOutfits(b, seasons, styles)
  {
    FilterAppend(a, b, o => Matches(o, seasons, styles));
  }

  /** The filter depends only on which seasons and styles are selected, not on the order
      in which they were picked. */
  lemma FilterDependsOnMembersOnly(all: seq<Outfit>, s1: seq<string>, s2: seq<string>, t1: seq<string>, t2: seq<string>)
    requires forall x :: x in s1 <==> x in s2
    requires forall x :: x in t1 <==> x in t2
    ensures FilteredOutfits(all, s1, t1) == FilteredOutfits(all, s2, t2)
  {
    assert |s1| == 0 <==> |s2| == 0 by {
      if |s1| > 0 { assert s1[0] in s2; }
      if |s2| > 0 { assert s2[0] in s1; }
    }
    assert |t1| == 0 <==> |t2| == 0 by {
      if |t1| > 0 { assert t1[0] in t2; }
      if |t2| > 0 { assert t2[0] in t1; }
    }
    FilterSamePredicate(all, o => Matches(o, s1, t1), o => Matches(o, s2, t2));
  }

  /** Clicking the same season chip twice shows the same outfits as before, whether or not
      it was selected (a selected season comes back at the end of the list). */
  lemma SeasonToggleTwiceSameOutfits(all: seq<Outfit>, seasons: seq<string>, styles: seq<string>, season: string)
    ensures FilteredOutfits(all, Toggle(Toggle(seasons, season), season), styles) == FilteredOutfits(all, seasons, styles)
  {
    FilterDependsOnMembersOnly(all, Toggle(Toggle(seasons, season), season), seasons, styles, styles);
  }

  /** Likewise for a style chip. */
  lemma StyleToggleTwiceSameOutfits(all: seq<Outfit>, seasons: seq<string>, styles: seq<string>, style: string)
    ensures FilteredOutfits(all, seasons, Toggle(Toggle(styles, style), style)) == FilteredOutfits(all, seasons, styles)
  {
    FilterDependsOnMembersOnly(all, seasons, seasons, Toggle(Toggle(styles, style), style), styles);
  }

  /** The carousel position is within the filtered list, or 0 when the list is empty. */
  predicate IndexInRange(index: int, count: int) {
    0 <= index && (index == 0 || index < count)
  }

  class MainPage {
    var currentIndex: int
    var isTransitioning: bool
    var likedOutfits: seq<int>
    var savedItems: seq<int>
    var selectedSeasons: seq<string>
    var selectedStyles: seq<string>

    /** The outfits the filter lets through. */
    function Filtered(): (r: seq<Outfit>)
      reads this
      ensures forall o :: o in r <==> o in AllOutfits && Matches(o, selectedSeasons, selectedStyles)
    {
      FilteredOutfits(AllOutfits, selectedSeasons, selectedStyles)
    }

    ghost predicate Valid()
      reads this
    {
      IndexInRange(currentIndex, |Filtered()|) && NoDup(likedOutfits) && NoDup(savedItems)
    }

    /** `filteredOutfits[currentIndex]`, `undefined` when the filter leaves nothing. */
    function CurrentOutfit(): (r: Option<Outfit>)
      reads this
      requires Valid()
      ensures r.Some? <==> |Filtered()| > 0
      ensures r.Some? ==> r.value in AllOutfits && Matches(r.value, selectedSeasons, selectedStyles)
    {
      if currentIndex < |Filtered()| then Some(Filtered()[currentIndex]) else None
    }

    /** isLiked: there is a current outfit and its id is liked. */
    predicate IsLiked()
      reads this
      requires Valid()
    {
      CurrentOutfit().Some? && CurrentOutfit().value.id in likedOutfits
    }

    constructor ()
      ensures Valid() && currentIndex == 0 && !isTransitioning
      ensures likedOutfits == [] && savedItems == [] && selectedSeasons == [] && selectedStyles == []
    {
      currentIndex := 0;
      isTransitioning := false;
      likedOutfits := [];
      savedItems := [];
      selectedSeasons := [];
      selectedStyles := [];
    }

    /** toggleSeason, then the effect that resets the carousel to the first outfit. */
    method ToggleSeason(season: string)
      requires Valid()
      modifies this`selectedSeasons, this`currentIndex
      ensures Valid()
      ensures selectedSeasons == Toggle(old(selectedSeasons), season) && currentIndex == 0
    {
      selectedSeasons := Toggle(selectedSeasons, season);
      currentIndex := 0;
    }

    /** toggleStyle, then the same reset. */
    method ToggleStyle(style: string)
      requires Valid()
      modifies this`selectedStyles, this`currentIndex
      ensures Valid()
      ensures selectedStyles == Toggle(old(selectedStyles), style) && currentIndex == 0
    {
      selectedStyles := Toggle(selectedStyles, style);
      currentIndex := 0;
    }

    /** handlePrev: one outfit back unless at the first or in a transition. */
    method HandlePrev()
      requires Valid()
      modifies this`currentIndex, this`isTransitioning
      ensures Valid() && isTransitioning == old(isTransitioning)
      ensures old(currentIndex) > 0 && !old(isTransitioning) ==> currentIndex == old(currentIndex) - 1
      ensures old(currentIndex) == 0 || old(isTransitioning) ==> currentIndex == old(currentIndex)
    {
      if currentIndex > 0 && !isTransitioning {
        isTransitioning := true;
        currentIndex := currentIndex - 1;
        isTransitioning := false;
      }
    }

    /** handleNext: one outfit on unless at the last or in a transition. */
    method HandleNext()
      requires Valid()
      modifies this`currentIndex, this`isTransitioning
      ensures Valid() && isTransitioning == old(isTransitioning)
      ensures old(currentIndex) < |Filtered()| - 1 && !old(isTransitioning) ==> currentIndex == old(currentIndex) + 1
      ensures old(currentIndex) >= |Filtered()| - 1 || old(isTransitioning) ==> currentIndex == old(currentIndex)
    {
      if currentIndex < |Filtered()| - 1 && !isTransitioning {
        isTransitioning := true;
        currentIndex := currentIndex + 1;
        isTransitioning := false;
      }
    }

    /** handleToggleLike: flips whether the current outfit is liked; nothing without one. */
    method HandleToggleLike()
      requires Valid()
      modifies this`likedOutfits
      ensures Valid()
      ensures CurrentOutfit().None? ==> likedOutfits == old(likedOutfits)
      ensures CurrentOutfit().Some? ==>
                && likedOutfits == Toggle(old(likedOutfits), CurrentOutfit().value.id)
                && IsLiked() == !old(IsLiked())
    {
      var current := CurrentOutfit();
      if current.None? {
        return;
      }
      var id := current.value.id;
      ToggleNoDup(likedOutfits, id);
      if id in likedOutfits {
        likedOutfits := Without(likedOutfits, id);
      } else {
        likedOutfits := likedOutfits + [id];
      }
    }

    /** An item's "+ Closet" / "Saved ✓" button: flips whether the item is saved. */
    method ToggleSavedItem(itemId: int)
      requires Valid()
      modifies this`savedItems
      ensures Valid()
      ensures savedItems == Toggle(old(savedItems), itemId)
      ensures itemId in savedItems <==> itemId !in old(savedItems)
    {
      ToggleNoDup(savedItems, itemId);
      if itemId in savedItems {
        savedItems := Without(savedItems, itemId);
      } else {
        savedItems := savedItems + [itemId];
      }
    }
  }
}
