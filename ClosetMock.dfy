/** The earlier closet page, which worked on a hard-coded closet with Korean categories
    and a simulated fitting. Slots, their keys and the status are those of the closet page. */
module ClosetMock {
  import opened Base
  import Lists
  import opened Closet

  /** The category tabs, including two categories that have no fitting slot. */
  const Shoes: string := "신발"
  const Accessories: string := "액세서리"
  const MockCategories: seq<string> := [AllLabel, Tops, Bottoms, Outers, Shoes, Accessories]

  /** An item of the hard-coded closet; its category is already a Korean label. */
  datatype MockItem = MockItem(id: int, name: string, category: string)

  /** The hard-coded closet. */
  const MockCloset: seq<MockItem> := [
    MockItem(101, "오버핏 린넨 셔츠", Tops),
    MockItem(102, "와이드 치노 팬츠", Bottoms),
    MockItem(201, "쿨맥스 반팔 티", Tops),
    MockItem(202, "라이트 데님 쇼츠", Bottoms),
    MockItem(301, "그래픽 후디", Outers),
    MockItem(302, "카고 조거 팬츠", Bottoms),
    MockItem(401, "라이트 패딩", Outers),
    MockItem(402, "크롭 가디건", Outers)
  ]

  /** canAddToSlot: only tops, bottoms and outers can be put in a slot. */
  predicate CanAddToSlot(item: MockItem) {
    item.category == Tops || item.category == Bottoms || item.category == Outers
  }

  /** handleItemClick's update (behind the grid's `canAddToSlot &&` guard): the slot named by
      the item's category toggles between empty and the item's id; items of any other
      category never enter a slot. */
  function MockClick(slots: Slots, item: MockItem): (r: Slots)
    ensures !CanAddToSlot(item) ==> r == slots
    ensures CanAddToSlot(item) ==>
              var k := SlotNamed(item.category).value;
              && r.Get(k) == (if slots.Get(k) == Some(item.id) then None else Some(item.id))
              && forall j :: j != k ==> r.Get(j) == slots.Get(j)
  {
    match SlotNamed(item.category)
    case None => slots
    case Some(k) => slots.Set(k, if slots.Get(k) == Some(item.id) then None else Some(item.id))
  }

  /** A slot only ever holds the id of an item whose category is that slot's label. */
  ghost predicate SlotsMatchCategories(slots: Slots, closet: seq<MockItem>) {
    forall k :: slots.Get(k).Some? ==>
      exists item :: item in closet && item.id == slots.Get(k).value && item.category == Label(k)
  }

  /** Clicking closet items keeps every slot holding an item of its own category. */
  lemma MockClickKeepsCategories(slots: Slots, item: MockItem, closet: seq<MockItem>)
    requires SlotsMatchCategories(slots, closet) && item in closet
    ensures SlotsMatchCategories(MockClick(slots, item), closet)
  {
    var r := MockClick(slots, item);
    forall k | r.Get(k).Some?
      ensures exists x :: x in closet && x.id == r.Get(k).value && x.category == Label(k)
    {
      if CanAddToSlot(item) && k == SlotNamed(item.category).value && r.Get(k) == Some(item.id) {
        assert item.category == Label(k);
      } else {
        assert r.Get(k) == slots.Get(k);
      }
    }
  }

  /** filteredItems: everything for "전체", otherwise exactly the items of the selected
      category, in their original order. */
  function MockFilteredItems(items: seq<MockItem>, selected: string): (r: seq<MockItem>)
    ensures selected == AllLabel ==> r == items
    ensures selected != AllLabel ==> forall x :: x in r <==> x in items && x.category == selected
  {
    if selected == AllLabel then items
    else Lists.Filter(items, (x: MockItem) => x.category == selected)
  }

  /** The category filter keeps relative order. */
  lemma MockFilteredItemsKeepOrder(a: seq<MockItem>, b: seq<MockItem>, selected: string)
    ensures MockFilteredItems(a + b, selected) == MockFilteredItems(a, selected) + MockFilteredItems(b, selected)
  {
    if selected != AllLabel {
      Lists.FilterAppend(a, b, (x: MockItem) => x.category == selected);
    }
  }

  /** canFit of this page: a photo and at least one (truthy) slot; the status does not matter. */
  predicate MockCanFit(userPhoto: Option<string>, slots: Slots) {
    Truthy(userPhoto) && (IdTruthy(slots.top) || IdTruthy(slots.bottom) || IdTruthy(slots.outer))
  }

  /** The simulated result image. */
  const MockResult: string := "fitting-result"

  class MockClosetPage {
    var selectedCategory: string
    var slots: Slots
    var userPhoto: Option<string>
    var fittingResult: Option<string>
    var status: Status

    constructor ()
      ensures selectedCategory == AllLabel && slots == NoSlots
      ensures userPhoto == None && fittingResult == None && status == Idle
    {
      selectedCategory := AllLabel;
      slots := NoSlots;
      userPhoto := None;
      fittingResult := None;
      status := Idle;
    }

    /** A click on a grid item: `canAddToSlot && handleItemClick(item)`. */
    method HandleItemClick(item: MockItem)
      modifies this`slots
      ensures slots == MockClick(old(slots), item)
    {
      if item.category == Tops || item.category == Bottoms || item.category == Outers {
        var k := SlotNamed(item.category).value;
        slots := slots.Set(k, if slots.Get(k) == Some(item.id) then None else Some(item.id));
      }
    }

    /** handleRemoveFromSlot: empties exactly the named slot. */
    method HandleRemoveFromSlot(k: Slot)
      modifies this`slots
      ensures slots.Get(k) == None
      ensures forall j :: j != k ==> slots.Get(j) == old(slots).Get(j)
    {
      slots := slots.Set(k, None);
    }

    /** handlePhotoUpload: once the chosen file is read (`dataUrl`), it becomes the photo and
        any previous result is dropped. No file, no change. */
    method HandlePhotoUpload(dataUrl: Option<string>)
      modifies this`userPhoto, this`fittingResult, this`status
      ensures dataUrl.None? ==> userPhoto == old(userPhoto) && fittingResult == old(fittingResult) && status == old(status)
      ensures dataUrl.Some? ==> userPhoto == dataUrl && fittingResult == None && status == Idle
    {
      if dataUrl.Some? {
        userPhoto := dataUrl;
        fittingResult := None;
        status := Idle;
      }
    }

    /** The "사진 변경" button: photo and result dropped, back to idle. */
    method ChangePhoto()
      modifies this`userPhoto, this`fittingResult, this`status
      ensures userPhoto == None && fittingResult == None && status == Idle
    {
      userPhoto := None;
      fittingResult := None;
      status := Idle;
    }

    /** handleFitting, with the simulated delay taken as immediate: without a photo or a
        filled slot nothing happens; otherwise the page shows the simulated result. The slots
        are kept. */
    method HandleFitting()
      modifies this`fittingResult, this`status
      ensures !MockCanFit(userPhoto, slots) ==> fittingResult == old(fittingResult) && status == old(status)
      ensures MockCanFit(userPhoto, slots) ==> status == Completed && fittingResult == Some(MockResult)
    {
      var hasItems := IdTruthy(slots.top) || IdTruthy(slots.bottom) || IdTruthy(slots.outer);
      if !Truthy(userPhoto) || !hasItems {
        return;
      }
      status := Processing;
      fittingResult := Some(MockResult);
      status := Completed;
    }
  }
}
