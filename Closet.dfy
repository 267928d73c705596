/** The closet page's virtual fitting: three slots (top / bottom / outer) holding at
    most one closet item each, the fitting request built from them, and how the page
    status follows the outcome of a fitting job, both for a fresh fitting and for the
    job restored when the page is opened. */
module Closet {
  import opened Base
  import Lists

  /** The Korean category labels the slots and the category tabs use. */
  const Tops: string := "상의"
  const Bottoms: string := "하의"
  const Outers: string := "아우터"
  const AllLabel: string := "전체"

  /** The category tabs shown above the item grid. */
  const Categories: seq<string> := [AllLabel, Tops, Bottoms, Outers]

  /** CATEGORY_MAP: Korean label to the backend's fitting category. */
  function FittingCategoryOf(korean: string): Option<string> {
    if korean == Tops then Some("top")
    else if korean == Bottoms then Some("bottom")
    else if korean == Outers then Some("outer")
    else None
  }

  /** CATEGORY_MAP_REVERSE: the backend's fitting category to its Korean label. */
  function KoreanOf(category: string): Option<string> {
    if category == "top" then Some(Tops)
    else if category == "bottom" then Some(Bottoms)
    else if category == "outer" then Some(Outers)
    else None
  }

  /** The two category maps are inverse to each other. */
  lemma CategoryMapsInverse(korean: string, category: string)
    ensures FittingCategoryOf(korean) == Some(category) <==> KoreanOf(category) == Some(korean)
  {
  }

  /** The three slots of the fitting panel. */
  datatype Slot = Top | Bottom | Outer

  /** The Korean key under which a slot is stored. */
  function Label(k: Slot): string {
    match k
    case Top => Tops
    case Bottom => Bottoms
    case Outer => Outers
  }

  /** The slot stored under a Korean key, if any. */
  function SlotNamed(korean: string): (r: Option<Slot>)
    ensures r.Some? <==> korean in {Tops, Bottoms, Outers}
    ensures r.Some? ==> Label(r.value) == korean
  {
    if korean == Tops then Some(Top)
    else if korean == Bottoms then Some(Bottom)
    else if korean == Outers then Some(Outer)
    else None
  }

  /** The fitting category sent to the backend for the items of a slot. */
  function CategoryOfSlot(k: Slot): (c: string)
    ensures FittingCategoryOf(Label(k)) == Some(c)
    ensures KoreanOf(c) == Some(Label(k))
  {
    FittingCategoryOf(Label(k)).value
  }

  /** The `fittingSlots` object: one nullable item id per slot. */
  datatype Slots = Slots(top: Option<int>, bottom: Option<int>, outer: Option<int>) {

    function Get(k: Slot): Option<int> {
      match k
      case Top => top
      case Bottom => bottom
      case Outer => outer
    }

    /** `{...prev, [k]: v}` */
    function Set(k: Slot, v: Option<int>): (r: Slots)
      ensures r.Get(k) == v
      ensures forall j :: j != k ==> r.Get(j) == Get(j)
    {
      match k
      case Top => this.(top := v)
      case Bottom => this.(bottom := v)
      case Outer => this.(outer := v)
    }
  }

  const NoSlots: Slots := Slots(None, None, None)

  /** A closet item as the closet API returns it; only the id and category matter here. */
  datatype ClosetItem = ClosetItem(id: int, name: string, category: string)

  /** The slot an item of this backend category goes to, if any. */
  function SlotOf(category: string): (r: Option<Slot>)
    ensures r.Some? <==> KoreanOf(category).Some?
    ensures r.Some? ==> KoreanOf(category) == Some(Label(r.value))
  {
    match KoreanOf(category)
    case None => None
    case Some(korean) => SlotNamed(korean)
  }

  /** handleItemClick's update: the item's slot toggles between empty and the item's id;
      an item whose category has no slot changes nothing. */
  function ClickItem(slots: Slots, item: ClosetItem): (r: Slots)
    ensures SlotOf(item.category).None? ==> r == slots
    ensures SlotOf(item.category).Some? ==>
              var k := SlotOf(item.category).value;
              && (slots.Get(k) == Some(item.id) ==> r.Get(k) == None)
              && (slots.Get(k) != Some(item.id) ==> r.Get(k) == Some(item.id))
              && forall j :: j != k ==> r.Get(j) == slots.Get(j)
  {
    match SlotOf(item.category)
    case None => slots
    case Some(k) => slots.Set(k, if slots.Get(k) == Some(item.id) then None else Some(item.id))
  }

  /** Clicking the same item twice restores the slots, unless its slot held another item
      before the first click (that item is then replaced, and the second click empties the slot). */
  lemma ClickItemTwice(slots: Slots, item: ClosetItem)
    requires SlotOf(item.category).Some? ==>
               slots.Get(SlotOf(item.category).value) in {None, Some(item.id)}
    ensures ClickItem(ClickItem(slots, item), item) == slots
  {
    match SlotOf(item.category)
    case None =>
    case Some(k) =>
      var once := ClickItem(slots, item);
      var twice := ClickItem(once, item);
      assert forall j :: twice.Get(j) == slots.Get(j);
      assert twice.Get(Top) == slots.Get(Top);
      assert twice.Get(Bottom) == slots.Get(Bottom);
      assert twice.Get(Outer) == slots.Get(Outer);
  }

  /** One element of the fitting request. */
  datatype FittingItem = FittingItem(itemId: int, category: string)

  /** The request entry of one slot: nothing for an empty slot. */
  function Entry(slots: Slots, k: Slot): seq<FittingItem> {
    if slots.Get(k).Some? then [FittingItem(slots.Get(k).value, CategoryOfSlot(k))] else []
  }

  /** `selectedItems` of handleFitting: one `{itemId, category}` per filled slot, in the
      slots object's key order, with the English category. */
  function FittingRequest(slots: Slots): (r: seq<FittingItem>)
    ensures |r| <= 3
    ensures r == [] <==> slots == NoSlots
    ensures forall k :: slots.Get(k).Some? ==> FittingItem(slots.Get(k).value, CategoryOfSlot(k)) in r
    ensures forall e :: e in r ==> exists k :: slots.Get(k) == Some(e.itemId) && e.category == CategoryOfSlot(k)
    ensures forall i, j :: 0 <= i < j < |r| ==> r[i].category != r[j].category
  {
    Entry(slots, Top) + Entry(slots, Bottom) + Entry(slots, Outer)
  }

  /** A slot filled by clicking an item sends that item back with the category it came with:
      the two category maps round-trip through the request. */
  lemma ClickedItemIsRequested(slots: Slots, item: ClosetItem)
    requires SlotOf(item.category).Some?
    requires slots.Get(SlotOf(item.category).value) != Some(item.id)
    ensures FittingItem(item.id, item.category) in FittingRequest(ClickItem(slots, item))
  {
    var k := SlotOf(item.category).value;
    CategoryMapsInverse(Label(k), item.category);
    assert CategoryOfSlot(k) == item.category;
  }

  /** The page status of a fitting. */
  datatype Status = Idle | Processing | Completed

  /** JavaScript truthiness of a nullable item id: `0` counts as empty. */
  predicate IdTruthy(id: Option<int>) {
    id.Some? && id.value != 0
  }

  /** canFit: a photo, at least one (truthy) slot, and no result on show. */
  predicate CanFit(userPhoto: Option<string>, slots: Slots, status: Status) {
    Truthy(userPhoto) && (IdTruthy(slots.top) || IdTruthy(slots.bottom) || IdTruthy(slots.outer))
    && status != Completed
  }

  /** Whenever the fitting button is enabled, handleFitting builds a non-empty request, and
      with non-zero ids the two agree: canFit holds exactly when a photo is present, no
      result is on show and the request is non-empty. */
  lemma CanFitMeansRequest(userPhoto: Option<string>, slots: Slots, status: Status)
    ensures CanFit(userPhoto, slots, status) ==> FittingRequest(slots) != []
    ensures (forall k :: slots.Get(k) != Some(0)) ==>
              (CanFit(userPhoto, slots, status) <==>
                 Truthy(userPhoto) && status != Completed && FittingRequest(slots) != [])
  {
    if forall k :: slots.Get(k) != Some(0) {
      assert slots.Get(Top) != Some(0) && slots.Get(Bottom) != Some(0) && slots.Get(Outer) != Some(0);
    }
  }

  /** The fitting button: `disabled={!canFit || fittingStatus === "processing"}`. */
  predicate FittingButtonEnabled(userPhoto: Option<string>, slots: Slots, status: Status) {
    CanFit(userPhoto, slots, status) && status != Processing
  }

  /** A click on an enabled fitting button comes from an idle page with a photo, and the
      request handleFitting builds from the slots holds every filled slot and is never the
      empty selection it refuses. */
  lemma EnabledButtonSendsRequest(userPhoto: Option<string>, slots: Slots, status: Status)
    requires FittingButtonEnabled(userPhoto, slots, status)
    ensures status == Idle && Truthy(userPhoto)
    ensures slots != NoSlots && 1 <= |FittingRequest(slots)| <= 3
  {
    CanFitMeansRequest(userPhoto, slots, status);
  }

  /** filteredItems: every item for the "전체" tab, otherwise the items whose backend category
      maps to the selected Korean label, in their original order. */
  function FilteredItems(items: seq<ClosetItem>, selected: string): (r: seq<ClosetItem>)
    ensures selected == AllLabel ==> r == items
    ensures selected != AllLabel ==>
              forall x :: x in r <==> x in items && KoreanOf(x.category) == Some(selected)
  {
    if selected == AllLabel then items
    else Lists.Filter(items, (x: ClosetItem) => KoreanOf(x.category) == Some(selected))
  }

  /** The filter keeps relative order: filtering a concatenation filters each part. */
  lemma FilteredItemsKeepOrder(a: seq<ClosetItem>, b: seq<ClosetItem>, selected: string)
    ensures FilteredItems(a + b, selected) == FilteredItems(a, selected) + FilteredItems(b, selected)
  {
    if selected != AllLabel {
      Lists.FilterAppend(a, b, (x: ClosetItem) => KoreanOf(x.category) == Some(selected));
    }
  }

  /** The absolute photo URL: backend paths are prefixed with the backend's origin. */
  function FullPhotoUrl(url: string): (r: string)
    ensures |url| >= 4 && url[..4] == "http" ==> r == url
    ensures |r| >= 4 && r[..4] == "http"
  {
    if |url| >= 4 && url[..4] == "http" then url else "http://localhost:8000" + url
  }

  /** Making an absolute URL absolute again changes nothing. */
  lemma FullPhotoUrlIdempotent(url: string)
    ensures FullPhotoUrl(FullPhotoUrl(url)) == FullPhotoUrl(url)
  {
  }

  /** What `pollFittingStatus` (or the request starting the job) ended with. */
  datatype FitOutcome =
    | FitCompleted(resultImageUrl: Option<string>, llmMessage: Option<string>)
    | FitFailed(error: Option<string>)
    | FitTimeout
    | FitStillProcessing                // a resolved poll whose status is still "processing"
    | FitThrew(message: Option<string>) // a rejected promise; the message from the error response

  /** The status of a job in the fitting history. */
  datatype JobStatus = JobProcessing | JobCompleted | JobFailed | JobTimeout

  /** One entry of the fitting history, newest first. */
  datatype HistoryEntry = HistoryEntry(jobId: int, status: JobStatus, resultImageUrl: Option<string>)

  /** The outcome of uploading a profile photo. A failure carries the error message of the
      server's response (`err.response?.data?.error?.message`) and the message of the
      exception itself (`err.message`), either of which may be absent. */
  datatype UploadOutcome = Uploaded(photoUrl: string) | UploadFailed(responseMessage: Option<string>, errorMessage: Option<string>)

  const StartingText: string := "피팅 시작 중..."
  const ResumingText: string := "이전 작업을 계속 진행 중입니다..."

  /** The closet page's state, one field per `useState` the fitting logic uses. */
  class ClosetPage {
    var closetItems: seq<ClosetItem>
    var selectedCategory: string
    var slots: Slots
    var userPhoto: Option<string>
    var fittingResult: Option<string>
    var status: Status
    var progress: string
    var llmMessage: Option<string>

    constructor ()
      ensures closetItems == [] && selectedCategory == AllLabel && slots == NoSlots
      ensures userPhoto == None && fittingResult == None && status == Idle
      ensures progress == "" && llmMessage == None
    {
      closetItems := [];
      selectedCategory := AllLabel;
      slots := NoSlots;
      userPhoto := None;
      fittingResult := None;
      status := Idle;
      progress := "";
      llmMessage := None;
    }

    /** loadClosetItems: a successful response replaces the items; a failure keeps them. */
    method LoadClosetItems(response: Option<seq<ClosetItem>>)
      modifies this`closetItems
      ensures closetItems == if response.Some? then response.value else old(closetItems)
    {
      if response.Some? {
        closetItems := response.value;
      }
    }

    /** A category tab click. */
    method SelectCategory(category: string)
      modifies this`selectedCategory
      ensures selectedCategory == category
    {
      selectedCategory := category;
    }

    /** The items shown under the selected tab: exactly the tab's items, and since they are
        filteredItems of the closet, in the closet's order (FilteredItemsKeepOrder). */
    function Shown(): (r: seq<ClosetItem>)
      reads this
      ensures selectedCategory == AllLabel ==> r == closetItems
      ensures selectedCategory != AllLabel ==>
                forall x :: x in r <==> x in closetItems && KoreanOf(x.category) == Some(selectedCategory)
      ensures r == FilteredItems(closetItems, selectedCategory)
    {
      FilteredItems(closetItems, selectedCategory)
    }

    /** handleItemClick. */
    method HandleItemClick(item: ClosetItem)
      modifies this`slots
      ensures slots == ClickItem(old(slots), item)
    {
      var korean := KoreanOf(item.category);
      if korean.None? {
        return;
      }
      var k := SlotNamed(korean.value).value;
      slots := slots.Set(k, if slots.Get(k) == Some(item.id) then None else Some(item.id));
    }

    /** handleRemoveFromSlot: empties exactly the named slot. */
    method HandleRemoveFromSlot(k: Slot)
      modifies this`slots
      ensures slots.Get(k) == None
      ensures forall j :: j != k ==> slots.Get(j) == old(slots).Get(j)
    {
      slots := slots.Set(k, None);
    }

    /** The profile photo restored on page load from the signed-in user's profile. */
    method RestoreProfilePhoto(profileImageUrl: Option<string>)
      modifies this`userPhoto
      ensures userPhoto == if Truthy(profileImageUrl) then Some(FullPhotoUrl(profileImageUrl.value)) else old(userPhoto)
    {
      if Truthy(profileImageUrl) {
        userPhoto := Some(FullPhotoUrl(profileImageUrl.value));
      }
    }

    /** handlePhotoUpload: with a file chosen, a successful upload shows the new photo and
        drops the previous result; a failed one only alerts. Returns the alert text. */
    method HandlePhotoUpload(fileChosen: bool, outcome: UploadOutcome) returns (alert: Option<string>)
      modifies this`userPhoto, this`fittingResult, this`status
      ensures !fileChosen || outcome.UploadFailed? ==>
                userPhoto == old(userPhoto) && fittingResult == old(fittingResult) && status == old(status)
      ensures fileChosen && outcome.Uploaded? ==>
                userPhoto == Some(FullPhotoUrl(outcome.photoUrl)) && fittingResult == None && status == Idle
      ensures !fileChosen ==> alert == None
      ensures fileChosen && outcome.Uploaded? ==> alert == Some("사진이 업로드되었습니다!")
      ensures fileChosen && outcome.UploadFailed? ==>
                alert == Some("업로드 실패: " + OrElse(outcome.responseMessage, OrElse(outcome.errorMessage, "사진 업로드 실패")))
    {
      if !fileChosen {
        return None;
      }
      match outcome
      case Uploaded(url) =>
        userPhoto := Some(FullPhotoUrl(url));
        fittingResult := None;
        status := Idle;
        alert := Some("사진이 업로드되었습니다!");
      case UploadFailed(responseMessage, errorMessage) =>
        alert := Some("업로드 실패: " + OrElse(responseMessage, OrElse(errorMessage, "사진 업로드 실패")));
    }

    /** The "다시 피팅" button on a shown result: back to idle, slots untouched. */
    method ResetResult()
      modifies this`fittingResult, this`llmMessage, this`status
      ensures fittingResult == None && llmMessage == None && status == Idle
    {
      fittingResult := None;
      llmMessage := None;
      status := Idle;
    }

    /** handleFitting, from the click to the settled outcome. An empty selection only alerts.
        Otherwise `request` is what is sent; a completed job shows its result and empties the
        slots, any other terminal outcome returns to idle with the slots untouched. */
    method HandleFitting(outcome: FitOutcome) returns (request: Option<seq<FittingItem>>, alert: Option<string>)
      modifies this`slots, this`fittingResult, this`llmMessage, this`status, this`progress
      ensures old(slots) == NoSlots ==>
                && request == None && alert == Some("최소 1개 이상의 아이템을 선택해주세요")
                && slots == old(slots) && fittingResult == old(fittingResult)
                && llmMessage == old(llmMessage) && status == old(status) && progress == old(progress)
      ensures old(slots) != NoSlots ==> request == Some(FittingRequest(old(slots)))
      ensures FittingButtonEnabled(old(userPhoto), old(slots), old(status)) ==>
                request == Some(FittingRequest(old(slots))) && FittingRequest(old(slots)) != []
      ensures old(slots) != NoSlots && outcome.FitCompleted? ==>
                && fittingResult == NullIfFalsy(outcome.resultImageUrl)
                && llmMessage == NullIfFalsy(outcome.llmMessage)
                && status == Completed && progress == "" && slots == NoSlots && alert == None
      ensures old(slots) != NoSlots && (outcome.FitFailed? || outcome.FitTimeout? || outcome.FitThrew?) ==>
                && status == Idle && progress == "" && slots == old(slots)
                && fittingResult == old(fittingResult) && llmMessage == old(llmMessage)
      ensures old(slots) != NoSlots && outcome.FitFailed? ==>
                alert == Some("피팅 실패: " + OrElse(outcome.error, "알 수 없는 오류"))
      ensures old(slots) != NoSlots && outcome.FitTimeout? ==>
                alert == Some("피팅 처리 시간이 초과되었습니다. 다시 시도해주세요.")
      ensures old(slots) != NoSlots && outcome.FitThrew? ==>
                alert == Some(OrElse(outcome.message, "피팅 요청 실패"))
      ensures old(slots) != NoSlots && outcome.FitStillProcessing? ==>
                && status == Processing && progress == "멋진 사진 완성 중.." && slots == old(slots)
                && fittingResult == old(fittingResult) && llmMessage == old(llmMessage) && alert == None
    {
      var selected := FittingRequest(slots);
      if |selected| == 0 {
        return None, Some("최소 1개 이상의 아이템을 선택해주세요");
      }
      request := Some(selected);
      alert := None;
      status := Processing;
      progress := StartingText;
      if outcome.FitThrew? {
        alert := Some(OrElse(outcome.message, "피팅 요청 실패"));
        status := Idle;
        progress := "";
        return;
      }
      progress := "멋진 사진 완성 중..";
      match outcome
      case FitCompleted(url, message) =>
        fittingResult := NullIfFalsy(url);
        llmMessage := NullIfFalsy(message);
        status := Completed;
        progress := "";
        slots := NoSlots;
      case FitFailed(error) =>
        alert := Some("피팅 실패: " + OrElse(error, "알 수 없는 오류"));
        status := Idle;
        progress := "";
      case FitTimeout =>
        alert := Some("피팅 처리 시간이 초과되었습니다. 다시 시도해주세요.");
        status := Idle;
        progress := "";
      case FitStillProcessing =>
    }

    /** restoreFittingStatus on page load. `history` is the newest-first history page (None
        when the request failed, which is only logged); only its first entry is consulted.
        `poll` is what polling that job ended with. A processing job is resumed; a completed
        one shows its result; failed and timed-out jobs leave the page as it is. The slots
        are never touched. Returns the job that was polled. */
    method RestoreFittingStatus(history: Option<seq<HistoryEntry>>, poll: FitOutcome) returns (polled: Option<int>)
      modifies this`fittingResult, this`llmMessage, this`status, this`progress
      ensures history.None? || history.value == [] ||
              history.value[0].status in {JobFailed, JobTimeout} ==>
                && polled == None && fittingResult == old(fittingResult) && llmMessage == old(llmMessage)
                && status == old(status) && progress == old(progress)
      ensures history.Some? && history.value != [] && history.value[0].status == JobProcessing ==>
                && polled == Some(history.value[0].jobId)
                && (poll.FitCompleted? ==>
                      && fittingResult == NullIfFalsy(poll.resultImageUrl)
                      && llmMessage == NullIfFalsy(poll.llmMessage)
                      && status == Completed && progress == "")
                && (poll.FitFailed? || poll.FitTimeout? || poll.FitThrew? ==>
                      && status == Idle && progress == ResumingText
                      && fittingResult == old(fittingResult) && llmMessage == old(llmMessage))
                && (poll.FitStillProcessing? ==>
                      && status == Processing && progress == ResumingText
                      && fittingResult == old(fittingResult) && llmMessage == old(llmMessage))
      ensures history.Some? && history.value != [] && history.value[0].status == JobCompleted ==>
                && polled == Some(history.value[0].jobId) && progress == old(progress)
                && (poll.FitCompleted? ==>
                      && fittingResult == NullIfFalsy(poll.resultImageUrl)
                      && llmMessage == NullIfFalsy(poll.llmMessage) && status == Completed)
                && (!poll.FitCompleted? ==>
                      && fittingResult == history.value[0].resultImageUrl
                      && llmMessage == old(llmMessage) && status == old(status))
    {
      polled := None;
      if history.None? || |history.value| == 0 {
        return;
      }
      var latest := history.value[0];
      if latest.status == JobProcessing {
        status := Processing;
        progress := ResumingText;
        polled := Some(latest.jobId);
        match poll
        case FitCompleted(url, message) =>
          fittingResult := NullIfFalsy(url);
          llmMessage := NullIfFalsy(message);
          status := Completed;
          progress := "";
        case FitFailed(_) =>
          status := Idle;
        case FitTimeout =>
          status := Idle;
        case FitThrew(_) =>
          status := Idle;
        case FitStillProcessing =>
      } else if latest.status == JobCompleted {
        fittingResult := latest.resultImageUrl;
        polled := Some(latest.jobId);
        if poll.FitCompleted? {
          fittingResult := NullIfFalsy(poll.resultImageUrl);
          llmMessage := NullIfFalsy(poll.llmMessage);
          status := Completed;
        }
      }
    }
  }
}
