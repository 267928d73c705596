/** The onboarding page: the user picks between 3 and 10 style tags, then exactly
    5 sample outfits, and submits them as preferences. */
module Onboarding {
  import opened Base
  import opened Lists

  const MaxTags: nat := 10
  const MinTags: nat := 3
  const OutfitCount: nat := 5

  /** What `setPreferences` did. */
  datatype SubmitOutcome = Saved | SaveFailed(message: Option<string>)

  class OnboardingPage {
    var step: int
    var submitting: bool
    var selectedTags: seq<int>
    var selectedOutfits: seq<int>

    /** Both selections stay duplicate-free and within their caps; the step is 1 or 2. */
    ghost predicate Valid()
      reads this
    {
      && (step == 1 || step == 2)
      && NoDup(selectedTags) && |selectedTags| <= MaxTags
      && NoDup(selectedOutfits) && |selectedOutfits| <= OutfitCount
    }

    constructor ()
      ensures Valid()
      ensures step == 1 && !submitting && selectedTags == [] && selectedOutfits == []
    {
      step := 1;
      submitting := false;
      selectedTags := [];
      selectedOutfits := [];
    }

    /** toggleTag: a selected tag is dropped; an unselected one is appended while fewer than
        10 are selected, otherwise the page alerts and nothing changes. */
    method ToggleTag(tagId: int) returns (alert: Option<string>)
      requires Valid()
      modifies this`selectedTags
      ensures Valid()
      ensures selectedTags == ToggleAtMost(old(selectedTags), tagId, MaxTags)
      ensures alert.Some? <==> tagId !in old(selectedTags) && |old(selectedTags)| >= MaxTags
      ensures alert.Some? ==> alert.value == "최대 10개까지 선택할 수 있습니다"
    {
      ToggleAtMostNoDup(selectedTags, tagId, MaxTags);
      alert := None;
      if tagId in selectedTags {
        selectedTags := Without(selectedTags, tagId);
      } else {
        if |selectedTags| >= MaxTags {
          return Some("최대 10개까지 선택할 수 있습니다");
        }
        selectedTags := selectedTags + [tagId];
      }
    }

    /** toggleOutfit: the same toggle with a cap of 5. */
    method ToggleOutfit(outfitId: int) returns (alert: Option<string>)
      requires Valid()
      modifies this`selectedOutfits
      ensures Valid()
      ensures selectedOutfits == ToggleAtMost(old(selectedOutfits), outfitId, OutfitCount)
      ensures alert.Some? <==> outfitId !in old(selectedOutfits) && |old(selectedOutfits)| >= OutfitCount
      ensures alert.Some? ==> alert.value == "정확히 5개만 선택해야 합니다"
    {
      ToggleAtMostNoDup(selectedOutfits, outfitId, OutfitCount);
      alert := None;
      if outfitId in selectedOutfits {
        selectedOutfits := Without(selectedOutfits, outfitId);
      } else {
        if |selectedOutfits| >= OutfitCount {
          return Some("정확히 5개만 선택해야 합니다");
        }
        selectedOutfits := selectedOutfits + [outfitId];
      }
    }

    /** handleNext: to the outfit step only with at least 3 tags. */
    method HandleNext() returns (alert: Option<string>)
      requires Valid()
      modifies this`step
      ensures Valid()
      ensures |selectedTags| >= MinTags ==> step == 2 && alert == None
      ensures |selectedTags| < MinTags ==> step == old(step) && alert == Some("최소 3개의 태그를 선택해주세요")
    {
      if |selectedTags| < MinTags {
        return Some("최소 3개의 태그를 선택해주세요");
      }
      step := 2;
      alert := None;
    }

    /** handleBack: to the tag step; both selections are kept. */
    method HandleBack()
      requires Valid()
      modifies this`step
      ensures Valid() && step == 1
    {
      step := 1;
    }

    /** handleSubmit: the preferences are sent only with exactly 5 outfits. Success navigates
        to the main page (the page is left, `submitting` stays set); a failure alerts and
        clears `submitting`. `sent` tells whether the request was made. */
    method HandleSubmit(outcome: SubmitOutcome) returns (sent: bool, route: Option<Route>, alert: Option<string>)
      requires Valid()
      modifies this`submitting
      ensures Valid()
      ensures sent <==> |selectedOutfits| == OutfitCount
      ensures !sent ==> submitting == old(submitting) && route == None
                        && alert == Some("정확히 5개의 코디를 선택해주세요")
      ensures sent && outcome.Saved? ==> submitting && route == Some(MainRoute) && alert == None
      ensures sent && outcome.SaveFailed? ==>
                !submitting && route == None && alert == Some(OrElse(outcome.message, "저장에 실패했습니다"))
    {
      if |selectedOutfits| != OutfitCount {
        return false, None, Some("정확히 5개의 코디를 선택해주세요");
      }
      sent := true;
      submitting := true;
      match outcome
      case Saved =>
        route, alert := Some(MainRoute), None;
      case SaveFailed(message) =>
        route, alert := None, Some(OrElse(message, "저장에 실패했습니다"));
        submitting := false;
    }
  }

  /** The tag toggle never exceeds the cap, never duplicates, and appends new tags last. */
  lemma TagToggleBounded(tags: seq<int>, tagId: int)
    requires NoDup(tags) && |tags| <= MaxTags
    ensures var r := ToggleAtMost(tags, tagId, MaxTags);
            && NoDup(r) && |r| <= MaxTags
            && (tagId in r <==> tagId !in tags && |tags| < MaxTags)
            && (tagId !in tags && |tags| < MaxTags ==> r[..|tags|] == tags && r[|tags|] == tagId)
  {
    ToggleAtMostNoDup(tags, tagId, MaxTags);
  }

  /** Once 5 outfits are chosen, a new one is refused until one is deselected: the
      submission gate and the cap meet exactly. */
  lemma OutfitCapMeetsGate(outfits: seq<int>, outfitId: int)
    requires NoDup(outfits) && |outfits| == OutfitCount && outfitId !in outfits
    ensures ToggleAtMost(outfits, outfitId, OutfitCount) == outfits
  {
  }

  /** Deselecting one of 5 chosen outfits drops below the submission gate. */
  lemma DeselectLeavesFour(outfits: seq<int>, outfitId: int)
    requires NoDup(outfits) && |outfits| == OutfitCount && outfitId in outfits
    ensures |ToggleAtMost(outfits, outfitId, OutfitCount)| == OutfitCount - 1
  {
    WithoutLength(outfits, outfitId);
  }
}
