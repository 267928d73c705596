/** The earlier onboarding page: the same two steps over hard-coded tags and coordis,
    with errors shown on the page instead of alerts. */
module OnboardingMock {
  import opened Base
  import opened Lists

  const MaxTags: nat := 10

  /** The hard-coded tag ids (1 to 15) and coordi ids (1 to 5). */
  const TagIds: seq<int> := [1, 2, 3, 4, 5, 6, 7, 8, 9, 10, 11, 12, 13, 14, 15]
  const CoordiIds: seq<int> := [1, 2, 3, 4, 5]

  class MockOnboardingPage {
    var step: int
    var selectedTags: seq<int>
    var selectedCoordis: seq<int>
    var error: string
    var submitting: bool

    /** Tags are capped at 10; neither selection has a duplicate. Coordis have no cap. */
    ghost predicate Valid()
      reads this
    {
      NoDup(selectedTags) && |selectedTags| <= MaxTags && NoDup(selectedCoordis)
      && forall c :: c in selectedCoordis ==> c in CoordiIds
    }

    constructor ()
      ensures Valid()
      ensures step == 1 && selectedTags == [] && selectedCoordis == [] && error == "" && !submitting
    {
      step := 1;
      selectedTags := [];
      selectedCoordis := [];
      error := "";
      submitting := false;
    }

    /** toggleTag: drop a selected tag; add an unselected one only below 10, silently
        ignoring it otherwise. */
    method ToggleTag(tagId: int)
      requires Valid()
      modifies this`selectedTags
      ensures Valid()
      ensures selectedTags == ToggleAtMost(old(selectedTags), tagId, MaxTags)
    {
      ToggleAtMostNoDup(selectedTags, tagId, MaxTags);
      if tagId in selectedTags {
        selectedTags := Without(selectedTags, tagId);
      } else if |selectedTags| < MaxTags {
        selectedTags := selectedTags + [tagId];
      }
    }

    /** toggleCoordi: drop if selected, otherwise append; there is no cap. */
    method ToggleCoordi(coordiId: int)
      requires Valid() && coordiId in CoordiIds
      modifies this`selectedCoordis
      ensures Valid()
      ensures selectedCoordis == Toggle(old(selectedCoordis), coordiId)
    {
      ToggleNoDup(selectedCoordis, coordiId);
      if coordiId in selectedCoordis {
        selectedCoordis := Without(selectedCoordis, coordiId);
      } else {
        selectedCoordis := selectedCoordis + [coordiId];
      }
    }

    /** handleNext: on step 1, go to step 2 and clear the error with at least 3 tags,
        otherwise set the error and stay. On step 2 it does nothing. */
    method HandleNext()
      requires Valid()
      modifies this`step, this`error
      ensures Valid()
      ensures old(step) == 1 && |selectedTags| >= 3 ==> step == 2 && error == ""
      ensures old(step) == 1 && |selectedTags| < 3 ==> step == 1 && error == "최소 3개의 태그를 선택해주세요"
      ensures old(step) != 1 ==> step == old(step) && error == old(error)
    {
      if step == 1 {
        if |selectedTags| < 3 {
          error := "최소 3개의 태그를 선택해주세요";
          return;
        }
        error := "";
        step := 2;
      }
    }

    /** The "이전" button: back to step 1, selections kept. */
    method Back()
      requires Valid()
      modifies this`step
      ensures Valid() && step == 1
    {
      step := 1;
    }

    /** handleSubmit: refused with an error unless exactly 5 coordis are selected; otherwise
        submitted, with `submitting` false again afterwards in every case. */
    method HandleSubmit(outcome: ApiOutcome) returns (sent: bool, route: Option<Route>)
      requires Valid()
      modifies this`error, this`submitting
      ensures Valid()
      ensures sent <==> |selectedCoordis| == 5
      ensures !sent ==> route == None && error == "정확히 5개의 코디를 선택해주세요" && submitting == old(submitting)
      ensures sent ==> !submitting
      ensures sent && outcome.Response? && outcome.success ==> route == Some(MainRoute) && error == old(error)
      ensures sent && FailureMessage(outcome, "제출에 실패했습니다").Some? ==>
                route == None && error == FailureMessage(outcome, "제출에 실패했습니다").value
    {
      if |selectedCoordis| != 5 {
        error := "정확히 5개의 코디를 선택해주세요";
        return false, None;
      }
      sent := true;
      submitting := true;
      route := None;
      match outcome {
        case Response(success, message) =>
          if success {
            route := Some(MainRoute);
          } else {
            error := OrElse(message, "제출에 실패했습니다");
          }
        case Threw =>
          error := "제출에 실패했습니다";
      }
      submitting := false;
    }
  }

  /** toggleCoordi has no cap of its own, but only the 5 hard-coded coordis can be
      toggled, so a duplicate-free selection of them never exceeds 5. */
  lemma CoordisAtMostFive(coordis: seq<int>)
    requires NoDup(coordis) && forall c :: c in coordis ==> c in CoordiIds
    ensures |coordis| <= 5
  {
    NoDupCardinality(coordis);
    var members := set c | c in coordis;
    assert members <= {1, 2, 3, 4, 5};
    SubsetCardinality(members, {1, 2, 3, 4, 5});
  }
}
