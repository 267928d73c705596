/** The tutorial: a five-step walkthrough with one step list for phones and one for
    desktops, a "next" button that finishes on the last step, and progress segments. */
module Tutorial {
  import opened Base

  /** The step ids of the phone walkthrough. */
  const MobileStepIds: seq<string> := ["swipe", "like", "detail", "features", "fitting"]

  /** The step ids of the desktop walkthrough; its last step is the phone's last step. */
  const DesktopStepIds: seq<string> := ["navigate", "like", "features", "closet", MobileStepIds[4]]

  /** The titles of the desktop cards, one per desktop step. */
  const DesktopTitles: seq<string> := ["Navigation", "Like & Save", "Details", "Closet", "Virtual Fitting"]

  /** The step list in use: desktop from a window width of 768 up. */
  function Steps(isDesktop: bool): (r: seq<string>)
    ensures |r| == |MobileStepIds| == |DesktopStepIds| == |DesktopTitles| == 5
    ensures r[4] == "fitting"
  {
    if isDesktop then DesktopStepIds else MobileStepIds
  }

  /** `window.innerWidth >= 768`. */
  predicate IsDesktopWidth(width: int) {
    width >= 768
  }

  /** The label of the desktop card's button. */
  function DesktopButtonLabel(step: int): (caption: string)
    ensures caption == "Start Swell" <==> step == |DesktopTitles| - 1
    ensures caption == "Next" <==> step != |DesktopTitles| - 1
  {
    if step == |DesktopTitles| - 1 then "Start Swell" else "Next"
  }

  /** The label of the phone view's button. */
  function MobileButtonLabel(step: int): (caption: string)
    ensures caption == "시작하기" <==> step == |MobileStepIds| - 1
    ensures caption == "확인" <==> step != |MobileStepIds| - 1
  {
    if step == |MobileStepIds| - 1 then "시작하기" else "확인"
  }

  /** The phone view's progress bar: segment i is filled for every step up to the current one. */
  function Segments(step: int): (filled: seq<bool>)
    ensures |filled| == |MobileStepIds|
    ensures forall i :: 0 <= i < |filled| ==> filled[i] == (i <= step)
  {
    seq(|MobileStepIds|, i => i <= step)
  }

  /** How many entries are true. */
  function CountTrue(s: seq<bool>): nat {
    if s == [] then 0 else CountTrue(s[..|s| - 1]) + (if s[|s| - 1] then 1 else 0)
  }

  lemma {:induction false} CountAllTrue(s: seq<bool>)
    requires forall i :: 0 <= i < |s| ==> s[i]
    ensures CountTrue(s) == |s|
  {
    if s != [] {
      CountAllTrue(s[..|s| - 1]);
    }
  }

  /** A bar whose entries are true exactly up to position k has k + 1 true entries. */
  lemma {:induction false} CountPrefixTrue(s: seq<bool>, k: int)
    requires 0 <= k < |s|
    requires forall i :: 0 <= i < |s| ==> s[i] == (i <= k)
    ensures CountTrue(s) == k + 1
  {
    var init := s[..|s| - 1];
    if k == |s| - 1 {
      CountAllTrue(init);
    } else {
      CountPrefixTrue(init, k);
    }
  }

  /** On step n (counting from 0) the progress bar shows n + 1 filled segments. */
  lemma FilledSegmentsCount(step: int)
    requires 0 <= step < |MobileStepIds|
    ensures CountTrue(Segments(step)) == step + 1
  {
    CountPrefixTrue(Segments(step), step);
  }

  class TutorialPage {
    var step: int
    var isDesktop: bool

    /** The step indexes the list in use; since both lists have five steps, it indexes either. */
    ghost predicate Valid()
      reads this
    {
      0 <= step < |Steps(isDesktop)|
    }

    constructor ()
      ensures Valid() && step == 0 && !isDesktop
    {
      step := 0;
      isDesktop := false;
    }

    /** The step the phone view renders, `mobileSteps[step]`. The desktop view renders the
        card of CurrentTitle instead; the desktop step list only gives handleNext its length. */
    function CurrentStepId(): (id: string)
      reads this
      requires Valid()
      ensures id in MobileStepIds
      ensures step == |Steps(isDesktop)| - 1 ==> id == "fitting"
    {
      MobileStepIds[step]
    }

    /** The desktop card shown, `desktopContent[step]`. */
    function CurrentTitle(): (title: string)
      reads this
      requires Valid()
      ensures title in DesktopTitles
    {
      DesktopTitles[step]
    }

    /** checkDesktop on mount and on every resize: the step is kept and stays valid. */
    method Resize(width: int)
      requires Valid()
      modifies this`isDesktop
      ensures Valid() && isDesktop == IsDesktopWidth(width)
    {
      isDesktop := width >= 768;
    }

    /** handleNext: the next step, or on the last step handleFinish, which goes to the main
        page and leaves the step where it is. */
    method HandleNext() returns (route: Option<Route>)
      requires Valid()
      modifies this`step
      ensures Valid()
      ensures old(step) < |Steps(isDesktop)| - 1 ==> step == old(step) + 1 && route == None
      ensures old(step) == |Steps(isDesktop)| - 1 ==> step == old(step) && route == Some(MainRoute)
    {
      var steps := Steps(isDesktop);
      if step < |steps| - 1 {
        step := step + 1;
        route := None;
      } else {
        route := Some(MainRoute);
      }
    }
  }
}
