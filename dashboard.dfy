/**
 * The dashboard shell (`Dashboard.tsx`): the onboarding tour's step machine
 * and the navigation between the sidebar entries and the settings tabs.
 */
module Dashboard {
  import opened Types

  /** One step of the onboarding tour: the element it points at and its text keys. */
  datatype TourStep = TourStep(targetId: string, titleKey: string, contentKey: string)

  /** The six steps, from `welcome` to `finish`. */
  const TOUR_STEPS: seq<TourStep> := [
    TourStep("welcome", "onboarding.welcome.title", "onboarding.welcome.content"),
    TourStep("post-generator", "onboarding.generator.title", "onboarding.generator.content"),
    TourStep("autopilot", "onboarding.autopilot.title", "onboarding.autopilot.content"),
    TourStep("my-posts", "onboarding.my_posts.title", "onboarding.my_posts.content"),
    TourStep("gamification", "onboarding.gamification.title", "onboarding.gamification.content"),
    TourStep("finish", "onboarding.finish.title", "onboarding.finish.content")
  ]

  /** The steps whose target sits in the sidebar. */
  const SIDEBAR_STEPS: seq<string> := ["post-generator", "autopilot", "my-posts"]

  /** `handleNextStep`'s choice: the next index, or `None` when the tour is over. */
  function StepAfter(i: int): (r: Option<int>)
    ensures r.None? <==> i + 1 >= |TOUR_STEPS|
    ensures r.Some? ==> r.value == i + 1
  {
    if i + 1 >= |TOUR_STEPS| then None else Some(i + 1)
  }

  /** The step before, never below the first. */
  function StepBefore(i: int): (r: int)
    ensures r >= 0
    ensures i >= 1 ==> r == i - 1
    ensures i < 1 ==> r == 0
  {
    if i - 1 > 0 then i - 1 else 0
  }

  /** From a step of the tour, next and prev stay within the tour (or end it). */
  lemma StepsStayInTour(i: int)
    requires 0 <= i < |TOUR_STEPS|
    ensures 0 <= StepBefore(i) < |TOUR_STEPS|
    ensures StepAfter(i).Some? ==> 0 <= StepAfter(i).value < |TOUR_STEPS|
    ensures StepAfter(i).None? <==> TOUR_STEPS[i].targetId == "finish"
  {
  }

  /** "Previous" undoes "next", and "next" undoes "previous" away from the first step. */
  lemma PrevUndoesNext(i: int)
    requires 0 <= i
    ensures StepAfter(i).Some? ==> StepBefore(StepAfter(i).value) == i
    ensures 0 < i < |TOUR_STEPS| ==> StepAfter(StepBefore(i)) == Some(i)
  {
  }

  /** Moving to step `next` opens the closed sidebar first on a narrow screen when its target is in the sidebar. */
  predicate OpensSidebar(next: int, sidebarOpen: bool, narrowScreen: bool)
    requires 0 <= next < |TOUR_STEPS|
  {
    TOUR_STEPS[next].targetId in SIDEBAR_STEPS && !sidebarOpen && narrowScreen
  }

  /** The dashboard's state; `onboardingComplete` is the browser-stored completion flag. */
  class DashboardState {
    var activeNavItem: NavItem
    var isSidebarOpen: bool
    var initialSettingsTab: Option<SettingsTab>
    var isTourActive: bool
    var tourStep: int
    var onboardingComplete: bool

    /** The tour's index is always one of its steps. */
    ghost predicate Valid()
      reads this
    {
      0 <= tourStep < |TOUR_STEPS|
    }

    constructor(completedBefore: bool)
      ensures Valid()
      ensures activeNavItem == PanelNav && !isSidebarOpen && initialSettingsTab == None
      ensures !isTourActive && tourStep == 0 && onboardingComplete == completedBefore
    {
      activeNavItem := PanelNav;
      isSidebarOpen := false;
      initialSettingsTab := None;
      isTourActive := false;
      tourStep := 0;
      onboardingComplete := completedBefore;
    }

    /** The mount effect: the tour starts unless it was completed before. */
    method StartTourIfNew()
      modifies this
      ensures isTourActive == (old(isTourActive) || !onboardingComplete)
      ensures tourStep == old(tourStep) && onboardingComplete == old(onboardingComplete)
      ensures activeNavItem == old(activeNavItem) && isSidebarOpen == old(isSidebarOpen)
      ensures initialSettingsTab == old(initialSettingsTab)
    {
      if !onboardingComplete {
        isTourActive := true;
      }
    }

    /** `handleEndTour`, also the skip button: the tour stops and is recorded as completed. */
    method HandleEndTour()
      modifies this
      ensures !isTourActive && onboardingComplete
      ensures tourStep == old(tourStep) && activeNavItem == old(activeNavItem)
      ensures isSidebarOpen == old(isSidebarOpen) && initialSettingsTab == old(initialSettingsTab)
    {
      isTourActive := false;
      onboardingComplete := true;
    }

    /**
     * `handleNextStep`: past the last step the tour ends; otherwise the next
     * step is shown, after opening the sidebar when its target needs it.
     */
    method HandleNextStep(narrowScreen: bool)
      requires Valid()
      modifies this
      ensures Valid()
      ensures StepAfter(old(tourStep)).None? ==>
        !isTourActive && onboardingComplete && tourStep == old(tourStep) && isSidebarOpen == old(isSidebarOpen)
      ensures StepAfter(old(tourStep)).Some? ==>
        tourStep == StepAfter(old(tourStep)).value &&
        isTourActive == old(isTourActive) && onboardingComplete == old(onboardingComplete) &&
        isSidebarOpen == (old(isSidebarOpen) || OpensSidebar(tourStep, old(isSidebarOpen), narrowScreen))
      ensures activeNavItem == old(activeNavItem) && initialSettingsTab == old(initialSettingsTab)
    {
      var next := StepAfter(tourStep);
      if next.None? {
        HandleEndTour();
        return;
      }
      if OpensSidebar(next.value, isSidebarOpen, narrowScreen) {
        isSidebarOpen := true;
      }
      tourStep := next.value;
    }

    /** `handlePrevStep`: one step back, never below the first. */
    method HandlePrevStep()
      requires Valid()
      modifies this
      ensures Valid()
      ensures tourStep == StepBefore(old(tourStep))
      ensures isTourActive == old(isTourActive) && onboardingComplete == old(onboardingComplete)
      ensures activeNavItem == old(activeNavItem) && isSidebarOpen == old(isSidebarOpen)
      ensures initialSettingsTab == old(initialSettingsTab)
    {
      tourStep := StepBefore(tourStep);
    }

    /** `goToBilling`: the settings screen, opened on the billing tab. */
    method GoToBilling()
      modifies this
      ensures activeNavItem == SettingsNav && initialSettingsTab == Some(BillingTab)
      ensures isTourActive == old(isTourActive) && tourStep == old(tourStep)
      ensures isSidebarOpen == old(isSidebarOpen) && onboardingComplete == old(onboardingComplete)
    {
      initialSettingsTab := Some(BillingTab);
      activeNavItem := SettingsNav;
    }

    /** `goToSettings(tab)`: the settings screen, opened on `tab`. */
    method GoToSettings(tab: SettingsTab)
      modifies this
      ensures activeNavItem == SettingsNav && initialSettingsTab == Some(tab)
      ensures isTourActive == old(isTourActive) && tourStep == old(tourStep)
      ensures isSidebarOpen == old(isSidebarOpen) && onboardingComplete == old(onboardingComplete)
    {
      initialSettingsTab := Some(tab);
      activeNavItem := SettingsNav;
    }

    /** `handleSidebarNav`: the chosen screen; choosing settings from the sidebar forgets any preselected tab. */
    method HandleSidebarNav(item: NavItem)
      modifies this
      ensures activeNavItem == item
      ensures item == SettingsNav ==> initialSettingsTab == None
      ensures item != SettingsNav ==> initialSettingsTab == old(initialSettingsTab)
      ensures isTourActive == old(isTourActive) && tourStep == old(tourStep)
      ensures isSidebarOpen == old(isSidebarOpen) && onboardingComplete == old(onboardingComplete)
    {
      if item == SettingsNav {
        initialSettingsTab := None;
      }
      activeNavItem := item;
    }
  }
}
