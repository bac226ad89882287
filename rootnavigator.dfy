/**
 * The root navigator (src/navigation/RootNavigator.tsx): whether the
 * onboarding is due, read once from device storage, and which of the
 * splash, the onboarding, the signed-in navigator and the sign-in
 * navigator is shown.
 */
module RootNavigator {
  import opened Wrappers
  import opened Onboarding

  datatype RootScreen = Splash | OnboardingSlides | MainTabs | AuthStack

  /** `!skipOnboarding`: due unless a non-empty flag is stored. */
  function OnboardingDue(storage: map<string, string>): (due: bool)
    ensures due <==> SkipKey !in storage || storage[SkipKey] == ""
  {
    !(SkipKey in storage && storage[SkipKey] != "")
  }

  /**
   * The render decision: the splash while the session loads, before the
   * flag is read, or during a transition; then the onboarding for a
   * visitor who has it due; then the navigator that matches the session.
   */
  function ScreenFor(isLoading: bool, showOnboarding: Option<bool>, isTransitioning: bool, hasUser: bool): (screen: RootScreen)
    ensures screen == Splash <==> isLoading || showOnboarding.None? || isTransitioning
    ensures screen == OnboardingSlides <==> !isLoading && !isTransitioning && !hasUser && showOnboarding == Some(true)
    ensures screen == MainTabs <==> !isLoading && showOnboarding.Some? && !isTransitioning && hasUser
    ensures screen == AuthStack <==> !isLoading && !isTransitioning && !hasUser && showOnboarding == Some(false)
  {
    if isLoading || showOnboarding.None? || isTransitioning then Splash
    else if !hasUser && showOnboarding.value then OnboardingSlides
    else if hasUser then MainTabs
    else AuthStack
  }

  class Root {
    var showOnboarding: Option<bool>

    /** Nothing is known until storage has been read. */
    constructor ()
      ensures showOnboarding.None?
    {
      showOnboarding := None;
    }

    /** `checkOnboarding`: due exactly when no flag is stored; a storage error also makes it due. */
    method CheckOnboarding(storage: map<string, string>, readFails: bool)
      modifies this
      ensures readFails ==> showOnboarding == Some(true)
      ensures !readFails ==> showOnboarding == Some(OnboardingDue(storage))
    {
      if readFails {
        showOnboarding := Some(true);
      } else {
        var stored := if SkipKey in storage then Some(storage[SkipKey]) else None;
        showOnboarding := Some(!(stored.Some? && stored.value != ""));
      }
    }

    /** The onboarding's `onComplete`: it is not shown again in this run. */
    method CompleteOnboarding()
      modifies this
      ensures showOnboarding == Some(false)
      ensures forall isLoading: bool, isTransitioning: bool, hasUser: bool ::
        ScreenFor(isLoading, showOnboarding, isTransitioning, hasUser) != OnboardingSlides
    {
      showOnboarding := Some(false);
    }
  }

  /** Completing the carousel with the switch on stores a flag that makes the next start skip the onboarding. */
  lemma SwitchOnSkipsNextStart(storage: map<string, string>)
    ensures !OnboardingDue(storage[SkipKey := "true"])
  {
  }
}
