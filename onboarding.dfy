/**
 * The onboarding carousel (src/screens/OnboardingScreen.tsx): five slides
 * stepped through with the next button, a skip button, and the
 * "do not show again" switch whose flag is written to device storage
 * (a map from key to value) when the carousel completes.
 */
module Onboarding {

  /** The slides' ids, in order. */
  const SlideIds: seq<string> := ["1", "2", "3", "4", "5"]

  /** The index of the last slide. */
  const LastSlide: nat := |SlideIds| - 1

  /** The storage key of the skip flag, shared with the root navigator. */
  const SkipKey: string := "@guia_aventureiro:skip_onboarding"

  class OnboardingScreen {
    var currentIndex: int
    var dontShowAgain: bool
    var storage: map<string, string>

    /** The carousel starts on the first slide with the switch off. */
    constructor (storage: map<string, string>)
      ensures currentIndex == 0 && !dontShowAgain && this.storage == storage
      ensures Valid()
    {
      currentIndex := 0;
      dontShowAgain := false;
      this.storage := storage;
    }

    /** The index names a slide. */
    predicate Valid()
      reads this
    {
      0 <= currentIndex <= LastSlide
    }

    /** The skip button is drawn on every slide but the last. */
    predicate ShowsSkip()
      reads this
    {
      currentIndex < LastSlide
    }

    /** The main button reads "Começar" on the last slide and "Próximo" elsewhere. */
    function ButtonLabel(): (text: string)
      reads this
      ensures text == "Começar" <==> currentIndex == LastSlide
      ensures text != "Começar" ==> text == "Próximo"
    {
      if currentIndex == LastSlide then "Começar" else "Próximo"
    }

    /** On a slide, the main button reads "Começar" exactly where the skip button is gone: on the last slide. */
    lemma LabelMatchesSkip()
      requires Valid()
      ensures ButtonLabel() == "Começar" <==> !ShowsSkip()
      ensures ButtonLabel() == "Começar" <==> currentIndex == |SlideIds| - 1
    {
    }

    /** The switch. */
    method SetDontShowAgain(value: bool)
      modifies this`dontShowAgain
      ensures dontShowAgain == value
    {
      dontShowAgain := value;
    }

    /**
     * `handleComplete`: the skip flag is stored only when the switch is
     * on; `onComplete` is called in every case.
     */
    method HandleComplete() returns (completed: bool)
      modifies this`storage
      ensures completed
      ensures dontShowAgain ==> storage == old(storage)[SkipKey := "true"]
      ensures !dontShowAgain ==> storage == old(storage)
    {
      if dontShowAgain {
        storage := storage[SkipKey := "true"];
      }
      completed := true;
    }

    /** `handleNext`: before the last slide it moves one slide on; on the last it completes. The index stays on a slide. */
    method HandleNext() returns (completed: bool)
      requires Valid()
      modifies this`currentIndex, this`storage
      ensures Valid()
      ensures completed <==> old(ButtonLabel()) == "Começar"
      ensures old(currentIndex) < LastSlide ==> currentIndex == old(currentIndex) + 1 && !completed && storage == old(storage)
      ensures old(currentIndex) == LastSlide ==> completed && currentIndex == old(currentIndex)
      ensures old(currentIndex) == LastSlide && dontShowAgain ==> storage == old(storage)[SkipKey := "true"]
      ensures old(currentIndex) == LastSlide && !dontShowAgain ==> storage == old(storage)
    {
      if currentIndex < LastSlide {
        currentIndex := currentIndex + 1;
        completed := false;
      } else {
        completed := HandleComplete();
      }
    }

    /** `handleSkip`: completes from any slide. */
    method HandleSkip() returns (completed: bool)
      modifies this`storage
      ensures completed
      ensures dontShowAgain ==> storage == old(storage)[SkipKey := "true"]
      ensures !dontShowAgain ==> storage == old(storage)
    {
      completed := HandleComplete();
    }
  }
}
