/**
 * The onboarding dialog of components/Onboarding.tsx: a three-step walk-through
 * whose completion is remembered in `localStorage`. The animation delays are
 * taken as immediate; calls of `onComplete` are counted.
 */
module Onboarding {
  import opened Common

  const LastStep: nat := 2
  const CompletedValue: string := "true"

  /** The stored flag says the walk-through was completed when it is a non-empty text. */
  predicate Completed(flag: Option<string>) {
    flag.Some? && flag.value != ""
  }

  /** `shouldShowOnboarding`: never on the server, otherwise exactly while the flag is unset. */
  predicate ShouldShow(flag: Option<string>, browser: bool) {
    browser && !Completed(flag)
  }

  class Walkthrough {
    var step: nat
    var visible: bool
    /** The `localStorage` item `taskmind_onboarding_completed`. */
    var flag: Option<string>
    /** Times `onComplete` was called. */
    var completions: nat

    predicate Valid()
      reads this
    {
      step <= LastStep
    }

    constructor(stored: Option<string>)
      ensures Valid()
      ensures step == 0 && !visible && flag == stored && completions == 0
    {
      step := 0;
      visible := false;
      flag := stored;
      completions := 0;
    }

    /** The mount effect: show the dialog when the flag is unset, otherwise report
        completion at once and stay hidden. */
    method Mount()
      requires Valid()
      modifies this
      ensures Valid()
      ensures !Completed(old(flag)) ==> visible && completions == old(completions)
      ensures Completed(old(flag)) ==> visible == old(visible) && completions == old(completions) + 1
      ensures step == old(step) && flag == old(flag)
    {
      if !Completed(flag) {
        visible := true;
      } else {
        completions := completions + 1;
      }
    }

    /** `handleSkip` and `handleComplete`: remember completion, hide, report. */
    method Complete()
      requires Valid()
      modifies this
      ensures Valid()
      ensures flag == Some(CompletedValue) && !visible && completions == old(completions) + 1
      ensures step == old(step)
    {
      flag := Some(CompletedValue);
      visible := false;
      completions := completions + 1;
    }

    /** `handleNext`: one step on, or completion from the last step. */
    method Next()
      requires Valid()
      modifies this
      ensures Valid()
      ensures old(step) < LastStep ==>
        step == old(step) + 1 && visible == old(visible) && flag == old(flag) && completions == old(completions)
      ensures old(step) == LastStep ==>
        step == old(step) && flag == Some(CompletedValue) && !visible && completions == old(completions) + 1
    {
      if step < LastStep {
        step := step + 1;
      } else {
        Complete();
      }
    }

    /** `handleBack`: one step back, nothing at the first step. */
    method Back()
      requires Valid()
      modifies this
      ensures Valid()
      ensures step == if old(step) > 0 then old(step) - 1 else 0
      ensures visible == old(visible) && flag == old(flag) && completions == old(completions)
    {
      if step > 0 {
        step := step - 1;
      }
    }

    /** `resetOnboarding`: forget completion, in the browser only. */
    method Reset(browser: bool)
      requires Valid()
      modifies this
      ensures Valid()
      ensures flag == if browser then None else old(flag)
      ensures step == old(step) && visible == old(visible) && completions == old(completions)
    {
      if browser {
        flag := None;
      }
    }
  }

  /** After completion the walk-through is not offered again; after a reset it is. */
  lemma CompletionIsRemembered(browser: bool)
    ensures !ShouldShow(Some(CompletedValue), browser)
    ensures ShouldShow(None, browser) <==> browser
  {
  }

  /** Starting from the first step, three presses of "next" complete the walk-through. */
  method ThreeNextsComplete(w: Walkthrough)
    requires w.Valid() && w.step == 0
    modifies w
    ensures w.flag == Some(CompletedValue) && !w.visible && w.completions == old(w.completions) + 1
  {
    w.Next();
    w.Next();
    w.Next();
  }
}
