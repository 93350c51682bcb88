/** The onboarding walkthrough: a step counter over a fixed list of five steps, each
    highlighting one page element and showing one text in the tooltip. */
module Tutorial {
  import opened Rules

  /** The id of the element a step highlights and the text it shows. */
  datatype TutorialStep = TutorialStep(el: string, text: string)

  /** `tutorialSteps`. */
  const TutorialSteps: seq<TutorialStep> := [
    TutorialStep("game-title", "Welcome! Let's get started."),
    TutorialStep("board", "Click squares to place your mark."),
    TutorialStep("status", "Track turns and winners here."),
    TutorialStep("top-controls", "Customize themes and avatars here."),
    TutorialStep("bottom-controls", "Reset the game anytime here.")
  ]

  class Walkthrough {
    /** `tutorialStep`. */
    var tutorialStep: int
    /** Whether the tutorial overlay is displayed. */
    var overlayShown: bool
    /** The element that carries the highlight, if any. */
    var highlighted: Option<string>
    /** The tooltip's text. */
    var tooltipText: string

    /** The counter never goes below zero, and while the overlay is shown the counter
        names a step of the list and that step is the one on display. */
    ghost predicate Valid()
      reads this
    {
      && tutorialStep >= 0
      && (overlayShown ==>
            && tutorialStep < |TutorialSteps|
            && highlighted == Some(TutorialSteps[tutorialStep].el)
            && tooltipText == TutorialSteps[tutorialStep].text)
    }

    /** The page's initial state: step 0, overlay hidden, nothing highlighted. */
    constructor ()
      ensures Valid() && tutorialStep == 0 && !overlayShown && highlighted == None
    {
      tutorialStep, overlayShown, highlighted, tooltipText := 0, false, None, "";
    }

    /** `startTutorial`: back to the first step, overlay shown. */
    method StartTutorial()
      modifies this
      ensures Valid() && tutorialStep == 0 && overlayShown
      ensures highlighted == Some("game-title") && tooltipText == "Welcome! Let's get started."
    {
      tutorialStep := 0;
      overlayShown := true;
      ShowStep();
    }

    /** `showStep` without the tooltip's placement: once the counter has passed the
        last step the tutorial ends; otherwise the current step's element is the only
        one highlighted and its text is shown. */
    method ShowStep()
      requires tutorialStep >= 0
      modifies this
      ensures tutorialStep == old(tutorialStep)
      ensures tutorialStep >= |TutorialSteps| ==>
                !overlayShown && highlighted == None && tooltipText == old(tooltipText)
      ensures tutorialStep < |TutorialSteps| ==>
                && overlayShown == old(overlayShown)
                && highlighted == Some(TutorialSteps[tutorialStep].el)
                && tooltipText == TutorialSteps[tutorialStep].text
    {
      highlighted := None;
      if tutorialStep >= |TutorialSteps| {
        EndTutorial();
        return;
      }
      var step := TutorialSteps[tutorialStep];
      highlighted := Some(step.el);
      tooltipText := step.text;
    }

    /** `nextTutorialStep`: advance the counter by exactly one and show that step; the
        overlay stays up exactly while the counter is inside the list. */
    method NextTutorialStep()
      requires Valid()
      modifies this
      ensures Valid() && tutorialStep == old(tutorialStep) + 1
      ensures overlayShown <==> old(overlayShown) && tutorialStep < |TutorialSteps|
      ensures tutorialStep >= |TutorialSteps| ==> highlighted == None
    {
      tutorialStep := tutorialStep + 1;
      ShowStep();
    }

    /** `endTutorial`: remove the highlight and hide the overlay. */
    method EndTutorial()
      modifies this
      ensures !overlayShown && highlighted == None
      ensures tutorialStep == old(tutorialStep) && tooltipText == old(tooltipText)
    {
      highlighted := None;
      overlayShown := false;
    }
  }
}
