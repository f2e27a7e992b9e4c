/**
 * The guided-learning panel: a step index into the selected animal's
 * authored tour, moved by next, previous and the step dots, with a camera
 * focus request each time the step changes while the panel is active.
 */
module Guided {
  import opened Options
  import opened Geometry
  import opened Animals

  /** The tour of `animal`; empty when there is no animal or it has no authored steps. */
  function StepsOf(animal: Option<Animal>): (steps: seq<GuidedStep>)
    ensures animal.None? ==> steps == []
    ensures animal.Some? && animal.value.guidedLearningSteps.None? ==> steps == []
    ensures animal.Some? && animal.value.guidedLearningSteps.Some? ==>
              steps == animal.value.guidedLearningSteps.value
  {
    match animal
    case None => []
    case Some(a) => a.guidedLearningSteps.GetOr([])
  }

  /** The camera request for one step: its authored position and target. */
  function StepFocus(s: GuidedStep): FocusRequest {
    FocusRequest(s.cameraPosition, Some(s.cameraTarget))
  }

  predicate IsFirstStep(k: int) { k == 0 }
  predicate IsLastStep(k: int, n: nat) { k == n - 1 }

  /** The index after `next`: one further unless already on the last step. */
  function NextIndex(k: nat, n: nat): (k': nat)
    ensures k < n ==> k' < n
    ensures IsLastStep(k, n) ==> k' == k
    ensures !IsLastStep(k, n) ==> k' == k + 1
  {
    if IsLastStep(k, n) then k else k + 1
  }

  /** The index after `previous`: one back unless already on the first step. */
  function PreviousIndex(k: nat): (k': nat)
    ensures k' <= k
    ensures IsFirstStep(k) ==> k' == 0
    ensures !IsFirstStep(k) ==> k' == k - 1
  {
    if IsFirstStep(k) then k else k - 1
  }

  function NextTimes(k: nat, n: nat, m: nat): nat {
    if m == 0 then k else NextIndex(NextTimes(k, n, m - 1), n)
  }

  /**
   * From the first step of a tour of n steps, m presses of next reach step
   * min(m, n - 1): n - 1 presses reach the last step and further presses
   * change nothing.
   */
  lemma {:induction false} NextTimesFromStart(n: nat, m: nat)
    requires n > 0
    ensures NextTimes(0, n, m) == if m < n - 1 then m else n - 1
  {
    if m > 0 {
      NextTimesFromStart(n, m - 1);
    }
  }

  /** Width of the progress bar, in percent. */
  function Progress(k: nat, n: nat): real
    requires n > 0
  {
    ((k + 1) as real / n as real) * 100.0
  }

  /**
   * Progress lies in (0, 100] on every step and is exactly 100 on the last
   * one, which is also the only step that shows the completion message.
   */
  lemma ProgressBounds(k: nat, n: nat)
    requires k < n
    ensures 0.0 < Progress(k, n) <= 100.0
    ensures Progress(k, n) == 100.0 <==> IsLastStep(k, n)
  {
    var q := (k + 1) as real / n as real;
    assert q * (n as real) == (k + 1) as real;
  }

  datatype TourEvent = Focused(request: FocusRequest) | CloseRequested

  // ---- when the activation effect runs again ----

  /**
   * The values the activation effect depends on: the active flag, the
   * animal's id, the tour length, and the identity of the focus callback
   * prop, counted as the parent render that created it.
   */
  datatype ActivationDeps = ActivationDeps(active: bool, animalId: Option<string>, stepCount: nat, callback: nat)

  /** The step and the focus requests once a commit's activation effect has run, if it ran. */
  datatype Activation = Activation(step: nat, requests: seq<FocusRequest>)

  /**
   * A commit with dependencies `next` after `prev`: the effect runs only when
   * some dependency changed, and then restarts an active, non-empty tour on
   * step 0 with a focus on it.
   */
  function AfterCommit(prev: ActivationDeps, next: ActivationDeps, steps: seq<GuidedStep>, step: nat): (a: Activation)
    requires next.stepCount == |steps|
    ensures prev == next ==> a == Activation(step, [])
    ensures prev != next && next.active && |steps| > 0 ==> a == Activation(0, [StepFocus(steps[0])])
    ensures !(next.active && |steps| > 0) ==> a == Activation(step, [])
  {
    if prev != next && next.active && |steps| > 0 then Activation(0, [StepFocus(steps[0])])
    else Activation(step, [])
  }

  /**
   * The dependencies after a parent render that changes none of the tour's
   * props (a view reset, say), as written: the parent's focus handler is a
   * new closure on every render.
   */
  function ParentRenderAsWritten(d: ActivationDeps): (d': ActivationDeps)
    ensures d' != d && d'.active == d.active && d'.animalId == d.animalId && d'.stepCount == d.stepCount
  {
    d.(callback := d.callback + 1)
  }

  /** The same with a handler whose identity is kept across renders: nothing the effect reads changes. */
  function ParentRender(d: ActivationDeps): (d': ActivationDeps)
    ensures d' == d
  {
    d
  }

  /** As written, a parent render in the middle of an active tour sends it back to step 0 and refocuses there. */
  lemma ParentRenderRestartsTour(d: ActivationDeps, steps: seq<GuidedStep>, step: nat)
    requires d.active && d.stepCount == |steps| > 0
    ensures AfterCommit(d, ParentRenderAsWritten(d), steps, step) == Activation(0, [StepFocus(steps[0])])
  {
  }

  /** With a stable handler the tour keeps its step and no focus is sent. */
  lemma ParentRenderKeepsStep(d: ActivationDeps, steps: seq<GuidedStep>, step: nat)
    requires d.stepCount == |steps|
    ensures AfterCommit(d, ParentRender(d), steps, step) == Activation(step, [])
  {
  }

  /** The panel component: its props, its step state and the callbacks it has made. */
  class GuidedTour {
    var animal: Option<Animal>
    var isActive: bool
    var currentStep: nat
    var events: seq<TourEvent>

    function Steps(): seq<GuidedStep>
      reads this
    {
      StepsOf(animal)
    }

    /** The panel renders only when active, with an animal and a non-empty tour. */
    predicate Rendered()
      reads this
    {
      isActive && animal.Some? && |Steps()| > 0
    }

    /** The request the step effect makes for the current step, if there is one to make. */
    function StepEffect(): seq<TourEvent>
      reads this
    {
      if isActive && currentStep < |Steps()| then [Focused(StepFocus(Steps()[currentStep]))] else []
    }

    constructor ()
      ensures animal == None && !isActive && currentStep == 0 && events == []
    {
      animal, isActive, currentStep, events := None, false, 0, [];
    }

    /** New props from the parent; the effects run as separate calls. */
    method ReceiveProps(newAnimal: Option<Animal>, active: bool)
      modifies this
      ensures animal == newAnimal && isActive == active
      ensures currentStep == old(currentStep) && events == old(events)
    {
      animal, isActive := newAnimal, active;
    }

    /** Move to step `k`; the step effect focuses on it when that is a change. */
    method SetStep(k: nat)
      modifies this`currentStep, this`events
      ensures currentStep == k
      ensures events == old(events) + (if k != old(currentStep) then StepEffect() else [])
    {
      if k != currentStep {
        currentStep := k;
        events := events + StepEffect();
      }
    }

    /** The activation effect: focus on step 0 and go back to it. */
    method ActivationEffect()
      modifies this`currentStep, this`events
      ensures isActive && |Steps()| > 0 ==>
                currentStep == 0
                && events == old(events) + [Focused(StepFocus(Steps()[0]))]
                              + (if old(currentStep) != 0 then [Focused(StepFocus(Steps()[0]))] else [])
      ensures !(isActive && |Steps()| > 0) ==> currentStep == old(currentStep) && events == old(events)
    {
      if isActive && |Steps()| > 0 {
        events := events + [Focused(StepFocus(Steps()[0]))];
        SetStep(0);
      }
    }

    method HandleNext()
      requires Rendered()
      modifies this`currentStep, this`events
      ensures currentStep == NextIndex(old(currentStep), |Steps()|)
      ensures old(currentStep) < |Steps()| ==> currentStep < |Steps()|
      ensures IsLastStep(old(currentStep), |Steps()|) ==> events == old(events)
      ensures !IsLastStep(old(currentStep), |Steps()|) && currentStep < |Steps()| ==>
                events == old(events) + [Focused(StepFocus(Steps()[currentStep]))]
    {
      if !IsLastStep(currentStep, |Steps()|) {
        SetStep(currentStep + 1);
      }
    }

    method HandlePrevious()
      requires Rendered()
      modifies this`currentStep, this`events
      ensures currentStep == PreviousIndex(old(currentStep))
      ensures old(currentStep) < |Steps()| ==> currentStep < |Steps()|
      ensures IsFirstStep(old(currentStep)) ==> events == old(events)
      ensures !IsFirstStep(old(currentStep)) && currentStep < |Steps()| ==>
                events == old(events) + [Focused(StepFocus(Steps()[currentStep]))]
    {
      if !IsFirstStep(currentStep) {
        SetStep(currentStep - 1);
      }
    }

    /** A click on step dot `index`; the dots are drawn for the indices of the tour. */
    method JumpTo(index: nat)
      requires Rendered() && index < |Steps()|
      modifies this`currentStep, this`events
      ensures currentStep == index
      ensures events == old(events) + (if index != old(currentStep) then [Focused(StepFocus(Steps()[index]))] else [])
    {
      SetStep(index);
    }

    /** The close button forwards to the parent's close handler. */
    method HandleClose()
      requires Rendered()
      modifies this`events
      ensures events == old(events) + [CloseRequested]
    {
      events := events + [CloseRequested];
    }
  }
}
