/**
 * The wizard component (App.tsx) as an object: its `useState` fields, the
 * handlers that update them, and the auto-advance effect with its timer.
 *
 * React re-runs the effect after a render in which `step` or `clickCount`
 * changed: it first clears the timer the previous run armed, then arms a new
 * one when the power-up condition holds. `RunEffect` is that re-run; every
 * handler ends with it. A timer is identified by the handle `setTimeout`
 * returned, so a cleared timer that "fires" late is recognised as stale.
 */
module App {
  import opened Wrappers
  import opened Steps
  import opened Builtins
  import opened MessageService
  import opened AppRules

  const PARTNER_NAME: string := "bebie raerae"
  const MY_NAME: string := "tabachuy dada"

  /** A `generateMagic` call waiting for its reply; it remembers the step its closure saw. */
  datatype PendingRequest = PendingRequest(capturedStep: WizardStep)

  class Wizard {
    var step: WizardStep
    var clickCount: nat
    var message: string
    var loading: bool
    /** The handle of the armed auto-advance timer, if one is armed. */
    var timer: Option<nat>
    /** The handle the next `setTimeout` will return. */
    var nextTimerId: nat

    /**
     * A timer is armed exactly when the power-up condition holds, under a
     * handle already issued. In particular no timer is ever pending away from
     * TEASE_3 or below seven taps.
     */
    ghost predicate Valid()
      reads this
      ensures Valid() && timer.Some? ==> step == TEASE_3 && clickCount >= REQUIRED_CLICKS
      ensures Valid() && (step != TEASE_3 || clickCount < REQUIRED_CLICKS) ==> timer == None
    {
      (timer.Some? <==> Armed(step, clickCount)) &&
      (timer.Some? ==> timer.value < nextTimerId)
    }

    /** What one run of the effect leaves behind, given the `step` and `clickCount` it last ran for. */
    ghost predicate Reevaluated(prevStep: WizardStep, prevCount: nat, prevTimer: Option<nat>, prevNext: nat)
      reads this
    {
      if step == prevStep && clickCount == prevCount then
        timer == prevTimer && nextTimerId == prevNext
      else if Armed(step, clickCount) then
        timer == Some(prevNext) && nextTimerId == prevNext + 1
      else
        timer == None && nextTimerId == prevNext
    }

    /** The first render: WELCOME, no taps, no message, nothing pending. */
    constructor ()
      ensures Valid()
      ensures step == WELCOME && clickCount == 0 && message == "" && !loading && timer == None
    {
      step := WELCOME;
      clickCount := 0;
      message := "";
      loading := false;
      timer := None;
      nextTimerId := 0;
    }

    /** The auto-advance effect, run after a render whose previous run saw `prevStep` and `prevCount`. */
    method RunEffect(prevStep: WizardStep, prevCount: nat)
      requires timer.Some? ==> timer.value < nextTimerId
      requires step == prevStep && clickCount == prevCount ==> (timer.Some? <==> Armed(step, clickCount))
      modifies this
      ensures Valid()
      ensures step == old(step) && clickCount == old(clickCount)
      ensures message == old(message) && loading == old(loading)
      ensures Reevaluated(prevStep, prevCount, old(timer), old(nextTimerId))
    {
      if step != prevStep || clickCount != prevCount {
        timer := None;
        if Armed(step, clickCount) {
          timer := Some(nextTimerId);
          nextTimerId := nextTimerId + 1;
        }
      }
    }

    /**
     * The body of `handleNext` as seen by a closure that captured `from`: look
     * `from` up among the enumeration's values and move to the value after it,
     * unless it is the last.
     */
    method AdvanceFrom(from: WizardStep)
      modifies this`step
      ensures from == FINAL ==> step == old(step)
      ensures from != FINAL ==> step == NextStep(from)
    {
      var steps := Values();
      var currentIndex := ArrayIndexOf(steps, Value(from));
      SearchFindsIndex(from);
      if currentIndex < |steps| - 1 {
        IndexOfStepAt(currentIndex + 1);
        step := FromValue(steps[currentIndex + 1]).value;
      }
    }

    /** `handleNext`: one step forward, nothing at FINAL. */
    method Next()
      requires Valid()
      modifies this
      ensures Valid()
      ensures step == NextStep(old(step))
      ensures clickCount == old(clickCount) && message == old(message) && loading == old(loading)
      ensures Reevaluated(old(step), old(clickCount), old(timer), old(nextTimerId))
    {
      var prevStep, prevCount := step, clickCount;
      AdvanceFrom(step);
      RunEffect(prevStep, prevCount);
    }

    /** `handleBack`: one step back, nothing at WELCOME. */
    method Back()
      requires Valid()
      modifies this
      ensures Valid()
      ensures step == PrevStep(old(step))
      ensures clickCount == old(clickCount) && message == old(message) && loading == old(loading)
      ensures Reevaluated(old(step), old(clickCount), old(timer), old(nextTimerId))
    {
      var prevStep, prevCount := step, clickCount;
      var steps := Values();
      var currentIndex := ArrayIndexOf(steps, Value(step));
      SearchFindsIndex(step);
      if currentIndex > 0 {
        IndexOfStepAt(currentIndex - 1);
        step := FromValue(steps[currentIndex - 1]).value;
      }
      RunEffect(prevStep, prevCount);
    }

    /** `handleTeaseClick`: one more tap on the heart. */
    method TeaseClick()
      requires Valid()
      modifies this
      ensures Valid()
      ensures clickCount == old(clickCount) + 1
      ensures step == old(step) && message == old(message) && loading == old(loading)
      ensures Reevaluated(old(step), old(clickCount), old(timer), old(nextTimerId))
    {
      var prevStep, prevCount := step, clickCount;
      clickCount := clickCount + 1;
      RunEffect(prevStep, prevCount);
    }

    /**
     * The timeout with handle `id` elapses. Only the armed timer acts: it moves
     * on from TEASE_3 to TEASE_4 and clears the taps; a cleared handle does nothing.
     */
    method TimerElapsed(id: nat)
      requires Valid()
      modifies this
      ensures Valid()
      ensures old(timer) == Some(id) ==>
        old(step) == TEASE_3 && step == TEASE_4 && step == NextStep(old(step)) &&
        clickCount == 0 && timer == None && nextTimerId == old(nextTimerId)
      ensures old(timer) != Some(id) ==>
        step == old(step) && clickCount == old(clickCount) &&
        timer == old(timer) && nextTimerId == old(nextTimerId)
      ensures message == old(message) && loading == old(loading)
    {
      if timer == Some(id) {
        var prevStep, prevCount := step, clickCount;
        timer := None;
        AdvanceFrom(step);
        clickCount := 0;
        RunEffect(prevStep, prevCount);
      }
    }

    /** The textarea's `onChange`: the message becomes the typed text, verbatim. */
    method SetMessage(text: string)
      requires Valid()
      modifies this
      ensures Valid()
      ensures message == text
      ensures step == old(step) && clickCount == old(clickCount) && loading == old(loading)
      ensures timer == old(timer) && nextTimerId == old(nextTimerId)
    {
      message := text;
    }

    /**
     * "UNLOCK MY HEART": a button that only reacts while the message has a
     * non-whitespace character, and then behaves as Next.
     */
    method Unlock()
      requires Valid()
      modifies this
      ensures Valid()
      ensures step == if UnlockEnabled(old(message)) then NextStep(old(step)) else old(step)
      ensures clickCount == old(clickCount) && message == old(message) && loading == old(loading)
      ensures Reevaluated(old(step), old(clickCount), old(timer), old(nextTimerId))
    {
      if UnlockEnabled(message) {
        Next();
      }
    }

    /** The first half of `generateMagic`: show the loading state and send the request. */
    method BeginGenerate() returns (request: PendingRequest)
      requires Valid()
      modifies this
      ensures Valid()
      ensures loading && request.capturedStep == step
      ensures step == old(step) && clickCount == old(clickCount) && message == old(message)
      ensures timer == old(timer) && nextTimerId == old(nextTimerId)
    {
      loading := true;
      request := PendingRequest(step);
    }

    /**
     * The second half of `generateMagic`, once the adapter settles. If it
     * resolves, the message becomes its greeting, loading ends, and
     * `handleNext` runs with the step the request captured when it was sent.
     * If it rejects, the `await` throws and none of that runs: loading stays
     * on and step, taps, message and timer are as they were.
     */
    method CompleteGenerate(request: PendingRequest, response: Response)
      requires Valid()
      modifies this
      ensures Valid()
      ensures response.ClientFailed? ==>
        step == old(step) && message == old(message) && loading == old(loading) &&
        timer == old(timer) && nextTimerId == old(nextTimerId)
      ensures !response.ClientFailed? ==>
        Some(message) == GenerateLoveMessage(PARTNER_NAME, MY_NAME, response) && message != "" &&
        !loading &&
        step == (if request.capturedStep == FINAL then old(step) else NextStep(request.capturedStep))
      ensures clickCount == old(clickCount)
      ensures Reevaluated(old(step), old(clickCount), old(timer), old(nextTimerId))
    {
      var greeting := GenerateLoveMessage(PARTNER_NAME, MY_NAME, response);
      if greeting.Some? {
        message := greeting.value;
        loading := false;
        var prevStep, prevCount := step, clickCount;
        AdvanceFrom(request.capturedStep);
        RunEffect(prevStep, prevCount);
      }
    }

    /**
     * `generateMagic` with nothing happening while the reply is awaited. When
     * the adapter resolves, the message is its greeting and the wizard moves on
     * exactly one step, from GENERATOR to FINAL. When it rejects, the wizard is
     * left loading with step and message unchanged.
     */
    method GenerateMagic(response: Response)
      requires Valid()
      modifies this
      ensures Valid()
      ensures response.ClientFailed? ==>
        loading && step == old(step) && message == old(message) &&
        timer == old(timer) && nextTimerId == old(nextTimerId)
      ensures !response.ClientFailed? ==>
        Some(message) == GenerateLoveMessage(PARTNER_NAME, MY_NAME, response) && message != "" &&
        !loading && step == NextStep(old(step)) &&
        (old(step) == GENERATOR ==> step == FINAL)
      ensures clickCount == old(clickCount)
      ensures Reevaluated(old(step), old(clickCount), old(timer), old(nextTimerId))
    {
      var request := BeginGenerate();
      CompleteGenerate(request, response);
    }

    /** "Replay Our Love Story": back to the first screen with no taps and no message. */
    method Replay()
      requires Valid()
      modifies this
      ensures Valid()
      ensures step == WELCOME && clickCount == 0 && message == ""
      ensures loading == old(loading)
      ensures timer == None
      ensures Reevaluated(old(step), old(clickCount), old(timer), old(nextTimerId))
    {
      var prevStep, prevCount := step, clickCount;
      step := WELCOME;
      clickCount := 0;
      message := "";
      RunEffect(prevStep, prevCount);
    }
  }

  /** A fresh wizard taken by three presses of Next to the power-up screen. */
  method ReachPowerUp() returns (w: Wizard)
    ensures fresh(w) && w.Valid()
    ensures w.step == TEASE_3 && w.clickCount == 0 && w.message == "" && w.timer == None
  {
    w := new Wizard();
    w.Next();
    assert w.step == TEASE_1 && w.clickCount == 0 && w.message == "";
    w.Next();
    w.Next();
  }

  /**
   * Taps on the power-up screen: six leave it there with nothing armed; the
   * seventh arms the timer; an eighth before it elapses replaces it, so the
   * first handle is stale; the live one moves on to TEASE_4 with the taps
   * cleared, and elapsing again does nothing more.
   */
  method PowerUpScenario(w: Wizard)
    requires w.Valid() && w.step == TEASE_3 && w.clickCount == 0
    modifies w
    ensures w.Valid() && w.step == TEASE_4 && w.clickCount == 0 && w.timer == None
  {
    w.TeaseClick();
    w.TeaseClick();
    w.TeaseClick();
    w.TeaseClick();
    w.TeaseClick();
    w.TeaseClick();
    assert w.step == TEASE_3 && w.clickCount == 6 && w.timer == None;
    w.TeaseClick();
    var first := w.timer.value;
    w.TeaseClick();
    assert w.timer != Some(first);
    w.TimerElapsed(first);
    assert w.step == TEASE_3 && w.clickCount == 8;
    var live := w.timer.value;
    w.TimerElapsed(live);
    assert w.step == TEASE_4 && w.clickCount == 0;
    w.TimerElapsed(live);
  }

  /** Going back while the timer is armed clears it: its handle can no longer move the wizard. */
  method BackCancelsScenario(w: Wizard)
    requires w.Valid() && w.step == TEASE_3 && w.clickCount == REQUIRED_CLICKS
    modifies w
    ensures w.Valid() && w.step == TEASE_2 && w.clickCount == REQUIRED_CLICKS && w.timer == None
  {
    var armed := w.timer.value;
    w.Back();
    w.TimerElapsed(armed);
  }
}
