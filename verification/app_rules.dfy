/**
 * The pure rules of the wizard component (App.tsx): where Next and Back lead,
 * when the auto-advance timer is due, when the Generator screen's forward
 * button is enabled, and which progress and tap dots are filled.
 */
module AppRules {
  import opened Steps
  import opened Builtins

  /** Taps needed on the power-up screen before it advances by itself. */
  const REQUIRED_CLICKS: nat := 7

  /** The step `handleNext` moves to: the following member, or none past FINAL. */
  function NextStep(s: WizardStep): (r: WizardStep)
    ensures s == FINAL ==> r == FINAL
    ensures s != FINAL ==> IndexOf(r) == IndexOf(s) + 1
  {
    var i := IndexOf(s);
    if i < StepCount - 1 then
      IndexOfStepAt(i + 1);
      StepAt(i + 1).value
    else s
  }

  /** The step `handleBack` moves to: the preceding member, or none before WELCOME. */
  function PrevStep(s: WizardStep): (r: WizardStep)
    ensures s == WELCOME ==> r == WELCOME
    ensures s != WELCOME ==> IndexOf(r) + 1 == IndexOf(s)
  {
    var i := IndexOf(s);
    if i > 0 then
      IndexOfStepAt(i - 1);
      StepAt(i - 1).value
    else s
  }

  /** Two steps with the same index are the same step. */
  lemma IndexOfInjective(a: WizardStep, b: WizardStep)
    ensures IndexOf(a) == IndexOf(b) ==> a == b
  {
  }

  /** Back undoes Next everywhere except at FINAL, where Next did nothing. */
  lemma BackAfterNext(s: WizardStep)
    requires s != FINAL
    ensures PrevStep(NextStep(s)) == s
  {
  }

  /** Next undoes Back everywhere except at WELCOME, where Back did nothing. */
  lemma NextAfterBack(s: WizardStep)
    requires s != WELCOME
    ensures NextStep(PrevStep(s)) == s
  {
  }

  /** `n` presses of Next in a row. */
  function NextTimes(s: WizardStep, n: nat): WizardStep
    decreases n
  {
    if n == 0 then s else NextTimes(NextStep(s), n - 1)
  }

  /**
   * Pressing Next `n` times moves `n` places forward but never past FINAL:
   * the wizard always ends at FINAL after at most seven presses.
   */
  lemma {:induction false} NextTimesIndex(s: WizardStep, n: nat)
    ensures IndexOf(NextTimes(s, n)) == if IndexOf(s) + n < StepCount then IndexOf(s) + n else StepCount - 1
    ensures IndexOf(s) + n >= StepCount - 1 ==> NextTimes(s, n) == FINAL
    decreases n
  {
    if n > 0 {
      NextTimesIndex(NextStep(s), n - 1);
    }
    IndexOfInjective(NextTimes(s, n), FINAL);
  }

  /**
   * The condition under which the auto-advance effect arms its timer: the
   * power-up screen with all seven of its tap dots filled.
   */
  predicate Armed(step: WizardStep, clickCount: nat)
    ensures Armed(step, clickCount) <==>
      step == TEASE_3 && forall i :: 0 <= i < REQUIRED_CLICKS ==> TapDots(clickCount)[i]
  {
    TapDotsFilled(clickCount);
    clickCount >= REQUIRED_CLICKS && step == TEASE_3
  }

  /**
   * The Generator screen's "UNLOCK MY HEART" button is enabled exactly when the
   * message holds some character other than whitespace (`!message.trim()` disables it).
   */
  function UnlockEnabled(message: string): (enabled: bool)
    ensures enabled <==> exists i :: 0 <= i < |message| && !IsWhitespace(message[i])
  {
    Trim(message) != ""
  }

  /** The progress bar: dot `i` is filled when the current step's index is at least `i`. */
  function ProgressDots(step: WizardStep): (dots: seq<bool>)
    ensures |dots| == StepCount
  {
    var steps := Values();
    seq(|steps|, i requires 0 <= i < |steps| => IndexOf(step) >= i)
  }

  /**
   * The progress bar is drawn on every screen but the final one, which is
   * exactly while it is not full.
   */
  predicate ProgressDotsShown(step: WizardStep)
    ensures ProgressDotsShown(step) <==> CountFilled(ProgressDots(step)) < StepCount
  {
    ProgressDotsFilled(step);
    step != FINAL
  }

  /** The tap indicator under the heart: dot `i` of seven is filled when `i < clickCount`. */
  function TapDots(clickCount: int): (dots: seq<bool>)
    ensures |dots| == REQUIRED_CLICKS
  {
    seq(REQUIRED_CLICKS, i => i < clickCount)
  }

  /** How many dots are filled. */
  function CountFilled(dots: seq<bool>): (n: nat)
    ensures n <= |dots|
  {
    if dots == [] then 0 else CountFilled(dots[..|dots| - 1]) + (if dots[|dots| - 1] then 1 else 0)
  }

  /** A row of `n` dots whose first `k` are filled has `min(n, k)` filled dots. */
  lemma {:induction false} CountFilledPrefix(dots: seq<bool>, k: int)
    requires forall i :: 0 <= i < |dots| ==> (dots[i] <==> i < k)
    ensures CountFilled(dots) == if k < 0 then 0 else if k < |dots| then k else |dots|
  {
    if dots != [] {
      CountFilledPrefix(dots[..|dots| - 1], k);
    }
  }

  /**
   * The progress bar fills a prefix: exactly `IndexOf(step) + 1` dots, the
   * first ones. While it is shown at least one dot stays empty.
   */
  lemma ProgressDotsFilled(step: WizardStep)
    ensures var dots := ProgressDots(step);
      CountFilled(dots) == IndexOf(step) + 1 &&
      (forall i :: 0 <= i < |dots| ==> (dots[i] <==> i < IndexOf(step) + 1))
    ensures step != FINAL ==> CountFilled(ProgressDots(step)) < StepCount
  {
    CountFilledPrefix(ProgressDots(step), IndexOf(step) + 1);
    if step != FINAL {
      IndexOfInjective(step, FINAL);
    }
  }

  /**
   * The tap indicator fills one dot per tap, up to seven, and is full exactly
   * when the tap count has reached the auto-advance threshold.
   */
  lemma TapDotsFilled(clickCount: nat)
    ensures CountFilled(TapDots(clickCount)) ==
      if clickCount < REQUIRED_CLICKS then clickCount else REQUIRED_CLICKS
    ensures (forall i :: 0 <= i < REQUIRED_CLICKS ==> TapDots(clickCount)[i]) <==>
      clickCount >= REQUIRED_CLICKS
  {
    CountFilledPrefix(TapDots(clickCount), clickCount);
    if clickCount < REQUIRED_CLICKS {
      assert !TapDots(clickCount)[clickCount];
    }
  }
}
