/**
 * The wizard's step enumeration (types.ts): eight string-valued members in a
 * fixed declaration order, and the index lookups the app performs over that
 * order through `Object.values(WizardStep)`.
 */
module Steps {
  import opened Wrappers
  import opened Builtins

  /** The stages of the wizard, declared in this order. */
  datatype WizardStep = WELCOME | TEASE_1 | TEASE_2 | TEASE_3 | TEASE_4 | TEASE_5 | GENERATOR | FINAL

  /** Number of members of the enumeration. */
  const StepCount: nat := 8

  /**
   * The string value each member is declared with: its own name, an
   * upper-case identifier.
   */
  function Value(s: WizardStep): (r: string)
    ensures r != [] && forall c :: c in r ==> 'A' <= c <= 'Z' || '0' <= c <= '9' || c == '_'
  {
    match s
    case WELCOME => "WELCOME"
    case TEASE_1 => "TEASE_1"
    case TEASE_2 => "TEASE_2"
    case TEASE_3 => "TEASE_3"
    case TEASE_4 => "TEASE_4"
    case TEASE_5 => "TEASE_5"
    case GENERATOR => "GENERATOR"
    case FINAL => "FINAL"
  }

  /** The `as WizardStep` cast read back from a string: the member declared with that value, if any. */
  function FromValue(t: string): (r: Option<WizardStep>)
    ensures r.Some? ==> Value(r.value) == t
  {
    if t == "WELCOME" then Some(WELCOME)
    else if t == "TEASE_1" then Some(TEASE_1)
    else if t == "TEASE_2" then Some(TEASE_2)
    else if t == "TEASE_3" then Some(TEASE_3)
    else if t == "TEASE_4" then Some(TEASE_4)
    else if t == "TEASE_5" then Some(TEASE_5)
    else if t == "GENERATOR" then Some(GENERATOR)
    else if t == "FINAL" then Some(FINAL)
    else None
  }

  /** `Object.values(WizardStep)`: the member values in declaration order. */
  function Values(): (vs: seq<string>)
    ensures |vs| == StepCount
  {
    [Value(WELCOME), Value(TEASE_1), Value(TEASE_2), Value(TEASE_3),
     Value(TEASE_4), Value(TEASE_5), Value(GENERATOR), Value(FINAL)]
  }

  /** The position of a member in declaration order. */
  function IndexOf(s: WizardStep): (i: nat)
    ensures i < StepCount && Values()[i] == Value(s)
  {
    match s
    case WELCOME => 0
    case TEASE_1 => 1
    case TEASE_2 => 2
    case TEASE_3 => 3
    case TEASE_4 => 4
    case TEASE_5 => 5
    case GENERATOR => 6
    case FINAL => 7
  }

  /**
   * `steps[i] as WizardStep`: the member at position `i`, or `None` when `i`
   * is outside the sequence (an out-of-range array read yields `undefined`).
   */
  function StepAt(i: int): (r: Option<WizardStep>)
    ensures r.Some? <==> 0 <= i < StepCount
    ensures r.Some? ==> Value(r.value) == Values()[i]
  {
    if 0 <= i < |Values()| then FromValue(Values()[i]) else None
  }

  /** Reading a member's value back as a step gives the member again. */
  lemma ValueRoundTrip(s: WizardStep)
    ensures FromValue(Value(s)) == Some(s)
  {
  }

  /** No two members share a value. */
  lemma ValueInjective(a: WizardStep, b: WizardStep)
    ensures Value(a) == Value(b) ==> a == b
  {
  }

  /** The values listed by `Object.values` are pairwise distinct. */
  lemma ValuesDistinct(i: nat, j: nat)
    requires i < j < StepCount
    ensures Values()[i] != Values()[j]
  {
  }

  /** Every member is listed exactly where `IndexOf` places it, and nowhere else. */
  lemma StepAtIndexOf(s: WizardStep)
    ensures StepAt(IndexOf(s)) == Some(s)
  {
  }

  /** Every position of the sequence holds a member whose index is that position. */
  lemma IndexOfStepAt(i: int)
    requires 0 <= i < StepCount
    ensures StepAt(i).Some? && IndexOf(StepAt(i).value) == i
  {
  }

  /**
   * The declaration order: eight members, each with its own name as value,
   * WELCOME first, FINAL last, TEASE_4 right after TEASE_3 and FINAL right
   * after GENERATOR.
   */
  lemma DeclarationOrder()
    ensures Values() == ["WELCOME", "TEASE_1", "TEASE_2", "TEASE_3", "TEASE_4", "TEASE_5", "GENERATOR", "FINAL"]
    ensures IndexOf(WELCOME) == 0 && IndexOf(FINAL) == StepCount - 1
    ensures IndexOf(TEASE_4) == IndexOf(TEASE_3) + 1
    ensures IndexOf(FINAL) == IndexOf(GENERATOR) + 1
  {
  }

  /**
   * `Object.values(WizardStep).indexOf(step)`, the search the app performs,
   * finds each member at its declaration index (never -1, never a later copy).
   */
  lemma SearchFindsIndex(s: WizardStep)
    ensures ArrayIndexOf(Values(), Value(s)) == IndexOf(s)
  {
    var r := ArrayIndexOf(Values(), Value(s));
    assert Values()[IndexOf(s)] == Value(s);
    if r < IndexOf(s) {
      ValuesDistinct(r, IndexOf(s));
    }
  }
}
