/** The wizard's step numbering: moving forward and back, the Back control, and each step's title. */
module Steps {
  import opened Wrappers
  import opened Draft

  const FirstStep := 1
  const LastStep := 7

  /** `nextStep`: one step forward, never past the last. */
  function Next(step: int): int {
    if step + 1 < LastStep then step + 1 else LastStep
  }

  /** `prevStep`: one step back, never before the first. */
  function Prev(step: int): int {
    if step - 1 > FirstStep then step - 1 else FirstStep
  }

  /** `k` presses of `nextStep`. */
  function NextN(step: int, k: nat): int
    decreases k
  {
    if k == 0 then step else NextN(Next(step), k - 1)
  }

  /** `k` presses of `prevStep`. */
  function PrevN(step: int, k: nat): int
    decreases k
  {
    if k == 0 then step else PrevN(Prev(step), k - 1)
  }

  /** Both moves keep a valid step valid, move by exactly one away from the ends, and stop at the ends. */
  lemma StepMovesStayInRange(step: int)
    requires FirstStep <= step <= LastStep
    ensures FirstStep <= Next(step) <= LastStep && FirstStep <= Prev(step) <= LastStep
    ensures step < LastStep ==> Next(step) == step + 1
    ensures step > FirstStep ==> Prev(step) == step - 1
    ensures Next(LastStep) == LastStep && Prev(FirstStep) == FirstStep
  {
  }

  /** Any number of forward presses lands `min(step + k, 7)`: from the last step nothing changes. */
  lemma {:induction false} NextNClamps(step: int, k: nat)
    requires FirstStep <= step <= LastStep
    ensures NextN(step, k) == if step + k < LastStep then step + k else LastStep
    decreases k
  {
    if k > 0 {
      NextNClamps(Next(step), k - 1);
    }
  }

  /** Any number of back presses lands `max(step - k, 1)`: from the first step nothing changes. */
  lemma {:induction false} PrevNClamps(step: int, k: nat)
    requires FirstStep <= step <= LastStep
    ensures PrevN(step, k) == if step - k > FirstStep then step - k else FirstStep
    decreases k
  {
    if k > 0 {
      PrevNClamps(Prev(step), k - 1);
    }
  }

  /** The Back control is rendered on steps after the first, except the offer and the account steps. */
  predicate BackVisible(step: int) {
    step > 1 && step != 6 && step != 7
  }

  lemma BackVisibleOnQuestionSteps(step: int)
    requires FirstStep <= step <= LastStep
    ensures BackVisible(step) <==> 2 <= step <= 5
  {
  }

  /** `getStepTitle`: steps 2 to 4 name the product's unit when one of the offered products is chosen. */
  function StepTitle(step: int, pt: Option<ProductType>): (title: string)
    ensures title != "" <==> FirstStep <= step <= LastStep
  {
    match step
    case 1 => "What are you quitting?"
    case 2 =>
      if pt == Some(Cigarettes) then "How Many Packs Per Day?"
      else if pt == Some(VapeDisposable) then "How Many Vapes Per Day?"
      else if pt == Some(Pouches) then "How Many Pouches Per Day?"
      else if pt == Some(Dip) then "How Many Cans Per Day?"
      else "How Many Per Day?"
    case 3 =>
      if pt == Some(Cigarettes) then "Cost Per Pack"
      else if pt == Some(VapeDisposable) then "Cost Per Vape"
      else if pt == Some(Pouches) then "Cost Per Pouch"
      else if pt == Some(Dip) then "Cost Per Can"
      else "Cost Per Unit"
    case 4 =>
      if pt == Some(Cigarettes) then "How long have you been smoking?"
      else if pt == Some(VapeDisposable) then "How long have you been vaping?"
      else if pt == Some(Pouches) then "How long have you been using pouches?"
      else if pt == Some(Dip) then "How long have you been dipping?"
      else "How long have you been using?"
    case 5 => "Create Account"
    case 6 => "Start your journey"
    case 7 => "Create your account"
    case _ => ""
  }

  /**
   * Only steps 2 to 4 depend on the product, and only on the four offered
   * ones: any other product type (or none) gets the generic title, and the
   * four offered products get four different titles.
   */
  lemma TitleDependsOnOfferedProduct(step: int, pt: Option<ProductType>)
    ensures (step < 2 || step > 4 || pt.None? || !IsOffered(pt.value)) ==> StepTitle(step, pt) == StepTitle(step, None)
    ensures 2 <= step <= 4 && pt.Some? && IsOffered(pt.value) ==> StepTitle(step, pt) != StepTitle(step, None)
    ensures 2 <= step <= 4 ==>
      forall p, q :: IsOffered(p) && IsOffered(q) && p != q ==> StepTitle(step, Some(p)) != StepTitle(step, Some(q))
  {
  }
}
