/**
 * The cooking panel (`CookingView` in `frontend/src/components/CookingView.tsx`): the recipe's
 * title and ingredients, the current step with its label, and the Previous and Next buttons
 * that move the step the page keeps. The component is a function of its props; a click is the
 * step it hands to `setCurrentStep`.
 */
module CookingView {
  import opened Wrappers
  import opened Text

  /** The recipe props; `ingredients` and `steps` may be absent (read through `?.`). */
  datatype Recipe = Recipe(title: string, ingredients: Option<seq<string>>, steps: Option<seq<string>>)

  const NoDetails: string := "No step details available."

  /** `recipe.steps?.length || 0`: the shown step total. */
  function StepTotal(r: Recipe): (n: nat)
    ensures r.steps.Some? ==> n == |r.steps.value|
    ensures r.steps.None? ==> n == 0
  {
    if r.steps.Some? then |r.steps.value| else 0
  }

  /** `recipe.steps?.length || 1`: the navigation bound, one step when there are none. */
  function StepBound(r: Recipe): (n: nat)
    ensures n >= 1
    ensures StepTotal(r) > 0 ==> n == StepTotal(r)
    ensures StepTotal(r) == 0 ==> n == 1
  {
    if StepTotal(r) == 0 then 1 else StepTotal(r)
  }

  /** The Previous button: one step back, never below the first. */
  function Previous(step: int): int {
    if 0 > step - 1 then 0 else step - 1
  }

  predicate PreviousDisabled(step: int) {
    step == 0
  }

  /** The Next button: one step on, never past the last. */
  function Next(r: Recipe, step: int): int {
    var last := StepBound(r) - 1;
    if last < step + 1 then last else step + 1
  }

  predicate NextDisabled(r: Recipe, step: int) {
    step == StepBound(r) - 1
  }

  /** A step in range: from the first to the last (the first alone when there are no steps). */
  predicate InRange(r: Recipe, step: int) {
    0 <= step <= StepBound(r) - 1
  }

  /** `recipe.steps?.[currentStep] || "No step details available."`: a missing or empty step gives the default. */
  function StepText(r: Recipe, step: int): (t: string)
    ensures t != ""
    ensures r.steps.Some? && 0 <= step < |r.steps.value| && r.steps.value[step] != "" ==> t == r.steps.value[step]
    ensures r.steps.None? || step < 0 || step >= |r.steps.value| ==> t == NoDetails
  {
    if r.steps.Some? && 0 <= step < |r.steps.value| && r.steps.value[step] != "" then r.steps.value[step]
    else NoDetails
  }

  /** "Step {currentStep + 1} / {recipe.steps?.length || 0}". */
  function StepLabel(r: Recipe, step: int): string {
    "Step " + IntToString(step + 1) + " / " + NatToString(StepTotal(r))
  }

  /** The label reads "Step 1 / 0" for a recipe without steps. */
  lemma NoStepsLabel(r: Recipe)
    requires r.steps.None? || r.steps == Some([])
    ensures StepLabel(r, 0) == "Step 1 / 0"
  {
    assert NatToString(1) == "1" && NatToString(0) == "0";
  }

  /** A button click. */
  datatype Click = PreviousClick | NextClick

  function Clicked(r: Recipe, step: int, c: Click): int {
    match c
    case PreviousClick => Previous(step)
    case NextClick => Next(r, step)
  }

  function ClickedAll(r: Recipe, step: int, cs: seq<Click>): int {
    if cs == [] then step else Clicked(r, ClickedAll(r, step, cs[..|cs| - 1]), cs[|cs| - 1])
  }

  /** A step in range stays in range whichever button is clicked. */
  lemma ClickKeepsRange(r: Recipe, step: int, c: Click)
    requires InRange(r, step)
    ensures InRange(r, Clicked(r, step, c))
  {
  }

  /** Starting in range, any sequence of clicks keeps the step in range. */
  lemma {:induction false} ClicksKeepRange(r: Recipe, step: int, cs: seq<Click>)
    requires InRange(r, step)
    ensures InRange(r, ClickedAll(r, step, cs))
  {
    if cs != [] {
      ClicksKeepRange(r, step, cs[..|cs| - 1]);
      ClickKeepsRange(r, ClickedAll(r, step, cs[..|cs| - 1]), cs[|cs| - 1]);
    }
  }

  /**
   * In range, each button is disabled exactly when clicking it would not move the step, and
   * otherwise it moves the step by one.
   */
  lemma DisabledIffStuck(r: Recipe, step: int)
    requires InRange(r, step)
    ensures PreviousDisabled(step) <==> Previous(step) == step
    ensures NextDisabled(r, step) <==> Next(r, step) == step
    ensures !PreviousDisabled(step) ==> Previous(step) == step - 1
    ensures !NextDisabled(r, step) ==> Next(r, step) == step + 1
  {
  }

  /** A step set past the end from elsewhere is brought back to the last one by Next. */
  lemma NextRecovers(r: Recipe, step: int)
    requires step >= StepBound(r) - 1
    ensures Next(r, step) == StepBound(r) - 1 && InRange(r, Next(r, step))
  {
  }

  /** In range, the text shown is the step itself whenever the recipe has that step and it is not empty. */
  lemma InRangeShowsStep(r: Recipe, step: int)
    requires InRange(r, step) && StepTotal(r) > 0
    ensures r.steps.value[step] != "" ==> StepText(r, step) == r.steps.value[step]
    ensures r.steps.value[step] == "" ==> StepText(r, step) == NoDetails
  {
  }

  /** What the panel shows. */
  datatype View =
    | Hidden
    | NoRecipe
    | Showing(title: string, ingredients: seq<string>, ingredientCount: nat, text: string, stepLabel: string,
              previousDisabled: bool, nextDisabled: bool)

  /** The component: nothing outside cooking mode, a placeholder without a recipe. */
  function Render(recipe: Option<Recipe>, step: int, cookingMode: bool): (v: View)
    ensures !cookingMode <==> v.Hidden?
    ensures cookingMode && recipe.None? <==> v.NoRecipe?
    ensures v.Showing? ==>
      && v.text == StepText(recipe.value, step) && v.stepLabel == StepLabel(recipe.value, step)
      && v.previousDisabled == PreviousDisabled(step) && v.nextDisabled == NextDisabled(recipe.value, step)
  {
    if !cookingMode then Hidden
    else match recipe
      case None => NoRecipe
      case Some(r) =>
        var ingredients := r.ingredients.GetOr([]);
        Showing(r.title, ingredients, |ingredients|, StepText(r, step), StepLabel(r, step),
                PreviousDisabled(step), NextDisabled(r, step))
  }
}
