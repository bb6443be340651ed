/** The checkout flow (src/pages/Plans/CourseBuyingPage.jsx): a three-step
    counter moved by Continue and Back, a form record updated one field at a
    time, and the step indicator and panel chosen from the counter. */
module Checkout {

  const FirstStep := 1
  const LastStep := 3

  /** The form's named inputs. */
  datatype Field = FirstName | LastName | Email | ConfirmEmail | Country | Company | AgreeTerms

  /** A text input holds a string, the checkbox a flag. */
  datatype FieldValue = Text(text: string) | Flag(flag: bool)

  const AllFields: set<Field> := {FirstName, LastName, Email, ConfirmEmail, Country, Company, AgreeTerms}

  /** The record the page starts with: empty strings and an unticked box. */
  const InitialForm: map<Field, FieldValue> := map[
    FirstName := Text(""), LastName := Text(""), Email := Text(""), ConfirmEmail := Text(""),
    Country := Text(""), Company := Text(""), AgreeTerms := Flag(false)]

  /** `handleContinue`: one step forward below step 3. */
  function ContinueStep(step: int): int {
    if step < LastStep then step + 1 else step
  }

  /** `handleBack`: one step back above step 1. */
  function BackStep(step: int): int {
    if step > FirstStep then step - 1 else step
  }

  /** Both handlers keep the counter within 1..3, and each is a no-op at its end. */
  lemma StepsStayInRange(step: int)
    requires FirstStep <= step <= LastStep
    ensures FirstStep <= ContinueStep(step) <= LastStep
    ensures FirstStep <= BackStep(step) <= LastStep
    ensures ContinueStep(step) == step <==> step == LastStep
    ensures BackStep(step) == step <==> step == FirstStep
  {
  }

  /** Back undoes Continue wherever Continue moved, and the other way round. */
  lemma ContinueBackInverse(step: int)
    ensures FirstStep <= step < LastStep ==> BackStep(ContinueStep(step)) == step
    ensures FirstStep < step <= LastStep ==> ContinueStep(BackStep(step)) == step
  {
  }

  /** From any step, two Continues reach the review step. */
  lemma TwoContinuesReachReview(step: int)
    requires FirstStep <= step <= LastStep
    ensures ContinueStep(ContinueStep(step)) == LastStep
  {
  }

  /** `type === 'checkbox' ? checked : value`: the value an input event writes. */
  function EventValue(isCheckbox: bool, value: string, checked: bool): (r: FieldValue)
    ensures r.Flag? <==> isCheckbox
    ensures isCheckbox ==> r.flag == checked
    ensures !isCheckbox ==> r.text == value
  {
    if isCheckbox then Flag(checked) else Text(value)
  }

  /** Indicator k is coloured once the counter has reached it. */
  predicate IndicatorHighlighted(step: int, k: int) {
    step >= k
  }

  /** Indicator k is enlarged only for the current step. */
  predicate IndicatorEnlarged(step: int, k: int) {
    step == k
  }

  /** Panel k (account, payment, review) renders only when the counter equals k. */
  predicate PanelShown(step: int, k: int) {
    step == k
  }

  /** For a counter in range, exactly one of the three panels renders, and the
      highlighted indicators are exactly 1..step. */
  lemma ExactlyOnePanel(step: int)
    requires FirstStep <= step <= LastStep
    ensures PanelShown(step, step)
    ensures forall k :: FirstStep <= k <= LastStep && k != step ==> !PanelShown(step, k)
    ensures forall k :: FirstStep <= k <= LastStep ==> (IndicatorHighlighted(step, k) <==> k <= step)
  {
  }

  /** The page's state and its handlers. */
  class CheckoutPage {
    var currentStep: int
    var formData: map<Field, FieldValue>
    var promoCode: string

    constructor ()
      ensures currentStep == FirstStep && formData == InitialForm && promoCode == ""
      ensures Valid()
    {
      currentStep := FirstStep;
      formData := InitialForm;
      promoCode := "";
    }

    /** The counter is a step number and the record has all seven fields. */
    predicate Valid()
      reads this
    {
      FirstStep <= currentStep <= LastStep && formData.Keys == AllFields
    }

    /** Continue moves the counter without looking at the form. */
    method HandleContinue()
      requires Valid()
      modifies this`currentStep
      ensures Valid()
      ensures currentStep == ContinueStep(old(currentStep))
    {
      if currentStep < LastStep {
        currentStep := currentStep + 1;
      }
    }

    method HandleBack()
      requires Valid()
      modifies this`currentStep
      ensures Valid()
      ensures currentStep == BackStep(old(currentStep))
    {
      if currentStep > FirstStep {
        currentStep := currentStep - 1;
      }
    }

    /** `handleInputChange`: writes the event's value to the named field only. */
    method HandleInputChange(name: Field, isCheckbox: bool, value: string, checked: bool)
      requires Valid()
      modifies this`formData
      ensures Valid()
      ensures formData[name] == EventValue(isCheckbox, value, checked)
      ensures forall f :: f in old(formData) && f != name ==> formData[f] == old(formData)[f]
    {
      formData := formData[name := EventValue(isCheckbox, value, checked)];
    }

    method SetPromoCode(code: string)
      modifies this`promoCode
      ensures promoCode == code
    {
      promoCode := code;
    }
  }
}
