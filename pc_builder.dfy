/** The five-step build wizard (components/PCBuilder.tsx): which step is shown, the form
    every control edits, the summary of the last step and when the form is handed over. */
module PCBuilder {
  import opened Options
  import Text
  import App

  const StepCount := 5
  const StepTitles: seq<string> := ["Budget", "Style", "Performance", "Storage", "Final Details"]

  // The values each control offers.
  const ColorOptions: seq<string> := ["black", "white", "rgb", "blue", "red"]
  const FormFactorOptions: seq<string> := ["mini-itx", "micro-atx", "mid-tower", "full-tower"]
  const UseCaseOptions: seq<string> := ["gaming", "streaming", "productivity", "ai-ml", "general"]
  const CoolingOptions: seq<string> := ["air", "liquid", "hybrid"]
  const StorageOptions: seq<string> := ["ssd-only", "ssd-hdd", "nvme-only", "hybrid"]

  /** A choice field holds nothing yet or one of its control's values. */
  predicate OfferedOrUnset(v: string, options: seq<string>) {
    v == "" || v in options
  }

  /** The budget slider: 500 to 5000 in steps of 100. */
  predicate BudgetOnSlider(b: int) {
    500 <= b <= 5000 && b % 100 == 0
  }

  /** The capacity slider: 0.5 TB to 8 TB in steps of 0.5 TB, counted in half terabytes. */
  predicate CapacityOnSlider(halfTB: nat) {
    1 <= halfTB <= 16
  }

  /** The form as the wizard opens: budget 1500, capacity 1 TB, nothing chosen. */
  const DefaultForm := App.BuildFormData(1500, "", "", "", "", "", 2, false, "")

  /** What the controls can make of the form. */
  predicate ValidForm(f: App.BuildFormData) {
    && BudgetOnSlider(f.budget)
    && CapacityOnSlider(f.storageHalfTB)
    && OfferedOrUnset(f.colorPreference, ColorOptions)
    && OfferedOrUnset(f.formFactor, FormFactorOptions)
    && OfferedOrUnset(f.useCase, UseCaseOptions)
    && OfferedOrUnset(f.coolingType, CoolingOptions)
    && OfferedOrUnset(f.storageType, StorageOptions)
  }

  /** One control's change of the form. */
  datatype Edit =
    | SetBudget(budget: int)
    | SetColor(color: string)
    | SetFormFactor(formFactor: string)
    | SetRgb(rgb: bool)
    | SetUseCase(useCase: string)
    | SetCooling(cooling: string)
    | SetStorageType(storageType: string)
    | SetCapacity(halfTB: nat)
    | SetExtra(extra: string)

  /** The values a control can produce. */
  predicate Offered(e: Edit) {
    match e
    case SetBudget(b) => BudgetOnSlider(b)
    case SetColor(c) => c in ColorOptions
    case SetFormFactor(v) => v in FormFactorOptions
    case SetRgb(_) => true
    case SetUseCase(v) => v in UseCaseOptions
    case SetCooling(v) => v in CoolingOptions
    case SetStorageType(v) => v in StorageOptions
    case SetCapacity(h) => CapacityOnSlider(h)
    case SetExtra(_) => true
  }

  /** `setFormData({ ...formData, field: value })`: the edited field takes the value. */
  function Apply(f: App.BuildFormData, e: Edit): App.BuildFormData {
    match e
    case SetBudget(b) => f.(budget := b)
    case SetColor(c) => f.(colorPreference := c)
    case SetFormFactor(v) => f.(formFactor := v)
    case SetRgb(r) => f.(rgbPreference := r)
    case SetUseCase(v) => f.(useCase := v)
    case SetCooling(v) => f.(coolingType := v)
    case SetStorageType(v) => f.(storageType := v)
    case SetCapacity(h) => f.(storageHalfTB := h)
    case SetExtra(x) => f.(extraPreferences := x)
  }

  /** The opening form is one the controls could have produced, and every control keeps
      the form so. */
  lemma EditsKeepFormValid(f: App.BuildFormData, e: Edit)
    requires ValidForm(f) && Offered(e)
    ensures ValidForm(DefaultForm)
    ensures ValidForm(Apply(f, e))
  {
  }

  /** Edits of different fields commute; a later edit of the same field wins. */
  lemma EditsCommuteOrOverwrite(f: App.BuildFormData, e1: Edit, e2: Edit)
    ensures e1.SetBudget? == e2.SetBudget? && e1.SetColor? == e2.SetColor?
      && e1.SetFormFactor? == e2.SetFormFactor? && e1.SetRgb? == e2.SetRgb?
      && e1.SetUseCase? == e2.SetUseCase? && e1.SetCooling? == e2.SetCooling?
      && e1.SetStorageType? == e2.SetStorageType? && e1.SetCapacity? == e2.SetCapacity?
      ==> Apply(Apply(f, e1), e2) == Apply(f, e2)
    ensures e1.SetBudget? != e2.SetBudget? || e1.SetColor? != e2.SetColor?
      || e1.SetFormFactor? != e2.SetFormFactor? || e1.SetRgb? != e2.SetRgb?
      || e1.SetUseCase? != e2.SetUseCase? || e1.SetCooling? != e2.SetCooling?
      || e1.SetStorageType? != e2.SetStorageType? || e1.SetCapacity? != e2.SetCapacity?
      ==> Apply(Apply(f, e1), e2) == Apply(Apply(f, e2), e1)
  {
  }

  /** `((currentStep + 1) / steps.length) * 100`. */
  function Progress(step: nat): (p: real)
    requires step < StepCount
    ensures p == 20.0 * (step + 1) as real && 20.0 <= p <= 100.0
    ensures step + 1 == StepCount <==> p == 100.0
  {
    ((step + 1) as real / StepCount as real) * 100.0
  }

  /** `value?.replace('-', ' ')` in the summary. */
  function SummaryLabel(v: string): (r: string)
    ensures |r| == |v|
  {
    Text.ReplaceFirst(v, '-', ' ')
  }

  /** A value with at most one hyphen, as every offered value is, is shown without one;
      every other character is kept. */
  lemma SummaryClearsSingleHyphen(v: string)
    requires forall i, j :: 0 <= i < j < |v| && v[i] == '-' ==> v[j] != '-'
    ensures '-' !in SummaryLabel(v)
    ensures forall k :: 0 <= k < |v| && v[k] != '-' ==> SummaryLabel(v)[k] == v[k]
  {
    Text.ReplaceFirstSpec(v, '-', ' ');
  }

  /** Every value the form-factor, use-case and storage controls offer has at most one
      hyphen, so its summary label has none. */
  lemma OfferedLabelsHaveNoHyphen(v: string)
    requires v in FormFactorOptions + UseCaseOptions + StorageOptions
    ensures forall i, j :: 0 <= i < j < |v| && v[i] == '-' ==> v[j] != '-'
    ensures '-' !in SummaryLabel(v)
  {
    SummaryClearsSingleHyphen(v);
  }

  /** "Storage: <capacity>TB <storage type>". */
  function StorageSummary(f: App.BuildFormData): string {
    App.CapacityText(f.storageHalfTB) + "TB " + SummaryLabel(f.storageType)
  }

  /** Among the values the storage control can hold, only "nvme-only" selects the NVMe
      drive and its price. */
  lemma OfferedStorageNvme(st: string)
    requires OfferedOrUnset(st, StorageOptions)
    ensures App.IsNvme(st) <==> st == "nvme-only"
  {
    assert Text.IsPrefix("nvme", "nvme-only");
    if st != "" && st != "nvme-only" {
      assert st == "ssd-only" || st == "ssd-hdd" || st == "hybrid";
      Text.ContainsOnlyItsChars(st, "nvme", 'v');
    }
  }

  // ---------------------------------------------------------------- the navigation buttons

  /** The button that shares the slot right of "Previous": "Next" before the last step,
      the submit button on it. */
  datatype NavButton = NextButton | GenerateButton

  function ShownButton(step: nat): NavButton {
    if step < StepCount - 1 then NextButton else GenerateButton
  }

  /** The step after a click on the button shown at `step`. */
  function StepAfterClick(step: nat): nat {
    if ShownButton(step) == NextButton then step + 1 else step
  }

  /** Whether a click on the slot's button ends in a form submission, as written: the two
      buttons are one element without a key, so the click handler's re-render turns the
      clicked "Next" into the submit button (disabled while generating) before the
      click's default action runs. */
  predicate ClickSubmitsAsWritten(step: nat, isGenerating: bool) {
    ShownButton(StepAfterClick(step)) == GenerateButton && !isGenerating
  }

  /** Whether a click submits when the two buttons are distinct elements (given distinct
      keys): only the button that was clicked decides. */
  predicate ClickSubmitsKeyed(step: nat, isGenerating: bool) {
    ShownButton(step) == GenerateButton && !isGenerating
  }

  /** As written, a click on "Next" at the Storage step submits the form, so the Final
      Details step is skipped; with keyed buttons it does not. */
  lemma NextOnStorageStepSubmits()
    ensures ShownButton(3) == NextButton
    ensures ClickSubmitsAsWritten(3, false)
    ensures !ClickSubmitsKeyed(3, false)
  {
  }

  /** As written, a click submits exactly on the last two steps while not generating. */
  lemma ClickSubmitsAsWrittenMeaning(step: nat, isGenerating: bool)
    requires step < StepCount
    ensures ClickSubmitsAsWritten(step, isGenerating) <==> step >= StepCount - 2 && !isGenerating
  {
  }

  /** With keyed buttons a click submits exactly on the last step while not generating, so
      every step, Final Details included, is shown before the form is handed over. */
  lemma KeyedSubmitsOnlyFromLastStep(step: nat, isGenerating: bool)
    requires step < StepCount
    ensures ClickSubmitsKeyed(step, isGenerating) <==> step == StepCount - 1 && !isGenerating
    ensures ClickSubmitsKeyed(step, isGenerating) ==> ClickSubmitsAsWritten(step, isGenerating)
  {
  }

  class Wizard {
    var currentStep: nat
    var formData: App.BuildFormData

    ghost predicate Valid()
      reads this
    {
      currentStep < StepCount && ValidForm(formData)
    }

    constructor ()
      ensures Valid()
      ensures currentStep == 0 && formData == DefaultForm
    {
      currentStep := 0;
      formData := DefaultForm;
    }

    /** A click on "Next": forward one step, never past the last. On the Storage step the
        re-rendered button is the submit button by the time the click's default action
        runs, so the form is also handed over, unless builds are being generated. */
    method NextStep(isGenerating: bool) returns (sent: Option<App.BuildFormData>)
      requires Valid()
      modifies this
      ensures Valid() && formData == old(formData)
      ensures currentStep == if old(currentStep) < StepCount - 1 then old(currentStep) + 1 else old(currentStep)
      ensures sent.Some? <==> old(currentStep) == StepCount - 2 && !isGenerating
      ensures sent.Some? ==> sent.value == formData
    {
      var from := currentStep;
      if currentStep < StepCount - 1 {
        currentStep := currentStep + 1;
      }
      if ShownButton(from) == NextButton && ClickSubmitsAsWritten(from, isGenerating) {
        sent := Some(formData);
      } else {
        sent := None;
      }
    }

    /** The "Previous" button: back one step, never before the first. */
    method PrevStep()
      requires Valid()
      modifies this
      ensures Valid() && formData == old(formData)
      ensures currentStep == if old(currentStep) > 0 then old(currentStep) - 1 else old(currentStep)
    {
      if currentStep > 0 {
        currentStep := currentStep - 1;
      }
    }

    /** Any control of any step: one field changes, the step does not. */
    method Change(e: Edit)
      requires Valid() && Offered(e)
      modifies this
      ensures Valid()
      ensures formData == Apply(old(formData), e) && currentStep == old(currentStep)
    {
      EditsKeepFormValid(formData, e);
      formData := Apply(formData, e);
    }

    /** "Previous" is disabled on the first step. */
    predicate PreviousEnabled()
      reads this
    {
      currentStep != 0
    }

    /** The submit button replaces "Next" on the last step and is disabled while
        builds are being generated; pressing it hands the form over unchanged. */
    method PressSubmit(isGenerating: bool) returns (sent: Option<App.BuildFormData>)
      requires Valid()
      ensures sent.Some? <==> currentStep == StepCount - 1 && !isGenerating
      ensures sent.Some? ==> sent.value == formData && ValidForm(sent.value)
    {
      if currentStep == StepCount - 1 && !isGenerating {
        sent := Some(formData);
      } else {
        sent := None;
      }
    }
  }
}
