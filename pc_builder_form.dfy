/** The single-page build form (app/components/PCBuilderForm.tsx): a budget typed as
    text, two drop-downs, ten preference toggles and the range check made on submit. */
module PCBuilderForm {
  import opened Options
  import Text

  const UseOptions: seq<string> := ["Video Editing", "Gaming", "3D Rendering", "Programming", "Office Work"]
  const RegionOptions: seq<string> := ["United States", "Canada", "United Kingdom"]

  datatype PrefKey =
    | RgbLighting | CompactSize | QuietOperation | OverclockingReady | FutureProof
    | OnboardWifi | AllWhiteTheme | MaximumAirflow | PreferAmd | PreferIntelNvidia

  /** The toggles in display order. */
  const PrefKeys: seq<PrefKey> := [
    RgbLighting, CompactSize, QuietOperation, OverclockingReady, FutureProof,
    OnboardWifi, AllWhiteTheme, MaximumAirflow, PreferAmd, PreferIntelNvidia]

  const AllKeys: set<PrefKey> := {
    RgbLighting, CompactSize, QuietOperation, OverclockingReady, FutureProof,
    OnboardWifi, AllWhiteTheme, MaximumAirflow, PreferAmd, PreferIntelNvidia}

  /** Every preference starts off. */
  const NoPreferences: map<PrefKey, bool> := map k | k in AllKeys :: false

  /** Every preference has a toggle and a place in the record, and all start off. */
  lemma PrefKeysComplete()
    ensures forall k: PrefKey :: k in PrefKeys && k in AllKeys
    ensures NoPreferences.Keys == AllKeys && forall k :: k in NoPreferences ==> !NoPreferences[k]
  {
    forall k: PrefKey ensures k in PrefKeys && k in AllKeys {
      match k
      case RgbLighting =>
      case CompactSize =>
      case QuietOperation =>
      case OverclockingReady =>
      case FutureProof =>
      case OnboardWifi =>
      case AllWhiteTheme =>
      case MaximumAirflow =>
      case PreferAmd =>
      case PreferIntelNvidia =>
    }
  }

  /** `handlePreferenceChange(key)`: negate one preference. */
  function Flip(prefs: map<PrefKey, bool>, k: PrefKey): (r: map<PrefKey, bool>)
    requires k in prefs
    ensures r.Keys == prefs.Keys && r[k] == !prefs[k]
    ensures forall j :: j in prefs && j != k ==> r[j] == prefs[j]
  {
    prefs[k := !prefs[k]]
  }

  /** Two presses of the same toggle cancel out; presses of different toggles commute. */
  lemma FlipInvolutiveAndCommutative(prefs: map<PrefKey, bool>, k: PrefKey, j: PrefKey)
    requires k in prefs && j in prefs
    ensures Flip(Flip(prefs, k), k) == prefs
    ensures Flip(Flip(prefs, k), j) == Flip(Flip(prefs, j), k)
  {
  }

  /** The range check exactly as the handler makes it: `parseInt` gives `NaN` (`None`)
      for a budget without leading digits, and both comparisons with `NaN` are false,
      so such a budget passes. */
  predicate BudgetAccepted(raw: string) {
    var n := Text.ParseInt(raw);
    !(n.Some? && (n.value < 350 || n.value > 10000))
  }

  /** The empty budget field, which the number input allows, passes the check. */
  lemma EmptyBudgetAccepted()
    ensures BudgetAccepted("")
    ensures Text.ParseInt("") == None
  {
  }

  /** The check the budget text evidently should pass: it reads as a number from 350 to
      10000. */
  predicate BudgetInRange(raw: string) {
    var n := Text.ParseInt(raw);
    n.Some? && 350 <= n.value <= 10000
  }

  /** The intended check accepts exactly the budgets that read as a number in range;
      on those it agrees with the handler's check, and the empty field is refused. */
  lemma BudgetInRangeMeaning(raw: string)
    ensures BudgetInRange(raw) <==> exists n: int :: 350 <= n <= 10000 && Text.ParseInt(raw) == Some(n)
    ensures BudgetInRange(raw) ==> BudgetAccepted(raw)
    ensures !BudgetInRange("")
  {
    if BudgetInRange(raw) {
      var n := Text.ParseInt(raw).value;
      assert 350 <= n <= 10000 && Text.ParseInt(raw) == Some(n);
    }
  }

  /** For a budget typed as a plain number, both checks are the stated range. */
  lemma TypedBudgetRange(n: nat)
    ensures BudgetAccepted(Text.NatToString(n)) <==> 350 <= n <= 10000
    ensures BudgetInRange(Text.NatToString(n)) <==> 350 <= n <= 10000
  {
    Text.ParseIntOfNatToString(n);
  }

  /** What `onGenerate` receives; the budget is passed on as the text typed. */
  datatype Payload = Payload(
    budget: string,
    primaryUse: string,
    region: string,
    preferences: map<PrefKey, bool>,
    additionalRequirements: string)

  class Form {
    var budget: string
    var primaryUse: string
    var region: string
    var preferences: map<PrefKey, bool>
    var additionalRequirements: string

    ghost predicate Valid()
      reads this
    {
      primaryUse in UseOptions && region in RegionOptions && preferences.Keys == AllKeys
    }

    constructor ()
      ensures Valid()
      ensures budget == "2500" && primaryUse == "Video Editing" && region == "United States"
      ensures preferences == NoPreferences && additionalRequirements == []
    {
      budget := "2500";
      primaryUse := "Video Editing";
      region := "United States";
      preferences := NoPreferences;
      additionalRequirements := [];
    }

    method SetBudget(v: string)
      requires Valid()
      modifies this
      ensures Valid() && budget == v
      ensures primaryUse == old(primaryUse) && region == old(region)
      ensures preferences == old(preferences) && additionalRequirements == old(additionalRequirements)
    {
      budget := v;
    }

    method SetPrimaryUse(v: string)
      requires Valid() && v in UseOptions
      modifies this
      ensures Valid() && primaryUse == v
      ensures budget == old(budget) && region == old(region)
      ensures preferences == old(preferences) && additionalRequirements == old(additionalRequirements)
    {
      primaryUse := v;
    }

    method SetRegion(v: string)
      requires Valid() && v in RegionOptions
      modifies this
      ensures Valid() && region == v
      ensures budget == old(budget) && primaryUse == old(primaryUse)
      ensures preferences == old(preferences) && additionalRequirements == old(additionalRequirements)
    {
      region := v;
    }

    method TogglePreference(k: PrefKey)
      requires Valid()
      modifies this
      ensures Valid() && preferences == Flip(old(preferences), k)
      ensures budget == old(budget) && primaryUse == old(primaryUse) && region == old(region)
      ensures additionalRequirements == old(additionalRequirements)
    {
      preferences := Flip(preferences, k);
    }

    method SetRequirements(v: string)
      requires Valid()
      modifies this
      ensures Valid() && additionalRequirements == v
      ensures budget == old(budget) && primaryUse == old(primaryUse) && region == old(region)
      ensures preferences == old(preferences)
    {
      additionalRequirements := v;
    }

    /** `handleSubmit`: an alert and nothing sent when the budget fails the check, else
        the form's values unchanged. */
    method Submit() returns (sent: Option<Payload>, alerted: bool)
      requires Valid()
      ensures alerted <==> !BudgetAccepted(budget)
      ensures sent.Some? <==> !alerted
      ensures sent.Some? ==> sent.value == Payload(budget, primaryUse, region, preferences, additionalRequirements)
    {
      var n := Text.ParseInt(budget);
      if n.Some? && (n.value < 350 || n.value > 10000) {
        sent, alerted := None, true;
      } else {
        sent, alerted := Some(Payload(budget, primaryUse, region, preferences, additionalRequirements)), false;
      }
    }
  }
}
