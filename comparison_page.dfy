/** The build comparison page (components/ComparisonPage.tsx): a fixed table of three
    sample builds, a selection of two or three of them, the best and worst score per
    benchmark, and the per-type component rows of the detailed view. */
module ComparisonPage {
  import opened Options
  import opened Sequences
  import App

  datatype Metric = Gaming | Productivity | Rendering | PowerEfficiency

  datatype Scores = Scores(gaming: int, productivity: int, rendering: int, powerEfficiency: int)

  function Score(s: Scores, m: Metric): int {
    match m
    case Gaming => s.gaming
    case Productivity => s.productivity
    case Rendering => s.rendering
    case PowerEfficiency => s.powerEfficiency
  }

  /** A component of a sample build; the rating is held in tenths. */
  datatype Part = Part(kind: App.PartType, name: string, specs: seq<string>, price: int, ratingTenths: nat)

  /** A sample build; the performance rating is held in tenths. */
  datatype SampleBuild = SampleBuild(
    id: string,
    name: string,
    description: string,
    totalPrice: int,
    ratingTenths: nat,
    benchmarks: Scores,
    pros: seq<string>,
    cons: seq<string>,
    components: seq<Part>)

  const GamingChampion := SampleBuild(
    "1", "Gaming Champion", "Ultimate gaming performance build", 2499, 95,
    Scores(95, 85, 88, 78),
    ["Excellent 4K gaming", "Ray tracing ready", "Future-proof"],
    ["Higher power consumption", "Premium price"],
    [Part(App.CPU, "AMD Ryzen 9 7900X", ["12 Cores, 24 Threads", "Base Clock: 4.7 GHz", "65W TDP"], 549, 48),
     Part(App.GPU, "RTX 4080 Super", ["16GB GDDR6X", "2610 MHz Boost", "Ray Tracing Gen 3"], 999, 49)])

  const ContentCreatorPro := SampleBuild(
    "2", "Content Creator Pro", "Optimized for streaming and content creation", 2199, 92,
    Scores(88, 96, 94, 85),
    ["Excellent for streaming", "Fast rendering", "Great multitasking"],
    ["Slightly lower gaming performance"],
    [Part(App.CPU, "AMD Ryzen 9 7950X", ["16 Cores, 32 Threads", "Base Clock: 4.5 GHz", "170W TDP"], 699, 47),
     Part(App.GPU, "RTX 4070 Super", ["12GB GDDR6X", "2475 MHz Boost", "AV1 Encoding"], 599, 46)])

  const BudgetBeast := SampleBuild(
    "3", "Budget Beast", "Maximum performance per dollar", 1299, 85,
    Scores(82, 78, 75, 90),
    ["Great value", "Low power consumption", "Solid 1440p gaming"],
    ["Limited 4K performance", "No ray tracing"],
    [Part(App.CPU, "AMD Ryzen 7 7700X", ["8 Cores, 16 Threads", "Base Clock: 4.5 GHz", "105W TDP"], 399, 45),
     Part(App.GPU, "RTX 4060 Ti", ["16GB GDDR6", "2540 MHz Boost", "DLSS 3.0"], 499, 44)])

  /** `mockBuilds`, in display order. */
  const SampleBuilds: seq<SampleBuild> := [GamingChampion, ContentCreatorPro, BudgetBeast]

  function Ids(bs: seq<SampleBuild>): (ids: seq<string>)
    ensures |ids| == |bs| && forall i :: 0 <= i < |bs| ==> ids[i] == bs[i].id
  {
    seq(|bs|, i requires 0 <= i < |bs| => bs[i].id)
  }

  /** The ids the selection cards offer: those of the sample builds. */
  lemma SampleIds()
    ensures Ids(SampleBuilds) == ["1", "2", "3"]
    ensures NoDuplicates(Ids(SampleBuilds))
  {
  }

  // ---------------------------------------------------------------- selection

  /** What the selection always satisfies: two or three distinct sample-build ids. */
  ghost predicate ValidSelection(sel: seq<string>) {
    && 2 <= |sel| <= 3
    && NoDuplicates(sel)
    && (forall i :: 0 <= i < |sel| ==> sel[i] in Ids(SampleBuilds))
  }

  /** The card's click handler: a selected build is dropped only while more than two are
      selected; an unselected one is appended only while fewer than three are. */
  function Toggled(sel: seq<string>, id: string): seq<string> {
    if id in sel then (if |sel| > 2 then Without(sel, id) else sel)
    else if |sel| < 3 then sel + [id]
    else sel
  }

  /** A click on a sample build keeps the selection valid, and says what changed:
      the clicked id left, arrived, or nothing moved because a bound was reached. */
  lemma {:induction false} ToggledKeepsSelectionValid(sel: seq<string>, id: string)
    requires ValidSelection(sel) && id in Ids(SampleBuilds)
    ensures ValidSelection(Toggled(sel, id))
    ensures id in sel && |sel| == 3 ==> id !in Toggled(sel, id) && |Toggled(sel, id)| == 2
    ensures id !in sel && |sel| == 2 ==> Toggled(sel, id) == sel + [id]
    ensures (id in sel && |sel| == 2) || (id !in sel && |sel| == 3) ==> Toggled(sel, id) == sel
  {
    if id in sel && |sel| > 2 {
      WithoutMember(sel, id);
      var r := Without(sel, id);
      forall i | 0 <= i < |r| ensures r[i] in Ids(SampleBuilds) {
        assert r[i] in sel;
      }
    } else if id !in sel && |sel| < 3 {
      var r := sel + [id];
      forall i, j | 0 <= i < j < |r| ensures r[i] != r[j] {
        if j == |sel| {
          assert r[i] in sel;
        }
      }
    }
  }

  /** `buildsToCompare`: the sample builds whose id is selected, in table order. */
  function BuildsToCompare(sel: seq<string>): seq<SampleBuild> {
    Filter(SampleBuilds, (b: SampleBuild) => b.id in sel)
  }

  /** The order in which builds were clicked does not matter: selections holding the same
      ids compare the same builds, and those builds keep the table's order. */
  lemma CompareOrderIndependent(s1: seq<string>, s2: seq<string>)
    requires forall x :: x in s1 <==> x in s2
    ensures BuildsToCompare(s1) == BuildsToCompare(s2)
    ensures IsSubsequence(BuildsToCompare(s1), SampleBuilds)
  {
    FilterAgree(SampleBuilds, (b: SampleBuild) => b.id in s1, (b: SampleBuild) => b.id in s2);
    FilterIsSubsequence(SampleBuilds, (b: SampleBuild) => b.id in s1);
  }

  /** Over builds with distinct ids, selecting distinct ids that all occur yields one
      build per selected id. */
  lemma {:induction false} SelectedCount(bs: seq<SampleBuild>, sel: seq<string>)
    requires NoDuplicates(Ids(bs)) && NoDuplicates(sel)
    requires forall i :: 0 <= i < |sel| ==> sel[i] in Ids(bs)
    ensures |Filter(bs, (b: SampleBuild) => b.id in sel)| == |sel|
    decreases |bs|
  {
    if bs == [] {
      HeadIsMember(sel);
    } else {
      var rest := bs[1..];
      assert Ids(rest) == Ids(bs)[1..];
      assert bs[0].id !in Ids(rest);
      if bs[0].id in sel {
        var sel' := Without(sel, bs[0].id);
        WithoutMember(sel, bs[0].id);
        forall i | 0 <= i < |sel'| ensures sel'[i] in Ids(rest) {
          assert sel'[i] in sel && sel'[i] != bs[0].id;
          var j :| 0 <= j < |sel| && sel[j] == sel'[i];
          var k :| 0 <= k < |Ids(bs)| && Ids(bs)[k] == sel'[i];
          assert k != 0;
          assert Ids(rest)[k - 1] == sel'[i];
        }
        SelectedCount(rest, sel');
        FilterAgree(rest, (b: SampleBuild) => b.id in sel, (b: SampleBuild) => b.id in sel');
      } else {
        forall i | 0 <= i < |sel| ensures sel[i] in Ids(rest) {
          var k :| 0 <= k < |Ids(bs)| && Ids(bs)[k] == sel[i];
          assert k != 0;
          assert Ids(rest)[k - 1] == sel[i];
        }
        SelectedCount(rest, sel);
      }
    }
  }

  /** A valid selection compares exactly as many builds as it holds ids, so at least two:
      the comparison view, which needs two, is always shown. */
  lemma ValidSelectionComparesAll(sel: seq<string>)
    requires ValidSelection(sel)
    ensures |BuildsToCompare(sel)| == |sel| >= 2
  {
    SampleIds();
    SelectedCount(SampleBuilds, sel);
  }

  // ---------------------------------------------------------------- best and worst

  function MetricScores(bs: seq<SampleBuild>, m: Metric): (r: seq<int>)
    ensures |r| == |bs| && forall i :: 0 <= i < |bs| ==> r[i] == Score(bs[i].benchmarks, m)
  {
    seq(|bs|, i requires 0 <= i < |bs| => Score(bs[i].benchmarks, m))
  }

  /** `Math.max(...s)`; `None` stands for the `-Infinity` of an empty list. */
  function MaxOf(s: seq<int>): (r: Option<int>)
    ensures r.Some? <==> |s| > 0
    ensures r.Some? ==> r.value in s && forall i :: 0 <= i < |s| ==> s[i] <= r.value
    decreases |s|
  {
    if s == [] then None
    else match MaxOf(s[1..])
      case None => Some(s[0])
      case Some(m) => Some(if s[0] >= m then s[0] else m)
  }

  /** `Math.min(...s)`; `None` stands for the `Infinity` of an empty list. */
  function MinOf(s: seq<int>): (r: Option<int>)
    ensures r.Some? <==> |s| > 0
    ensures r.Some? ==> r.value in s && forall i :: 0 <= i < |s| ==> r.value <= s[i]
    decreases |s|
  {
    if s == [] then None
    else match MinOf(s[1..])
      case None => Some(s[0])
      case Some(m) => Some(if s[0] <= m then s[0] else m)
  }

  /** `getBestScore` / `getWorstScore` over the compared builds. */
  function BestScore(sel: seq<string>, m: Metric): Option<int> {
    MaxOf(MetricScores(BuildsToCompare(sel), m))
  }

  function WorstScore(sel: seq<string>, m: Metric): Option<int> {
    MinOf(MetricScores(BuildsToCompare(sel), m))
  }

  /** Over a non-empty list of builds the best and the worst score exist, each is the
      score of one of the builds, and every score lies between them. */
  lemma ScoreBounds(bs: seq<SampleBuild>, m: Metric)
    requires |bs| > 0
    ensures var best := MaxOf(MetricScores(bs, m)); var worst := MinOf(MetricScores(bs, m));
      && best.Some? && worst.Some?
      && (exists i :: 0 <= i < |bs| && Score(bs[i].benchmarks, m) == best.value)
      && (exists i :: 0 <= i < |bs| && Score(bs[i].benchmarks, m) == worst.value)
      && (forall i :: 0 <= i < |bs| ==> worst.value <= Score(bs[i].benchmarks, m) <= best.value)
  {
    var s := MetricScores(bs, m);
    var hi :| 0 <= hi < |s| && s[hi] == MaxOf(s).value;
    var lo :| 0 <= lo < |s| && s[lo] == MinOf(s).value;
    assert Score(bs[hi].benchmarks, m) == MaxOf(s).value;
    assert Score(bs[lo].benchmarks, m) == MinOf(s).value;
  }

  /** For a valid selection both bounds exist and enclose every compared score. */
  lemma BestAndWorstBound(sel: seq<string>, m: Metric)
    requires ValidSelection(sel)
    ensures BestScore(sel, m).Some? && WorstScore(sel, m).Some?
    ensures var bs := BuildsToCompare(sel);
      && (exists i :: 0 <= i < |bs| && Score(bs[i].benchmarks, m) == BestScore(sel, m).value)
      && (exists i :: 0 <= i < |bs| && Score(bs[i].benchmarks, m) == WorstScore(sel, m).value)
      && (forall i :: 0 <= i < |bs| ==>
            WorstScore(sel, m).value <= Score(bs[i].benchmarks, m) <= BestScore(sel, m).value)
  {
    ValidSelectionComparesAll(sel);
    ScoreBounds(BuildsToCompare(sel), m);
  }

  // ---------------------------------------------------------------- colouring

  datatype Shade = Green | Red | Gray

  /** The score's colour: the best test comes first, then the worst. */
  function ShadeFor(score: int, best: int, worst: int): Shade {
    if score == best then Green else if score == worst then Red else Gray
  }

  /** The colour of a score among a list of scores: green only for a maximum, red only
      for a minimum that is not also a maximum, grey for one strictly between others. */
  lemma ShadeMeaning(s: seq<int>, i: int)
    requires 0 <= i < |s|
    ensures var best := MaxOf(s).value; var worst := MinOf(s).value;
      && (ShadeFor(s[i], best, worst) == Green <==> forall j :: 0 <= j < |s| ==> s[j] <= s[i])
      && (ShadeFor(s[i], best, worst) == Red <==>
            (forall j :: 0 <= j < |s| ==> s[i] <= s[j]) && (exists j :: 0 <= j < |s| && s[i] < s[j]))
      && (ShadeFor(s[i], best, worst) == Gray <==>
            (exists j :: 0 <= j < |s| && s[j] < s[i]) && (exists j :: 0 <= j < |s| && s[i] < s[j]))
  {
    var best := MaxOf(s).value;
    var worst := MinOf(s).value;
    var hi :| 0 <= hi < |s| && s[hi] == best;
    var lo :| 0 <= lo < |s| && s[lo] == worst;
    if s[i] != best {
      assert s[i] < s[hi];
    }
    if s[i] != worst {
      assert s[lo] < s[i];
    }
  }

  /** When every compared score ties, every score is shown green. */
  lemma AllTiedAllGreen(s: seq<int>, i: int)
    requires 0 <= i < |s|
    requires forall j :: 0 <= j < |s| ==> s[j] == s[0]
    ensures ShadeFor(s[i], MaxOf(s).value, MinOf(s).value) == Green
  {
    ShadeMeaning(s, i);
  }

  // ---------------------------------------------------------------- detailed rows

  /** `components.find(c => c.type === kind)`: the first part of that type, if any. */
  function FirstOfType(parts: seq<Part>, kind: App.PartType): (r: Option<Part>)
    ensures r.None? <==> forall k :: 0 <= k < |parts| ==> parts[k].kind != kind
    ensures r.Some? ==> exists k :: 0 <= k < |parts| && parts[k] == r.value && r.value.kind == kind
                                    && forall j :: 0 <= j < k ==> parts[j].kind != kind
    decreases |parts|
  {
    if parts == [] then None
    else if parts[0].kind == kind then Some(parts[0])
    else
      var r := FirstOfType(parts[1..], kind);
      if r.Some? then
        var k :| 0 <= k < |parts| - 1 && parts[1..][k] == r.value && r.value.kind == kind
                 && forall j :: 0 <= j < k ==> parts[1..][j].kind != kind;
        assert parts[k + 1] == r.value;
        r
      else r
  }

  /** The rows of the detailed view: the CPU row and then the GPU row. */
  const DetailTypes: seq<App.PartType> := [App.CPU, App.GPU]

  /** One row's cells: the first part of the row's type in each compared build. */
  function DetailRow(sel: seq<string>, kind: App.PartType): (cells: seq<Option<Part>>)
    ensures var bs := BuildsToCompare(sel);
      |cells| == |bs| && forall i :: 0 <= i < |bs| ==> cells[i] == FirstOfType(bs[i].components, kind)
  {
    var bs := BuildsToCompare(sel);
    seq(|bs|, i requires 0 <= i < |bs| => FirstOfType(bs[i].components, kind))
  }

  /** Every sample build has a part of each row type, so no detailed cell is empty. */
  lemma DetailCellsFilled(sel: seq<string>, kind: App.PartType, i: int)
    requires kind in DetailTypes
    requires 0 <= i < |BuildsToCompare(sel)|
    ensures DetailRow(sel, kind)[i].Some?
  {
    var b := BuildsToCompare(sel)[i];
    assert b in SampleBuilds;
    assert b.components[0].kind == App.CPU && b.components[1].kind == App.GPU;
  }

  // ---------------------------------------------------------------- page state

  datatype Mode = Overview | Detailed

  class Comparison {
    var selected: seq<string>
    var mode: Mode

    ghost predicate Valid()
      reads this
    {
      ValidSelection(selected)
    }

    constructor ()
      ensures Valid()
      ensures selected == ["1", "2"] && mode == Overview
    {
      selected := ["1", "2"];
      mode := Overview;
      SampleIds();
    }

    /** A click on the card of sample build `id`. */
    method Click(id: string)
      requires Valid() && id in Ids(SampleBuilds)
      modifies this
      ensures Valid()
      ensures selected == Toggled(old(selected), id) && mode == old(mode)
    {
      ToggledKeepsSelectionValid(selected, id);
      if id in selected {
        if |selected| > 2 {
          selected := Without(selected, id);
        }
      } else if |selected| < 3 {
        selected := selected + [id];
      }
    }

    method SetMode(m: Mode)
      requires Valid()
      modifies this
      ensures Valid() && mode == m && selected == old(selected)
    {
      mode := m;
    }

    /** The builds currently compared. */
    function Compared(): seq<SampleBuild>
      reads this
    {
      BuildsToCompare(selected)
    }
  }
}
