/** The application shell (App.tsx): the budget-tiered build generator and the
    `builds` / `isGenerating` state that the generator's timer updates. */
module App {
  import Text
  import opened Options

  /** The form record the builder wizard hands to the generator. The sliders' one-element
      arrays are held as their single value; the storage capacity is counted in half
      terabytes, the slider's step. */
  datatype BuildFormData = BuildFormData(
    budget: int,
    colorPreference: string,
    formFactor: string,
    useCase: string,
    coolingType: string,
    storageType: string,
    storageHalfTB: nat,
    rgbPreference: bool,
    extraPreferences: string)

  datatype PartType = CPU | GPU | RAM | Storage | Motherboard

  /** One line item of a build. Ratings are held in tenths (4.8 is 48). */
  datatype Component = Component(
    kind: PartType,
    name: string,
    specs: seq<string>,
    price: int,
    buyLink: string,
    ratingTenths: nat,
    popularity: Option<string>)

  datatype Benchmarks = Benchmarks(gaming: int, productivity: int, rendering: int)

  /** One generated tier. The performance rating is held in tenths (9.2 is 92). */
  datatype Build = Build(
    id: string,
    name: string,
    description: string,
    totalPrice: int,
    ratingTenths: nat,
    pros: seq<string>,
    benchmarks: Benchmarks,
    components: seq<Component>)

  // ---------------------------------------------------------------- rounding

  /** JavaScript's `Math.round(x)`: the integer `r` with `r - 1/2 <= x < r + 1/2`. */
  ghost predicate RoundsTo(x: real, r: int) {
    r as real - 0.5 <= x < r as real + 0.5
  }

  /** `Math.round(budget * 0.8)`. For an integer budget the product is a multiple of 1/5,
      never a tie, so the result is strictly within half a unit. */
  function RoundEightTenths(budget: int): (r: int)
    ensures RoundsTo(budget as real * 0.8, r)
    ensures r as real - 0.5 < budget as real * 0.8
  {
    (8 * budget + 5) / 10
  }

  /** `Math.round(budget * 1.2)`, likewise never a tie. */
  function RoundTwelveTenths(budget: int): (r: int)
    ensures RoundsTo(budget as real * 1.2, r)
    ensures r as real - 0.5 < budget as real * 1.2
  {
    (12 * budget + 5) / 10
  }

  // ---------------------------------------------------------------- tier 1 parts
  // The catalogue texts are named constants; each part's name, specs and price are
  // chosen by their own chain of strict `>` tests on the budget, as in the source.

  const Ryzen9_7950X := "AMD Ryzen 9 7950X"
  const Ryzen9_7900X := "AMD Ryzen 9 7900X"
  const Ryzen7_7700X := "AMD Ryzen 7 7700X"
  const HighCpuSpecs := ["16 Cores, 32 Threads", "Base Clock: 4.5 GHz", "170W TDP"]
  const LowCpuSpecs := ["8-12 Cores", "Base Clock: 4.5+ GHz", "105W TDP"]
  const CpuLink := "https://amazon.com/cpu"
  const BestSeller := "Best Seller"

  function AiCpu(budget: int): Component {
    Component(
      CPU,
      if budget > 2500 then Ryzen9_7950X else if budget > 1500 then Ryzen9_7900X else Ryzen7_7700X,
      if budget > 2500 then HighCpuSpecs else LowCpuSpecs,
      if budget > 2500 then 699 else if budget > 1500 then 549 else 399,
      CpuLink, 48, Some(BestSeller))
  }

  const Rtx4090 := "RTX 4090"
  const Rtx4080Super := "RTX 4080 Super"
  const Rtx4070Super := "RTX 4070 Super"
  const Rtx4060Ti := "RTX 4060 Ti"
  const HighGpuSpecs := ["16-24GB GDDR6X", "Ray Tracing Gen 3", "DLSS 3.5"]
  const LowGpuSpecs := ["12-16GB GDDR6", "Ray Tracing", "DLSS 3.0"]
  const GpuLink := "https://amazon.com/gpu"

  function AiGpu(budget: int): Component {
    Component(
      GPU,
      if budget > 3000 then Rtx4090
      else if budget > 2000 then Rtx4080Super
      else if budget > 1200 then Rtx4070Super
      else Rtx4060Ti,
      if budget > 2000 then HighGpuSpecs else LowGpuSpecs,
      if budget > 3000 then 1599 else if budget > 2000 then 999 else if budget > 1200 then 599 else 499,
      GpuLink, 49, None)
  }

  const Ram32GB := "32GB DDR5-6000"
  const Ram16GB := "16GB DDR5-5600"
  const RgbRamSpecs := ["RGB Lighting", "Low Latency", "XMP 3.0"]
  const PlainRamSpecs := ["Non-RGB", "CL36 Latency", "Reliable"]
  const RamLink := "https://amazon.com/ram"

  function AiRam(budget: int, rgbPreference: bool): Component {
    Component(
      RAM,
      if budget > 2000 then Ram32GB else Ram16GB,
      if rgbPreference then RgbRamSpecs else PlainRamSpecs,
      if budget > 2000 then 299 else 149,
      RamLink, 47, None)
  }

  /** The storage type asks for NVMe when it includes "nvme" (case-sensitive). */
  predicate IsNvme(storageType: string) {
    Text.Contains(storageType, "nvme")
  }

  /** The text JavaScript gives a capacity of `halfTB / 2` terabytes ("0.5", "1", "1.5", ...). */
  function CapacityText(halfTB: nat): string {
    Text.NatToString(halfTB / 2) + (if halfTB % 2 == 1 then ".5" else "")
  }

  /** `Math.round(capacity * (120 or 80))`; a half terabyte costs 60 or 40, so the
      product is already an integer. */
  function StoragePrice(storageType: string, halfTB: nat): int {
    if IsNvme(storageType) then 60 * halfTB else 40 * halfTB
  }

  const StorageSpecs := ["PCIe 4.0", "7000+ MB/s Read", "High Endurance"]
  const StorageLink := "https://amazon.com/storage"

  function AiStorage(storageType: string, halfTB: nat): Component {
    Component(
      Storage,
      CapacityText(halfTB) + "TB " + (if IsNvme(storageType) then "NVMe" else "SSD"),
      StorageSpecs,
      StoragePrice(storageType, halfTB),
      StorageLink, 46, None)
  }

  const X670EBoard := "X670E Premium Board"
  const B650Board := "B650 Gaming Board"
  const BoardSpecs := ["Wi-Fi 6E", "USB 4.0", "PCIe 5.0"]
  const BoardLink := "https://amazon.com/motherboard"

  function AiMotherboard(budget: int): Component {
    Component(
      Motherboard,
      if budget > 2000 then X670EBoard else B650Board,
      BoardSpecs,
      if budget > 2000 then 349 else 199,
      BoardLink, 45, None)
  }

  // ---------------------------------------------------------------- the three tiers

  const AiRecommendedName := "AI Recommended"
  const AiRecommendedDescription := "Our AI's top recommendation perfectly balanced for your needs"
  const AiRecommendedPros := ["Optimized for your use case", "Great price-to-performance", "Future-proof components"]

  function AiRecommended(form: BuildFormData): Build {
    Build(
      "1", AiRecommendedName, AiRecommendedDescription,
      form.budget, 92, AiRecommendedPros,
      Benchmarks(
        if form.useCase == "gaming" then 95 else 85,
        if form.useCase == "productivity" then 95 else 80,
        if form.useCase == "streaming" then 92 else 78),
      [AiCpu(form.budget), AiGpu(form.budget), AiRam(form.budget, form.rgbPreference),
       AiStorage(form.storageType, form.storageHalfTB), AiMotherboard(form.budget)])
  }

  const ValueChampionName := "Value Champion"
  const ValueChampionDescription := "Maximum performance per dollar spent - our AI's budget optimization"
  const ValueChampionPros := ["Best bang for buck", "Energy efficient", "Solid 1440p performance"]
  const Ryzen5_7600X := "AMD Ryzen 5 7600X"
  const ValueCpuSpecs := ["6-8 Cores", "High Clock Speed", "Efficient"]
  const Rtx4070 := "RTX 4070"
  const ValueGpuSpecs := ["12-16GB VRAM", "Efficient Architecture", "DLSS Support"]

  function ValueChampion(budget: int): Build {
    Build(
      "2", ValueChampionName, ValueChampionDescription,
      RoundEightTenths(budget), 88, ValueChampionPros,
      Benchmarks(85, 82, 80),
      [Component(CPU, if budget > 1500 then Ryzen7_7700X else Ryzen5_7600X, ValueCpuSpecs,
                 if budget > 1500 then 329 else 279, CpuLink, 46, None),
       Component(GPU, if budget > 1500 then Rtx4070 else Rtx4060Ti, ValueGpuSpecs,
                 if budget > 1500 then 549 else 449, GpuLink, 44, None)])
  }

  const FutureBeastName := "Future Beast"
  const FutureBeastDescription := "Overkill performance build - ready for anything the future throws at it"
  const FutureBeastPros := ["Extreme performance", "4K gaming ready", "Professional workloads", "10+ year future-proof"]
  const Ryzen9_7950X3D := "AMD Ryzen 9 7950X3D"
  const BeastCpuSpecs := ["16 Cores, 32 Threads", "3D V-Cache", "Gaming Optimized"]
  const BeastGpuSpecs := ["24GB GDDR6X", "16384 CUDA Cores", "Ray Tracing Beast"]
  const EditorsChoice := "Editor's Choice"

  const FutureBeastParts: seq<Component> := [
    Component(CPU, Ryzen9_7950X3D, BeastCpuSpecs, 799, CpuLink, 49, Some(EditorsChoice)),
    Component(GPU, Rtx4090, BeastGpuSpecs, 1599, GpuLink, 49, None)]

  function FutureBeast(budget: int): Build {
    Build(
      "3", FutureBeastName, FutureBeastDescription,
      RoundTwelveTenths(budget), 98, FutureBeastPros,
      Benchmarks(98, 95, 97),
      FutureBeastParts)
  }

  /** The `mockBuilds` list `generateBuilds` computes from the form. */
  function MockBuilds(form: BuildFormData): seq<Build> {
    [AiRecommended(form), ValueChampion(form.budget), FutureBeast(form.budget)]
  }

  // ---------------------------------------------------------------- properties of the table

  /** Always three tiers, in the order AI Recommended, Value Champion, Future Beast,
      each leading with a CPU and then a GPU. */
  lemma ThreeTiersInOrder(form: BuildFormData)
    ensures var bs := MockBuilds(form);
      && |bs| == 3
      && bs[0].id == "1" && bs[0].name == "AI Recommended"
      && bs[1].id == "2" && bs[1].name == "Value Champion"
      && bs[2].id == "3" && bs[2].name == "Future Beast"
      && |bs[0].components| == 5 && |bs[1].components| == 2 && |bs[2].components| == 2
      && bs[0].components[0].kind == CPU && bs[0].components[1].kind == GPU
      && bs[1].components[0].kind == CPU && bs[1].components[1].kind == GPU
      && bs[2].components[0].kind == CPU && bs[2].components[1].kind == GPU
  {
  }

  /** Tier totals: the budget itself, then `Math.round` of 0.8 and 1.2 times it; for a
      non-negative budget they are ordered Value Champion <= AI Recommended <= Future Beast. */
  lemma TierTotals(form: BuildFormData)
    ensures var bs := MockBuilds(form);
      && bs[0].totalPrice == form.budget
      && RoundsTo(form.budget as real * 0.8, bs[1].totalPrice)
      && RoundsTo(form.budget as real * 1.2, bs[2].totalPrice)
      && (form.budget >= 0 ==> bs[1].totalPrice <= bs[0].totalPrice <= bs[2].totalPrice)
  {
  }

  /** The tier-1 CPU price brackets; the cutoffs are strict, so 1500 and 2500 fall to the
      lower bracket. */
  lemma AiCpuPriceBrackets(budget: int)
    ensures budget <= 1500 ==> AiCpu(budget).price == 399
    ensures 1500 < budget <= 2500 ==> AiCpu(budget).price == 549
    ensures 2500 < budget ==> AiCpu(budget).price == 699
  {
  }

  /** A larger budget never buys a cheaper tier-1 CPU. */
  lemma AiCpuPriceMonotone(b1: int, b2: int)
    requires b1 <= b2
    ensures AiCpu(b1).price <= AiCpu(b2).price
  {
  }

  /** The CPU name follows the same brackets as its price: two budgets get the same
      CPU name exactly when they get the same CPU price. */
  lemma AiCpuNameMatchesPrice(b1: int, b2: int)
    ensures AiCpu(b1).name == AiCpu(b2).name <==> AiCpu(b1).price == AiCpu(b2).price
  {
  }

  /** The tier-1 GPU price brackets at strict cutoffs 3000, 2000 and 1200. */
  lemma AiGpuPriceBrackets(budget: int)
    ensures budget <= 1200 ==> AiGpu(budget).price == 499
    ensures 1200 < budget <= 2000 ==> AiGpu(budget).price == 599
    ensures 2000 < budget <= 3000 ==> AiGpu(budget).price == 999
    ensures 3000 < budget ==> AiGpu(budget).price == 1599
  {
  }

  lemma AiGpuPriceMonotone(b1: int, b2: int)
    requires b1 <= b2
    ensures AiGpu(b1).price <= AiGpu(b2).price
  {
  }

  /** The GPU spec list is decided by `budget > 2000` alone, a test separate from the
      price chain: two budgets in different price brackets above 2000 share it. */
  lemma AiGpuSpecsByBudgetAbove2000(b1: int, b2: int)
    ensures AiGpu(b1).specs == AiGpu(b2).specs <==> (b1 > 2000 <==> b2 > 2000)
  {
  }

  /** RAM and motherboard: above 2000 the 32GB kit at 299 and the X670E board at 349,
      otherwise (2000 included) the 16GB kit at 149 and the B650 board at 199. */
  lemma RamAndBoardBrackets(budget: int, rgb: bool)
    ensures budget > 2000 ==> AiRam(budget, rgb).name == "32GB DDR5-6000" && AiRam(budget, rgb).price == 299
                              && AiMotherboard(budget).name == "X670E Premium Board"
                              && AiMotherboard(budget).price == 349
    ensures budget <= 2000 ==> AiRam(budget, rgb).name == "16GB DDR5-5600" && AiRam(budget, rgb).price == 149
                               && AiMotherboard(budget).name == "B650 Gaming Board"
                               && AiMotherboard(budget).price == 199
  {
  }

  /** The RAM spec list depends on the RGB flag and on nothing else. */
  lemma RamSpecsOnlyByRgb(b1: int, b2: int, rgb1: bool, rgb2: bool)
    ensures AiRam(b1, rgb1).specs == AiRam(b2, rgb2).specs <==> rgb1 == rgb2
  {
  }

  /** The storage label says NVMe exactly when the type includes "nvme"; its price is the
      capacity in terabytes times 120 or 80, which needs no rounding. */
  lemma StorageLabelAndPrice(storageType: string, halfTB: nat)
    ensures var c := AiStorage(storageType, halfTB);
      && c.name == CapacityText(halfTB) + "TB " + (if Text.Contains(storageType, "nvme") then "NVMe" else "SSD")
      && c.price as real == (halfTB as real / 2.0) * (if Text.Contains(storageType, "nvme") then 120.0 else 80.0)
  {
  }

  /** More capacity never costs less, and a storage type that includes "nvme" costs
      strictly more than one that does not at any non-zero capacity. */
  lemma StoragePriceOrder(storageType: string, t1: string, t2: string, h1: nat, h2: nat)
    ensures h1 <= h2 ==> StoragePrice(storageType, h1) <= StoragePrice(storageType, h2)
    ensures IsNvme(t1) && !IsNvme(t2) && h1 > 0 ==> StoragePrice(t1, h1) > StoragePrice(t2, h1)
  {
  }

  /** The capacity texts of the slider's ends and middle. */
  lemma CapacityTextSamples()
    ensures CapacityText(1) == "0.5" && CapacityText(2) == "1" && CapacityText(3) == "1.5"
    ensures CapacityText(16) == "8"
  {
  }

  /** The last character but one of a capacity text is the decimal point exactly for an
      odd number of half terabytes. */
  lemma CapacityTextPoint(h: nat)
    ensures var t := CapacityText(h);
      && (h % 2 == 1 ==> |t| >= 3 && t[..|t| - 2] == Text.NatToString(h / 2))
      && (|t| >= 2 ==> (t[|t| - 2] == '.' <==> h % 2 == 1))
  {
    var d := Text.NatToString(h / 2);
    if h % 2 == 0 && |d| >= 2 {
      assert Text.IsDigit(d[|d| - 2]);
    }
  }

  /** Different capacities are shown as different texts. */
  lemma CapacityTextInjective(h1: nat, h2: nat)
    requires CapacityText(h1) == CapacityText(h2)
    ensures h1 == h2
  {
    CapacityTextPoint(h1);
    CapacityTextPoint(h2);
    var t := CapacityText(h1);
    if h1 % 2 == 1 {
      assert Text.NatToString(h1 / 2) == t[..|t| - 2] == Text.NatToString(h2 / 2);
    } else {
      assert h2 % 2 == 0;
      assert Text.NatToString(h1 / 2) == t == Text.NatToString(h2 / 2);
    }
    Text.NatToStringInjective(h1 / 2, h2 / 2);
  }

  /** Benchmarks: tier 1 follows the use case ("streaming" drives the rendering score);
      tiers 2 and 3 are constants. */
  lemma BenchmarksByUseCase(form: BuildFormData)
    ensures var bs := MockBuilds(form);
      && (bs[0].benchmarks.gaming == 95 <==> form.useCase == "gaming")
      && (bs[0].benchmarks.gaming == 85 <==> form.useCase != "gaming")
      && (bs[0].benchmarks.productivity == 95 <==> form.useCase == "productivity")
      && (bs[0].benchmarks.productivity == 80 <==> form.useCase != "productivity")
      && (bs[0].benchmarks.rendering == 92 <==> form.useCase == "streaming")
      && (bs[0].benchmarks.rendering == 78 <==> form.useCase != "streaming")
      && bs[1].benchmarks == Benchmarks(85, 82, 80)
      && bs[2].benchmarks == Benchmarks(98, 95, 97)
  {
  }

  /** Tier 2's two parts cost 329 and 549 above a 1500 budget, 279 and 449 otherwise. */
  lemma ValueChampionParts(budget: int)
    ensures var cs := ValueChampion(budget).components;
      && |cs| == 2 && cs[0].kind == CPU && cs[1].kind == GPU
      && (budget > 1500 ==> cs[0].price == 329 && cs[1].price == 549)
      && (budget <= 1500 ==> cs[0].price == 279 && cs[1].price == 449)
  {
  }

  /** Tier 3's parts do not depend on any form field. */
  lemma FutureBeastPartsFixed(f1: BuildFormData, f2: BuildFormData)
    ensures MockBuilds(f1)[2].components == MockBuilds(f2)[2].components
    ensures MockBuilds(f1)[2].components[0].price == 799 && MockBuilds(f1)[2].components[1].price == 1599
  {
  }

  /** Only the budget, use case, RGB flag, storage type and capacity reach the generator;
      colour, form factor, cooling and the free-text preferences are ignored. */
  lemma OnlyFiveFieldsMatter(f1: BuildFormData, f2: BuildFormData)
    requires f1.budget == f2.budget && f1.useCase == f2.useCase && f1.rgbPreference == f2.rgbPreference
    requires f1.storageType == f2.storageType && f1.storageHalfTB == f2.storageHalfTB
    ensures MockBuilds(f1) == MockBuilds(f2)
  {
  }

  // ---------------------------------------------------------------- the App state

  /** The `builds` and `isGenerating` state of the App component. Each call of
      `generateBuilds` schedules a 3000 ms timer; `scheduled` holds the forms of the timers
      that have not fired yet, oldest first (equal delays fire in scheduling order). */
  class AppState {
    var builds: seq<Build>
    var isGenerating: bool
    var scheduled: seq<BuildFormData>

    ghost predicate Valid()
      reads this
    {
      && (isGenerating ==> |scheduled| > 0)
      && (|builds| == 0 || |builds| == 3)
    }

    constructor ()
      ensures Valid()
      ensures builds == [] && !isGenerating && scheduled == []
    {
      builds := [];
      isGenerating := false;
      scheduled := [];
    }

    /** `generateBuilds(formData)`: raise the flag and schedule the timer. */
    method GenerateBuilds(form: BuildFormData)
      requires Valid()
      modifies this
      ensures Valid()
      ensures isGenerating && scheduled == old(scheduled) + [form] && builds == old(builds)
    {
      isGenerating := true;
      scheduled := scheduled + [form];
    }

    /** The oldest timer fires: `builds` is replaced by the three tiers of its form and the
        flag drops. */
    method TimerFires()
      requires Valid() && |scheduled| > 0
      modifies this
      ensures Valid()
      ensures builds == MockBuilds(old(scheduled)[0]) && |builds| == 3
      ensures !isGenerating && scheduled == old(scheduled)[1..]
    {
      builds := MockBuilds(scheduled[0]);
      scheduled := scheduled[1..];
      isGenerating := false;
    }
  }
}
