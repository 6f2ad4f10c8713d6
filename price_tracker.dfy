/** The price tracker page (components/PriceTrackerPage.tsx): three tracked components,
    the search and category filter over them, the trend shown for each, and the
    selected component whose history is charted. */
module PriceTracker {
  import opened Options
  import opened Sequences
  import Text

  datatype PricePoint = PricePoint(date: string, price: int)

  /** A tracked component; the percentage change is held in tenths of a percent. */
  datatype TrackedComponent = TrackedComponent(
    id: string,
    name: string,
    category: string,
    currentPrice: int,
    lowestPrice: int,
    highestPrice: int,
    changeTenths: int,
    priceHistory: seq<PricePoint>,
    retailers: seq<string>,
    inStock: bool)

  const Rtx4090 := TrackedComponent(
    "1", "NVIDIA RTX 4090 Founders Edition", "Graphics Card", 1599, 1499, 1899, -52,
    [PricePoint("Jan 1", 1699), PricePoint("Jan 7", 1649), PricePoint("Jan 14", 1599),
     PricePoint("Jan 21", 1579), PricePoint("Jan 28", 1599)],
    ["NVIDIA", "Best Buy", "Amazon"], true)

  const Ryzen7950X := TrackedComponent(
    "2", "AMD Ryzen 9 7950X", "Processor", 649, 599, 799, 21,
    [PricePoint("Jan 1", 699), PricePoint("Jan 7", 679), PricePoint("Jan 14", 629),
     PricePoint("Jan 21", 635), PricePoint("Jan 28", 649)],
    ["AMD", "Newegg", "Amazon"], true)

  const VengeanceDdr5 := TrackedComponent(
    "3", "Corsair Vengeance DDR5-6000 32GB", "Memory", 289, 249, 349, -81,
    [PricePoint("Jan 1", 319), PricePoint("Jan 7", 309), PricePoint("Jan 14", 295),
     PricePoint("Jan 21", 285), PricePoint("Jan 28", 289)],
    ["Corsair", "Amazon", "Newegg"], false)

  /** `mockComponents`, in display order. */
  const Components: seq<TrackedComponent> := [Rtx4090, Ryzen7950X, VengeanceDdr5]

  /** The category filter's values. */
  const Categories: seq<string> := ["all", "graphics card", "processor", "memory", "storage", "motherboard"]

  /** Every tracked component's history ends at its current price and stays between its
      lowest and highest price; the ids are distinct. */
  lemma PriceTableConsistent()
    ensures forall c :: c in Components ==>
      && c.lowestPrice <= c.currentPrice <= c.highestPrice
      && |c.priceHistory| > 0 && c.priceHistory[|c.priceHistory| - 1].price == c.currentPrice
      && forall p :: p in c.priceHistory ==> c.lowestPrice <= p.price <= c.highestPrice
    ensures forall i, j :: 0 <= i < j < |Components| ==> Components[i].id != Components[j].id
  {
  }

  // ---------------------------------------------------------------- filtering

  /** The search term is found, ignoring case, in the name, and the category is the
      filter's or the filter is "all". */
  predicate Matches(c: TrackedComponent, search: string, filter: string) {
    && Text.Contains(Text.ToLower(c.name), Text.ToLower(search))
    && (filter == "all" || Text.ToLower(c.category) == filter)
  }

  /** `filteredComponents`. */
  function Filtered(search: string, filter: string): (r: seq<TrackedComponent>)
    ensures IsSubsequence(r, Components)
    ensures forall c :: c in r <==> c in Components && Matches(c, search, filter)
  {
    var r := Filter(Components, (c: TrackedComponent) => Matches(c, search, filter));
    FilterIsSubsequence(Components, (c: TrackedComponent) => Matches(c, search, filter));
    r
  }

  /** With an empty search and the "all" filter every component is listed. */
  lemma NoFilterShowsAll()
    ensures Filtered("", "all") == Components
  {
    forall c | c in Components ensures Matches(c, "", "all") {
      Text.ContainsEmpty(Text.ToLower(c.name));
    }
    FilterAll(Components, (c: TrackedComponent) => Matches(c, "", "all"));
  }

  /** The search ignores the case of the term. */
  lemma SearchIgnoresCase(search: string, filter: string)
    ensures Filtered(Text.ToLower(search), filter) == Filtered(search, filter)
  {
    Text.ToLowerIdempotent(search);
    FilterAgree(Components,
      (c: TrackedComponent) => Matches(c, Text.ToLower(search), filter),
      (c: TrackedComponent) => Matches(c, search, filter));
  }

  /** Typing more around the search term only narrows the list. */
  lemma LongerSearchNarrows(search: string, pre: string, post: string, filter: string)
    ensures forall c :: c in Filtered(pre + search + post, filter) ==> c in Filtered(search, filter)
  {
    var lower := Text.ToLower(search);
    var whole := Text.ToLower(pre + search + post);
    Text.ToLowerConcat(pre + search, post);
    Text.ToLowerConcat(pre, search);
    assert Text.IsPrefix(lower, lower);
    Text.ContainsInConcat(lower, lower, Text.ToLower(pre), Text.ToLower(post));
    assert Text.Contains(whole, lower);
    forall c | c in Filtered(pre + search + post, filter) ensures c in Filtered(search, filter) {
      Text.ContainsTransitive(Text.ToLower(c.name), whole, lower);
    }
  }

  /** The "storage" and "motherboard" filters list nothing: no tracked component is in
      those categories. */
  lemma UnusedCategoriesEmpty(search: string)
    ensures Filtered(search, "storage") == [] && Filtered(search, "motherboard") == []
  {
    forall c | c in Components ensures |Text.ToLower(c.category)| != 7 && |Text.ToLower(c.category)| != 11 {
    }
    var s := Filtered(search, "storage");
    var m := Filtered(search, "motherboard");
    HeadIsMember(s);
    HeadIsMember(m);
  }

  // ---------------------------------------------------------------- trend

  /** The trend shown for a change: the arrow is up (and red) exactly for a positive
      change; the figure is `Math.abs(priceChange)`. */
  datatype Trend = Trend(rising: bool, magnitudeTenths: nat)

  /** The signed change a trend stands for. */
  function SignedChange(t: Trend): int {
    var m: int := t.magnitudeTenths;
    if t.rising then m else -m
  }

  /** The arrow and the `Math.abs` figure shown for a change; together they give the
      change back. */
  function TrendOf(changeTenths: int): (t: Trend)
    ensures t.rising <==> changeTenths > 0
    ensures SignedChange(t) == changeTenths
  {
    Trend(changeTenths > 0, if changeTenths < 0 then -changeTenths else changeTenths)
  }

  // ---------------------------------------------------------------- page state

  datatype Tab = ComponentsTab | BuildsTab

  class Tracker {
    var activeTab: Tab
    var searchTerm: string
    var categoryFilter: string
    var selected: Option<TrackedComponent>

    ghost predicate Valid()
      reads this
    {
      categoryFilter in Categories && (selected.Some? ==> selected.value in Components)
    }

    constructor ()
      ensures Valid()
      ensures activeTab == ComponentsTab && searchTerm == [] && categoryFilter == "all" && selected == None
    {
      activeTab := ComponentsTab;
      searchTerm := [];
      categoryFilter := "all";
      selected := None;
    }

    /** The components listed. */
    function Visible(): seq<TrackedComponent>
      reads this
    {
      Filtered(searchTerm, categoryFilter)
    }

    method SetTab(t: Tab)
      requires Valid()
      modifies this
      ensures Valid() && activeTab == t
      ensures searchTerm == old(searchTerm) && categoryFilter == old(categoryFilter) && selected == old(selected)
    {
      activeTab := t;
    }

    method SetSearch(v: string)
      requires Valid()
      modifies this
      ensures Valid() && searchTerm == v
      ensures activeTab == old(activeTab) && categoryFilter == old(categoryFilter) && selected == old(selected)
    {
      searchTerm := v;
    }

    method SetCategory(v: string)
      requires Valid() && v in Categories
      modifies this
      ensures Valid() && categoryFilter == v
      ensures activeTab == old(activeTab) && searchTerm == old(searchTerm) && selected == old(selected)
    {
      categoryFilter := v;
    }

    /** A click on one of the listed cards. The selection survives later filtering, so
        the chart may show a component no longer listed. */
    method Select(c: TrackedComponent)
      requires Valid() && c in Visible()
      modifies this
      ensures Valid() && selected == Some(c)
      ensures activeTab == old(activeTab) && searchTerm == old(searchTerm) && categoryFilter == old(categoryFilter)
    {
      selected := Some(c);
    }

    /** The ring around the selected card, which compares ids. */
    predicate Highlighted(c: TrackedComponent)
      reads this
    {
      selected.Some? && selected.value.id == c.id
    }

    /** Ids are distinct, so exactly the selected component is highlighted. */
    lemma HighlightIsSelection(c: TrackedComponent)
      requires Valid() && c in Components
      ensures Highlighted(c) <==> selected == Some(c)
    {
      PriceTableConsistent();
    }
  }
}
