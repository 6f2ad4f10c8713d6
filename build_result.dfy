/** The generated-builds view (components/BuildResult.tsx): one tab per build with its
    icon and badge, the set of liked builds, and the per-component "Show Alternatives"
    flags. */
module BuildResult {
  import Text
  import App

  datatype Icon = Award | DollarSign | Flame | Star
  datatype Variant = Default | Secondary | Destructive | Outline
  datatype Badge = Badge(text: string, variant: Variant)

  /** `getBuildIcon(index)`. */
  function BuildIcon(index: nat): Icon {
    if index == 0 then Award else if index == 1 then DollarSign else if index == 2 then Flame else Star
  }

  const AiRecommendedBadge := Badge("AI Recommended", Default)
  const BestValueBadge := Badge("Best Value", Secondary)
  const PerformanceBeastBadge := Badge("Performance Beast", Destructive)
  const AlternativeBadge := Badge("Alternative", Outline)

  /** `getBuildBadge(index)`. */
  function BuildBadge(index: nat): Badge {
    if index == 0 then AiRecommendedBadge
    else if index == 1 then BestValueBadge
    else if index == 2 then PerformanceBeastBadge
    else AlternativeBadge
  }

  /** The first three tabs have their own icon and badge, all distinct; every later tab
      is a star with the "Alternative" badge. */
  lemma IconsAndBadgesAgree(i: nat, j: nat)
    ensures BuildIcon(i) == Star <==> BuildBadge(i) == AlternativeBadge
    ensures BuildIcon(i) == Star <==> i >= 3
    ensures i < 3 && j < 3 && i != j ==> BuildIcon(i) != BuildIcon(j) && BuildBadge(i) != BuildBadge(j)
  {
  }

  /** The three generated builds get the three named badges, in order. */
  lemma GeneratedBuildsBadges(form: App.BuildFormData, i: nat)
    requires i < |App.MockBuilds(form)|
    ensures BuildBadge(i) != AlternativeBadge
  {
  }

  /** `toggleLike`: a set with `x` removed if present, added otherwise. */
  function ToggledLike(s: set<string>, x: string): (r: set<string>)
    ensures x in r <==> x !in s
    ensures forall y :: y != x ==> (y in r <==> y in s)
  {
    if x in s then s - {x} else s + {x}
  }

  /** Liking twice restores the set. */
  lemma ToggledLikeInvolutive(s: set<string>, x: string)
    ensures ToggledLike(ToggledLike(s, x), x) == s
  {
  }

  /** The key of a component's "Show Alternatives" flag. */
  function AlternativeKey(buildId: string, index: nat): string {
    buildId + "-" + Text.NatToString(index)
  }

  /** The index of the last `c` in `s`, or -1. */
  function LastIndexOf(s: string, c: char): (i: int)
    ensures -1 <= i < |s|
    ensures i >= 0 ==> s[i] == c && forall k :: i < k < |s| ==> s[k] != c
    ensures i == -1 <==> c !in s
    decreases |s|
  {
    if s == [] then -1
    else if s[|s| - 1] == c then |s| - 1
    else
      var i := LastIndexOf(s[..|s| - 1], c);
      assert s == s[..|s| - 1] + [s[|s| - 1]];
      i
  }

  /** In `pre + [c] + post` with no `c` in `post`, the last `c` is the one after `pre`. */
  lemma {:induction false} LastIndexOfSeparator(pre: string, c: char, post: string)
    requires forall k :: 0 <= k < |post| ==> post[k] != c
    ensures LastIndexOf(pre + [c] + post, c) == |pre|
    decreases |post|
  {
    var s := pre + [c] + post;
    if post != [] {
      var post' := post[..|post| - 1];
      assert s[..|s| - 1] == pre + [c] + post';
      LastIndexOfSeparator(pre, c, post');
    }
  }

  /** Different components have different keys, even though build ids contain hyphens:
      the digits after the last hyphen fix the index and what precedes it the build. */
  lemma AlternativeKeyInjective(b1: string, i1: nat, b2: string, i2: nat)
    requires AlternativeKey(b1, i1) == AlternativeKey(b2, i2)
    ensures b1 == b2 && i1 == i2
  {
    var d1 := Text.NatToString(i1);
    var d2 := Text.NatToString(i2);
    var k := AlternativeKey(b1, i1);
    LastIndexOfSeparator(b1, '-', d1);
    LastIndexOfSeparator(b2, '-', d2);
    assert |b1| == |b2|;
    assert b1 == k[..|b1|] == b2;
    assert d1 == k[|b1| + 1..] == d2;
    Text.NatToStringInjective(i1, i2);
  }

  /** `showAlternatives[key]`, where a missing key reads as false. */
  predicate Shown(m: map<string, bool>, key: string) {
    key in m && m[key]
  }

  /** The state of the component. App renders it unconditionally and without a key, so it
      stays mounted and its state survives every new `builds` prop: from no builds to the
      first three tiers and from one generation to the next. */
  class ResultView {
    var builds: seq<App.Build>
    var selectedBuild: int
    var likedBuilds: set<string>
    var showAlternatives: map<string, bool>

    /** App hands over no builds or its three tiers, and the selected tab is one of them. */
    ghost predicate Valid()
      reads this
    {
      (|builds| == 0 || |builds| == 3) && 0 <= selectedBuild < 3
    }

    constructor (builds: seq<App.Build>)
      requires |builds| == 0 || |builds| == 3
      ensures Valid()
      ensures this.builds == builds
      ensures selectedBuild == 0 && likedBuilds == {} && showAlternatives == map[]
    {
      this.builds := builds;
      selectedBuild := 0;
      likedBuilds := {};
      showAlternatives := map[];
    }

    /** Nothing is rendered without builds. */
    predicate Renders()
      reads this
    {
      |builds| > 0
    }

    /** Whenever the tabs are rendered, the selected tab is one of them. */
    lemma SelectionShown()
      requires Valid()
      ensures Renders() ==> 0 <= selectedBuild < |builds|
    {
    }

    /** App passes a new `builds` prop: the tab, the likes and the alternative flags are
        kept. Build ids are "1", "2" and "3" in every generation, so a like given to a
        build stays on the build with that id in the next generation. */
    method NewBuilds(bs: seq<App.Build>)
      requires Valid() && (|bs| == 0 || |bs| == 3)
      modifies this
      ensures Valid() && builds == bs
      ensures selectedBuild == old(selectedBuild) && likedBuilds == old(likedBuilds)
      ensures showAlternatives == old(showAlternatives)
    {
      builds := bs;
    }

    /** A click on the tab of build `index`: the tab's value is `index.toString()` and
        the handler parses it back. */
    method SelectTab(index: nat)
      requires Valid() && Renders() && index < |builds|
      modifies this
      ensures Valid() && selectedBuild == index && builds == old(builds)
      ensures likedBuilds == old(likedBuilds) && showAlternatives == old(showAlternatives)
    {
      var value := Text.NatToString(index);
      Text.ParseIntOfNatToString(index);
      var parsed := Text.ParseInt(value);
      selectedBuild := parsed.value;
    }

    method ToggleLike(buildId: string)
      requires Valid() && Renders()
      modifies this
      ensures Valid() && likedBuilds == ToggledLike(old(likedBuilds), buildId)
      ensures builds == old(builds) && selectedBuild == old(selectedBuild) && showAlternatives == old(showAlternatives)
    {
      if buildId in likedBuilds {
        likedBuilds := likedBuilds - {buildId};
      } else {
        likedBuilds := likedBuilds + {buildId};
      }
    }

    /** "Show Alternatives" on component `index` of a build: that flag is negated and
        every other flag is kept. */
    method ToggleAlternatives(buildId: string, index: nat)
      requires Valid() && Renders()
      modifies this
      ensures Valid() && builds == old(builds)
      ensures var key := AlternativeKey(buildId, index);
        && Shown(showAlternatives, key) == !Shown(old(showAlternatives), key)
        && forall b: string, i: nat :: (b, i) != (buildId, index) ==>
             Shown(showAlternatives, AlternativeKey(b, i)) == Shown(old(showAlternatives), AlternativeKey(b, i))
      ensures selectedBuild == old(selectedBuild) && likedBuilds == old(likedBuilds)
    {
      var key := AlternativeKey(buildId, index);
      var old_ := showAlternatives;
      showAlternatives := showAlternatives[key := !Shown(showAlternatives, key)];
      forall b: string, i: nat | (b, i) != (buildId, index)
        ensures Shown(showAlternatives, AlternativeKey(b, i)) == Shown(old_, AlternativeKey(b, i))
      {
        if AlternativeKey(b, i) == key {
          AlternativeKeyInjective(b, i, buildId, index);
        }
      }
    }
  }
}
