/**
 * The Home page (src/Pages/Home.jsx): the three most recently pushed
 * repositories, their cards with fallbacks, and the alternating journey
 * timeline.
 */
module Home {
  import opened Util
  import opened GitHubRepos

  const MaxFeatured: nat := 3
  const LoadingText: string := "Loading projects..."
  const NoLanguage: string := "Code"

  /**
   * `shown` is what the page keeps of `items`: the first `min(3, n)`
   * repositories by recency, that is, as many as fit, drawn from the list,
   * most recent first, and none of them pushed earlier than any repository
   * left out.
   */
  ghost predicate TopByRecency(shown: seq<Repo>, items: seq<Repo>)
  {
    && |shown| == Min(MaxFeatured, |items|)
    && multiset(shown) <= multiset(items)
    && SortedByRecency(shown)
    && forall x, y :: x in shown && y in multiset(items) - multiset(shown) ==> x.pushedAt >= y.pushedAt
  }

  /** In a list sorted by recency, every element of a prefix is as recent as every element after it. */
  lemma PrefixDominates(s: seq<Repo>, k: nat)
    requires SortedByRecency(s) && k <= |s|
    ensures multiset(s) - multiset(s[..k]) == multiset(s[k..])
    ensures forall x, y :: x in s[..k] && y in s[k..] ==> x.pushedAt >= y.pushedAt
  {
    assert s == s[..k] + s[k..];
    forall x, y | x in s[..k] && y in s[k..]
      ensures x.pushedAt >= y.pushedAt
    {
      var i :| 0 <= i < k && s[i] == x;
      var j :| 0 <= j < |s| - k && s[k..][j] == y;
      assert s[k + j] == y;
    }
  }

  /** Sorting and then keeping the first three gives the three most recent repositories. */
  lemma SortedPrefixIsTop(sorted: seq<Repo>, items: seq<Repo>)
    requires SortedByRecency(sorted) && multiset(sorted) == multiset(items)
    ensures TopByRecency(sorted[..Min(MaxFeatured, |sorted|)], items)
  {
    var k := Min(MaxFeatured, |sorted|);
    assert |items| == |sorted| by {
      assert |multiset(items)| == |multiset(sorted)|;
    }
    PrefixDominates(sorted, k);
    assert sorted == sorted[..k] + sorted[k..];
    assert multiset(sorted[..k]) <= multiset(items);
    forall x, y | x in sorted[..k] && y in multiset(items) - multiset(sorted[..k])
      ensures x.pushedAt >= y.pushedAt
    {
      assert y in sorted[k..];
    }
  }

  /** One card of the featured grid. */
  datatype Card = Card(name: string, description: string, stars: int, language: string)

  /** The label beside the stars: the language, or "Code" when none is set. */
  function LanguageLabel(language: Option<string>): (r: string)
    ensures r != ""
    ensures Truthy(language) ==> r == language.value
    ensures !Truthy(language) ==> r == NoLanguage
  {
    if Truthy(language) then language.value else NoLanguage
  }

  /** The featured grid: the loading placeholder for an empty list, otherwise one card per repository. */
  datatype Grid = Placeholder(text: string) | Cards(cards: seq<Card>)

  function FeaturedGrid(repos: seq<Repo>): (g: Grid)
    ensures g.Placeholder? <==> repos == []
    ensures g.Placeholder? ==> g.text == LoadingText
    ensures g.Cards? ==> |g.cards| == |repos|
    ensures g.Cards? ==> forall i :: 0 <= i < |g.cards| ==>
              g.cards[i].name == repos[i].name && g.cards[i].stars == repos[i].stars &&
              g.cards[i].description == CardDescription(repos[i].description) &&
              g.cards[i].language == LanguageLabel(repos[i].language) &&
              g.cards[i].description != "" && g.cards[i].language != ""
  {
    if repos == [] then Placeholder(LoadingText)
    else Cards(seq(|repos|, i requires 0 <= i < |repos| =>
      Card(repos[i].name, CardDescription(repos[i].description), repos[i].stars,
           LanguageLabel(repos[i].language))))
  }

  /** Which side of the timeline a journey item sits on. */
  datatype Side = Right | Left

  /** `idx % 2 === 0` puts an item on the right. */
  function JourneySide(idx: nat): (r: Side)
    ensures r == Right <==> idx % 2 == 0
  {
    if idx % 2 == 0 then Right else Left
  }

  /** The journey starts on the right and alternates from item to item. */
  lemma JourneyAlternates(idx: nat)
    ensures JourneySide(0) == Right
    ensures JourneySide(idx + 1) != JourneySide(idx)
  {
  }

  /** The page's state. */
  class HomePage {
    var repos: seq<Repo>

    constructor ()
      ensures repos == []
    {
      repos := [];
    }

    /**
     * The fetch chain given what `fetch` delivered.  Only an array body is
     * sorted and cut to three (the status is not checked); anything else
     * throws inside the chain, is caught, and leaves `repos` as it was.
     */
    method LoadRepos(res: Response)
      modifies this
      ensures res.Received? && res.body.JsonArray? ==> TopByRecency(repos, res.body.items)
      ensures !(res.Received? && res.body.JsonArray?) ==> repos == old(repos)
    {
      if res.Received? && res.body.JsonArray? {
        var data := res.body.items;
        var a := new Repo[|data|](i requires 0 <= i < |data| => data[i]);
        assert a[..] == data;
        SortByRecency(a);
        SortedPrefixIsTop(a[..], data);
        repos := a[..Min(MaxFeatured, a.Length)];
      }
    }

    /** The featured grid for the current list. */
    function ShownGrid(): (g: Grid)
      reads this
      ensures g.Placeholder? <==> repos == []
      ensures g.Cards? ==> |g.cards| == |repos|
    {
      FeaturedGrid(repos)
    }
  }
}
