/**
 * The Projects page (src/Pages/Projects.jsx): `fetchRepos` validates the
 * response, sorts the repositories by recency and records the outcome in
 * `repos`, `loading` and `error`; the page then derives the totals and
 * chooses which views to show.
 */
module Projects {
  import opened Util
  import opened GitHubRepos

  const RequestFailed: string := "GitHub API request failed"
  const UnexpectedResponse: string := "Unexpected GitHub response"

  /**
   * The checks `fetchRepos` makes before sorting: the network error, a
   * response that is not ok, a body that does not parse, and a body that is
   * not an array each end in the message of the error thrown; otherwise the
   * repositories of the body.
   */
  function Validate(res: Response): (r: Result<seq<Repo>, string>)
    ensures r.Ok? <==> res.Received? && res.ok && res.body.JsonArray?
    ensures r.Ok? ==> r.value == res.body.items
    ensures res.Failed? ==> r == Err(res.message)
    ensures res.Received? && !res.ok ==> r == Err(RequestFailed)
    ensures res.Received? && res.ok && res.body.Unparseable? ==> r == Err(res.body.message)
    ensures res.Received? && res.ok && res.body.JsonOther? ==> r == Err(UnexpectedResponse)
  {
    match res
    case Failed(message) => Err(message)
    case Received(ok, body) =>
      if !ok then Err(RequestFailed)
      else match body
        case Unparseable(message) => Err(message)
        case JsonOther => Err(UnexpectedResponse)
        case JsonArray(items) => Ok(items)
  }

  /** Which parts of the page are shown, and how many repository cards. */
  datatype View = View(loadingView: bool, errorView: bool, stats: bool, cards: nat)

  /**
   * The page's gating: the spinner while loading, the error once loaded with
   * a (truthy) error, otherwise the statistics and, when there are
   * repositories, one card per repository.
   */
  function PageView(loading: bool, error: Option<string>, repos: seq<Repo>): (v: View)
    ensures !(v.loadingView && v.errorView)
    ensures v.loadingView == loading
    ensures !loading ==> v.errorView != v.stats
    ensures v.stats <==> !loading && !Truthy(error)
    ensures v.cards > 0 ==> v.stats && v.cards == |repos|
    ensures v.stats && |repos| > 0 ==> v.cards == |repos|
  {
    var content := !loading && !Truthy(error);
    View(loading, !loading && Truthy(error), content, if content then |repos| else 0)
  }

  /** A tech badge on a card. */
  datatype Badge = LanguageBadge(language: string) | TopicBadge(topic: string)

  /** The badges of a card: the language when set, then at most the first three topics. */
  function Badges(repo: Repo): (r: seq<Badge>)
    ensures |r| <= 4
    ensures Truthy(repo.language) ==> |r| > 0 && r[0] == LanguageBadge(repo.language.value)
    ensures forall i :: 0 <= i < |r| && r[i].LanguageBadge? ==> i == 0 && Truthy(repo.language)
    ensures forall i :: 0 <= i < |r| && r[i].TopicBadge? ==>
              repo.topics.Some? && r[i].topic in repo.topics.value[..Min(3, |repo.topics.value|)]
    ensures repo.topics.Some? ==>
              |r| == (if Truthy(repo.language) then 1 else 0) + Min(3, |repo.topics.value|)
    ensures repo.topics.Some? ==>
              forall i :: 0 <= i < Min(3, |repo.topics.value|) ==>
                r[(if Truthy(repo.language) then 1 else 0) + i] == TopicBadge(repo.topics.value[i])
    ensures repo.topics.None? ==> |r| == (if Truthy(repo.language) then 1 else 0)
  {
    var language := if Truthy(repo.language) then [LanguageBadge(repo.language.value)] else [];
    var topics := match repo.topics
      case None => []
      case Some(ts) => ts[..Min(3, |ts|)];
    language + seq(|topics|, i requires 0 <= i < |topics| => TopicBadge(topics[i]))
  }

  /** The page's state. */
  class ProjectsPage {
    var repos: seq<Repo>
    var loading: bool
    var error: Option<string>

    constructor ()
      ensures repos == [] && loading && error == None
    {
      repos, loading, error := [], true, None;
    }

    /**
     * `fetchRepos` given what `fetch` delivered: on a valid array the
     * repositories sorted by recency; otherwise the error message, with
     * `repos` left as it was; `loading` is false whatever the outcome.
     */
    method FetchRepos(res: Response)
      modifies this
      ensures !loading
      ensures Validate(res).Ok? ==>
                error == old(error) && SortedByRecency(repos) &&
                multiset(repos) == multiset(Validate(res).value)
      ensures Validate(res).Err? ==> error == Some(Validate(res).error) && repos == old(repos)
    {
      if res.Failed? {
        error := Some(res.message);
      } else if !res.ok {
        error := Some(RequestFailed);
      } else if res.body.Unparseable? {
        error := Some(res.body.message);
      } else if res.body.JsonOther? {
        error := Some(UnexpectedResponse);
      } else {
        var data := res.body.items;
        var a := new Repo[|data|](i requires 0 <= i < |data| => data[i]);
        assert a[..] == data;
        SortByRecency(a);
        repos := a[..];
      }
      loading := false;
    }

    /** The stars shown in the statistics: the sum over the current list. */
    function StarsTotal(): (r: int)
      reads this
      ensures repos == [] ==> r == 0
      ensures r == TotalStars(repos)
    {
      TotalStars(repos)
    }

    /** The forks shown in the statistics: the sum over the current list. */
    function ForksTotal(): (r: int)
      reads this
      ensures repos == [] ==> r == 0
      ensures r == TotalForks(repos)
    {
      TotalForks(repos)
    }

    /** What the page shows for its current state. */
    function CurrentView(): (v: View)
      reads this
      ensures !(v.loadingView && v.errorView)
      ensures !loading ==> v.errorView != v.stats
      ensures v.cards > 0 ==> v.stats && v.cards == |repos|
    {
      PageView(loading, error, repos)
    }
  }

  /**
   * A page mounted and given the fetch's outcome: what it shows and the
   * totals in its statistics.  A response that is not ok shows the one error
   * message and no statistics or cards; a valid array shows one card per
   * repository and the totals over the repositories as delivered.
   */
  method MountAndFetch(res: Response) returns (v: View, stars: int, forks: int)
    ensures !v.loadingView
    ensures res.Received? && !res.ok ==> v.errorView && !v.stats && v.cards == 0
    ensures Validate(res).Err? ==> v.cards == 0 && (v.errorView <==> Validate(res).error != "")
    ensures Validate(res).Ok? ==>
              v.stats && !v.errorView && v.cards == |res.body.items| &&
              stars == TotalStars(res.body.items) && forks == TotalForks(res.body.items)
  {
    var page := new ProjectsPage();
    page.FetchRepos(res);
    v := page.CurrentView();
    stars := page.StarsTotal();
    forks := page.ForksTotal();
    if Validate(res).Ok? {
      TotalsOfFetchedRepos(res, page.repos);
      assert |multiset(page.repos)| == |multiset(res.body.items)|;
    }
  }

  /**
   * The totals on the page after a successful fetch are the sums over the
   * repositories as delivered, whatever order the sort put them in.
   */
  lemma TotalsOfFetchedRepos(res: Response, repos: seq<Repo>)
    requires Validate(res).Ok? && multiset(repos) == multiset(Validate(res).value)
    ensures TotalStars(repos) == TotalStars(res.body.items)
    ensures TotalForks(repos) == TotalForks(res.body.items)
  {
    TotalsIgnoreOrder(repos, res.body.items);
  }
}
