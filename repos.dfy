/**
 * The repository list fetched from GitHub, shared by the Home and Projects
 * pages: the fields they read, the response as the pages see it, the in-place
 * sort by recency, the star and fork totals and the card fallbacks.
 */
module GitHubRepos {
  import opened Util

  /** One repository object; `pushedAt` is the push time as an integer timestamp. */
  datatype Repo = Repo(
    id: int,
    name: string,
    description: Option<string>,
    htmlUrl: string,
    stars: int,
    forks: int,
    language: Option<string>,
    topics: Option<seq<string>>,
    pushedAt: int)

  /** The decoded body: an array of repositories, some other JSON value, or a parse error. */
  datatype Body = JsonArray(items: seq<Repo>) | JsonOther | Unparseable(message: string)

  /** What `fetch` delivers: a network failure with its message, or a response. */
  datatype Response = Failed(message: string) | Received(ok: bool, body: Body)

  /** Most recently pushed first. */
  ghost predicate SortedByRecency(s: seq<Repo>)
  {
    forall i, j :: 0 <= i < j < |s| ==> s[i].pushedAt >= s[j].pushedAt
  }

  /** Exchanges two neighbouring elements. */
  method SwapDown(a: array<Repo>, j: nat)
    requires 0 < j < a.Length
    modifies a
    ensures a[j - 1] == old(a[j]) && a[j] == old(a[j - 1])
    ensures forall k :: 0 <= k < a.Length && k != j - 1 && k != j ==> a[k] == old(a[k])
    ensures multiset(a[..]) == multiset(old(a[..]))
  {
    a[j - 1], a[j] := a[j], a[j - 1];
  }

  /** Moves `a[i]` down into the sorted prefix `a[..i]`. */
  method InsertIntoPrefix(a: array<Repo>, i: nat)
    requires i < a.Length && SortedByRecency(a[..i])
    modifies a
    ensures SortedByRecency(a[..i + 1])
    ensures multiset(a[..]) == multiset(old(a[..]))
  {
    var j := i;
    while j > 0 && a[j - 1].pushedAt < a[j].pushedAt
      invariant 0 <= j <= i
      invariant multiset(a[..]) == multiset(old(a[..]))
      invariant forall k, l :: 0 <= k < l <= i && k != j && l != j ==> a[k].pushedAt >= a[l].pushedAt
      invariant forall l :: j < l <= i ==> a[j].pushedAt > a[l].pushedAt
    {
      SwapDown(a, j);
      j := j - 1;
    }
  }

  /**
   * Sorts the fetched array in place, most recently pushed first, by the
   * difference of the two push times (src/Pages/Projects.jsx:28).
   */
  method SortByRecency(a: array<Repo>)
    modifies a
    ensures SortedByRecency(a[..])
    ensures multiset(a[..]) == multiset(old(a[..]))
  {
    var i := 0;
    while i < a.Length
      invariant 0 <= i <= a.Length
      invariant SortedByRecency(a[..i])
      invariant multiset(a[..]) == multiset(old(a[..]))
    {
      InsertIntoPrefix(a, i);
      i := i + 1;
    }
    assert a[..a.Length] == a[..];
  }

  /** The sum of `f` over the list, added left to right from 0 (src/Pages/Projects.jsx:41-42). */
  function SumOf(s: seq<Repo>, f: Repo -> int): (r: int)
    ensures s == [] ==> r == 0
  {
    if s == [] then 0 else SumOf(s[..|s| - 1], f) + f(s[|s| - 1])
  }

  /** The star count of all repositories shown in the statistics (src/Pages/Projects.jsx:41). */
  function TotalStars(repos: seq<Repo>): (r: int)
    ensures repos == [] ==> r == 0
    ensures repos != [] ==> r == TotalStars(repos[..|repos| - 1]) + repos[|repos| - 1].stars
  {
    SumOf(repos, (r: Repo) => r.stars)
  }

  /** The fork count of all repositories shown in the statistics (src/Pages/Projects.jsx:42). */
  function TotalForks(repos: seq<Repo>): (r: int)
    ensures repos == [] ==> r == 0
    ensures repos != [] ==> r == TotalForks(repos[..|repos| - 1]) + repos[|repos| - 1].forks
  {
    SumOf(repos, (r: Repo) => r.forks)
  }

  /** Summing a concatenation is summing each part. */
  lemma {:induction false} SumOfAppend(a: seq<Repo>, b: seq<Repo>, f: Repo -> int)
    ensures SumOf(a + b, f) == SumOf(a, f) + SumOf(b, f)
    decreases |b|
  {
    if b == [] {
      assert a + b == a;
    } else {
      var b' := b[..|b| - 1];
      assert (a + b)[..|a + b| - 1] == a + b';
      assert (a + b)[|a + b| - 1] == b[|b| - 1];
      SumOfAppend(a, b', f);
    }
  }

  /** Counts that are never negative sum to a total that is never negative. */
  lemma {:induction false} SumOfNonNegative(s: seq<Repo>, f: Repo -> int)
    requires forall i :: 0 <= i < |s| ==> f(s[i]) >= 0
    ensures SumOf(s, f) >= 0
    decreases |s|
  {
    if s != [] {
      SumOfNonNegative(s[..|s| - 1], f);
    }
  }

  /** A sum over a list is the sum with one element taken out, plus that element. */
  lemma {:induction false} SumOfRemove(s: seq<Repo>, i: nat, f: Repo -> int)
    requires i < |s|
    ensures SumOf(s, f) == f(s[i]) + SumOf(s[..i] + s[i + 1..], f)
    decreases |s|
  {
    var n := |s| - 1;
    var t := s[..n];
    if i == n {
      assert s[..i] + s[i + 1..] == t;
    } else {
      SumOfRemove(t, i, f);
      var rest := s[..i] + s[i + 1..];
      assert rest[..|rest| - 1] == t[..i] + t[i + 1..];
      assert rest[|rest| - 1] == s[n];
    }
  }

  /** Sums do not depend on the order of the list. */
  lemma {:induction false} SumOfPermutation(a: seq<Repo>, b: seq<Repo>, f: Repo -> int)
    requires multiset(a) == multiset(b)
    ensures SumOf(a, f) == SumOf(b, f)
    decreases |a|
  {
    if a != [] {
      var x := a[|a| - 1];
      assert x in multiset(b);
      var i :| 0 <= i < |b| && b[i] == x;
      var a' := a[..|a| - 1];
      var b' := b[..i] + b[i + 1..];
      assert a == a' + [x];
      assert b == b[..i] + [x] + b[i + 1..];
      assert multiset(a) == multiset(a') + multiset{x};
      assert multiset(b) == multiset(b[..i]) + multiset{x} + multiset(b[i + 1..]);
      assert multiset(b') == multiset(b[..i]) + multiset(b[i + 1..]);
      assert multiset(a') == multiset(a) - multiset{x};
      assert multiset(b') == multiset(b) - multiset{x};
      SumOfPermutation(a', b', f);
      SumOfRemove(b, i, f);
    } else {
      assert b == [];
    }
  }

  /** The totals shown on the Projects page are the same before and after sorting. */
  lemma TotalsIgnoreOrder(a: seq<Repo>, b: seq<Repo>)
    requires multiset(a) == multiset(b)
    ensures TotalStars(a) == TotalStars(b) && TotalForks(a) == TotalForks(b)
  {
    SumOfPermutation(a, b, (r: Repo) => r.stars);
    SumOfPermutation(a, b, (r: Repo) => r.forks);
  }

  const NoDescription: string := "No description provided."

  /** A card's description: the repository's own when it is non-empty, the fallback otherwise. */
  function CardDescription(description: Option<string>): (r: string)
    ensures r != ""
    ensures Truthy(description) ==> r == description.value
    ensures !Truthy(description) ==> r == NoDescription
  {
    if Truthy(description) then description.value else NoDescription
  }
}
