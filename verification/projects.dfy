/**
 * The `/api/projects` handler: fetch the user's repositories, drop forks,
 * rank by stars (descending, stable), keep the first five and publish each
 * one's summary.
 */
module ProjectAggregator {
  import opened Wrappers
  import opened Repos
  import opened StableSort
  import Http

  /** How many summaries the handler publishes at most. */
  const MaxProjects: nat := 5

  /** The fixed message of every failed fetch. */
  const LoadFailed := "Unable to load projects right now."

  /** The body of the upstream listing response: an array, or anything else. */
  datatype Payload = RepoArray(entries: seq<Entry>) | NotAnArray

  /**
   * The upstream GET, replaced by its outcome: the parsed body of a 2xx
   * response, or a failure (network error or non-2xx status).
   */
  datatype FetchOutcome = Fetched(data: Payload) | FetchFailed

  /** The records of the entries, or `None` when an entry is `null`/`undefined` (reading its `fork` throws). */
  function Records(entries: seq<Entry>): (r: Option<seq<Repo>>)
    ensures r.None? <==> exists i :: 0 <= i < |entries| && entries[i].Nullish?
    ensures r.Some? ==>
      (|r.value| == |entries| && forall i :: 0 <= i < |entries| ==> entries[i] == Record(r.value[i]))
  {
    if |entries| == 0 then Some([])
    else match entries[0]
      case Nullish => None
      case Record(repo) =>
        match Records(entries[1..])
        case None => None
        case Some(rest) => Some([repo] + rest)
  }

  /** `repos.filter((repo) => !repo.fork)`: no fork survives, and nothing is added. */
  function NonForks(repos: seq<Repo>): (r: seq<Repo>)
    ensures forall i :: 0 <= i < |r| ==> !IsFork(r[i])
    ensures |r| <= |repos|
  {
    if |repos| == 0 then []
    else (if IsFork(repos[0]) then [] else [repos[0]]) + NonForks(repos[1..])
  }

  /** The non-fork repositories, stably sorted by `stargazers_count || 0`, descending. */
  function Ranked(repos: seq<Repo>): seq<Repo> {
    Sort(NonForks(repos), StarKey)
  }

  /** `.slice(0, 5)` of the ranking: its first min(5, length) repositories. */
  function TopRepos(repos: seq<Repo>): (r: seq<Repo>)
    ensures r <= Ranked(repos)
    ensures |r| == if |NonForks(repos)| <= MaxProjects then |NonForks(repos)| else MaxProjects
  {
    var ranked := Ranked(repos);
    if |ranked| <= MaxProjects then ranked else ranked[..MaxProjects]
  }

  /** The summary of each repository of `top`, in order. */
  function SummarizeAll(top: seq<Repo>): (r: seq<ProjectSummary>)
    ensures |r| == |top| && forall i :: 0 <= i < |top| ==> r[i] == Summarize(top[i])
  {
    seq(|top|, i requires 0 <= i < |top| => Summarize(top[i]))
  }

  /** Summarizing keeps the order by stars, and summarizes only repositories of `pool` when `top` draws from it. */
  lemma SummarizeAllKeeps(top: seq<Repo>, pool: seq<Repo>)
    requires SortedDesc(top, StarKey)
    requires forall x :: x in top ==> x in pool
    ensures forall i, j :: 0 <= i < j < |top| ==>
      SummaryKey(SummarizeAll(top)[i]) >= SummaryKey(SummarizeAll(top)[j])
    ensures forall i :: 0 <= i < |top| ==> SummarizeAll(top)[i] in SummarizeAll(pool)
  {
    forall i, j | 0 <= i < j < |top|
      ensures SummaryKey(SummarizeAll(top)[i]) >= SummaryKey(SummarizeAll(top)[j])
    {
      assert StarKey(top[i]) >= StarKey(top[j]);
    }
    forall i | 0 <= i < |top|
      ensures SummarizeAll(top)[i] in SummarizeAll(pool)
    {
      assert top[i] in top;
      var j :| 0 <= j < |pool| && pool[j] == top[i];
      assert SummarizeAll(pool)[j] == Summarize(top[i]);
    }
  }

  /**
   * `.map(...)`: the summary of each selected repository, in order. At most
   * five, non-increasing in stars, each among the summaries of the non-fork
   * repositories.
   */
  function Summaries(repos: seq<Repo>): (r: seq<ProjectSummary>)
    ensures |r| == |TopRepos(repos)| <= MaxProjects
    ensures forall i, j :: 0 <= i < j < |r| ==> SummaryKey(r[i]) >= SummaryKey(r[j])
    ensures forall i :: 0 <= i < |r| ==> r[i] in SummarizeAll(NonForks(repos))
  {
    var top := TopRepos(repos);
    TopIsSorted(repos);
    TopFromNonForks(repos);
    SummarizeAllKeeps(top, NonForks(repos));
    SummarizeAll(top)
  }

  /** The whole handler, from the fetch outcome to the HTTP response. */
  function HandleProjects(outcome: FetchOutcome): (r: Http.Response)
    ensures r.status == 200 || r == Http.ErrorResponse(500, LoadFailed)
    ensures r.status == 200 <==>
      outcome.Fetched? && (outcome.data.NotAnArray? || Records(outcome.data.entries).Some?)
    ensures r.status == 200 ==> r.body.ProjectList?
    ensures r.status == 200 ==>
      r.body.items == (if outcome.data.NotAnArray? then [] else Summaries(Records(outcome.data.entries).value))
  {
    match outcome
    case FetchFailed => Http.ErrorResponse(500, LoadFailed)
    case Fetched(NotAnArray) => Http.Response(200, Http.ProjectList([]))
    case Fetched(RepoArray(entries)) =>
      match Records(entries)
      case None => Http.ErrorResponse(500, LoadFailed)
      case Some(repos) => Http.Response(200, Http.ProjectList(Summaries(repos)))
  }

  // ---------------------------------------------------------------------
  // Properties of the pipeline

  /** The filter keeps exactly the non-fork repositories. */
  lemma {:induction false} NonForksExact(repos: seq<Repo>)
    ensures forall r :: r in NonForks(repos) <==> r in repos && !IsFork(r)
  {
    if |repos| > 0 {
      NonForksExact(repos[1..]);
      assert repos == [repos[0]] + repos[1..];
    }
  }

  /** One step of the filter: the head is kept or dropped, then the rest is filtered. */
  lemma NonForksStep(a: seq<Repo>)
    requires |a| > 0
    ensures NonForks(a) == (if IsFork(a[0]) then [] else [a[0]]) + NonForks(a[1..])
  {
  }

  /** The filter keeps order and multiplicity: it distributes over concatenation... */
  lemma {:induction false} NonForksAppend(a: seq<Repo>, b: seq<Repo>)
    ensures NonForks(a + b) == NonForks(a) + NonForks(b)
  {
    if |a| == 0 {
      assert a + b == b;
    } else {
      var head := if IsFork(a[0]) then [] else [a[0]];
      calc {
        NonForks(a + b);
        { assert (a + b)[0] == a[0] && (a + b)[1..] == a[1..] + b; NonForksStep(a + b); }
        head + NonForks(a[1..] + b);
        { NonForksAppend(a[1..], b); }
        head + (NonForks(a[1..]) + NonForks(b));
        { NonForksStep(a); }
        NonForks(a) + NonForks(b);
      }
    }
  }

  /** ... and keeps a single repository exactly when it is not a fork. */
  lemma NonForksSingle(r: Repo)
    ensures NonForks([r]) == if IsFork(r) then [] else [r]
  {
    assert [r][1..] == [];
  }

  /** The ranking holds exactly the non-fork repositories, sorted and with ties in upstream order. */
  lemma RankedIsStableSortOfNonForks(repos: seq<Repo>)
    ensures multiset(Ranked(repos)) == multiset(NonForks(repos))
    ensures |Ranked(repos)| == |NonForks(repos)|
    ensures SortedDesc(Ranked(repos), StarKey)
    ensures SameTies(NonForks(repos), Ranked(repos), StarKey)
  {
    SortIsStable(NonForks(repos), StarKey);
  }

  /** The output holds exactly min(5, number of non-fork repositories) summaries. */
  lemma ProjectCount(repos: seq<Repo>)
    ensures |Summaries(repos)| == |TopRepos(repos)|
    ensures |TopRepos(repos)| ==
      if |NonForks(repos)| <= MaxProjects then |NonForks(repos)| else MaxProjects
    ensures |Summaries(repos)| <= MaxProjects
  {
  }

  /**
   * Whatever stable sort produced the ranking, the selection is its
   * first five: a sorted, tie-preserving order of the non-forks is unique.
   */
  lemma TopOfAnyStableSort(repos: seq<Repo>, ranking: seq<Repo>)
    requires SortedDesc(ranking, StarKey)
    requires SameTies(NonForks(repos), ranking, StarKey)
    ensures TopRepos(repos) == if |ranking| <= MaxProjects then ranking else ranking[..MaxProjects]
  {
    SortIsUnique(NonForks(repos), ranking, StarKey);
  }

  /** Every selected repository is one of the non-fork repositories. */
  lemma TopFromNonForks(repos: seq<Repo>)
    ensures forall r :: r in TopRepos(repos) ==> r in NonForks(repos)
  {
    RankedIsStableSortOfNonForks(repos);
    forall r | r in TopRepos(repos)
      ensures r in NonForks(repos)
    {
      assert r in Ranked(repos);
      assert r in multiset(Ranked(repos));
    }
  }

  /** Every selected repository is a non-fork repository of the input. */
  lemma TopExcludesForks(repos: seq<Repo>)
    ensures forall r :: r in TopRepos(repos) ==> r in repos && !IsFork(r)
  {
    TopFromNonForks(repos);
    NonForksExact(repos);
  }

  /** The selection is non-increasing in `stargazers_count || 0`. */
  lemma TopIsSorted(repos: seq<Repo>)
    ensures SortedDesc(TopRepos(repos), StarKey)
  {
  }

  /** Repositories with equal star keys appear in the selection in their upstream order. */
  lemma TopKeepsTies(repos: seq<Repo>, k: int)
    ensures WithKey(TopRepos(repos), StarKey, k) <= WithKey(NonForks(repos), StarKey, k)
  {
    RankedIsStableSortOfNonForks(repos);
    var ranked := Ranked(repos);
    if |ranked| > MaxProjects {
      PrefixTies(ranked, MaxProjects, StarKey, k);
    }
  }

  /**
   * Each published summary copies its repository's fields unchanged, with
   * `html_url` as `url` and `updated_at` as `updatedAt`; `stars` is the raw
   * count, so its rank is the repository's sort key.
   */
  lemma SummariesCopyFields(repos: seq<Repo>)
    ensures var top, out := TopRepos(repos), Summaries(repos);
      |out| == |top| &&
      forall i :: 0 <= i < |out| ==>
        && out[i].id == top[i].id
        && out[i].name == top[i].name
        && out[i].description == top[i].description
        && out[i].url == top[i].htmlUrl
        && out[i].language == top[i].language
        && out[i].stars == top[i].stargazersCount
        && out[i].updatedAt == top[i].updatedAt
        && SummaryKey(out[i]) == StarKey(top[i])
  {
  }

  /** The published list: at most five summaries, each of a non-fork input repository, non-increasing in stars. */
  lemma PublishedList(outcome: FetchOutcome)
    requires HandleProjects(outcome).status == 200
    ensures var items := HandleProjects(outcome).body.items;
      && |items| <= MaxProjects
      && (forall i, j :: 0 <= i < j < |items| ==> SummaryKey(items[i]) >= SummaryKey(items[j]))
      && (outcome.data.NotAnArray? ==> items == [])
      && (outcome.data.RepoArray? ==>
            var repos := Records(outcome.data.entries).value;
            && items == Summaries(repos)
            && (|items| == if |NonForks(repos)| <= MaxProjects then |NonForks(repos)| else MaxProjects)
            && forall i :: 0 <= i < |items| ==> items[i] in SummarizeAll(NonForks(repos)))
  {
  }

  /** A payload that is not an array is an empty list with status 200, not an error. */
  lemma NonArrayIsEmptyList()
    ensures HandleProjects(Fetched(NotAnArray)) == Http.Response(200, Http.ProjectList([]))
  {
  }

  /** Any failure gives the same 500 response, whatever its cause. */
  lemma FailureIsGeneric(outcome: FetchOutcome)
    requires outcome.FetchFailed? || (outcome.data.RepoArray? && Nullish in outcome.data.entries)
    ensures HandleProjects(outcome) == Http.ErrorResponse(500, LoadFailed)
  {
  }

  /** A missing star count ranks as 0 but is published as missing, not as 0. */
  lemma MissingStarsStayMissing(r: Repo)
    requires !IsFork(r) && r.stargazersCount == Absent
    ensures HandleProjects(Fetched(RepoArray([Record(r)])))
         == Http.Response(200, Http.ProjectList([Summarize(r)]))
    ensures StarKey(r) == 0 && Summarize(r).stars == Absent
  {
  }
}
