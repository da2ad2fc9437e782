/** Repository records from the upstream listing API, and the reduced summary the relay publishes. */
module Repos {

  /** A record field as JSON delivers it: missing, `null`, or a value. */
  datatype Field<+T> = Absent | Null | Val(value: T)

  /**
   * One entry of the upstream repository list, restricted to the fields
   * the relay reads. A primitive array entry other than null (a number, a
   * string) reads every one of these properties as `undefined`, so it is the
   * `Repo` whose fields are all `Absent`.
   */
  datatype Repo = Repo(
    id: Field<int>,
    name: Field<string>,
    description: Field<string>,
    htmlUrl: Field<string>,
    language: Field<string>,
    stargazersCount: Field<int>,
    updatedAt: Field<string>,
    fork: Field<bool>)

  /** An array entry: a record, or `null`/`undefined`, on which reading `fork` throws. */
  datatype Entry = Record(repo: Repo) | Nullish

  /** The public, reduced shape of one repository. */
  datatype ProjectSummary = ProjectSummary(
    id: Field<int>,
    name: Field<string>,
    description: Field<string>,
    url: Field<string>,
    language: Field<string>,
    stars: Field<int>,
    updatedAt: Field<string>)

  /** `!!repo.fork`: only a `true` flag marks a fork. */
  predicate IsFork(r: Repo) {
    r.fork == Val(true)
  }

  /** `count || 0`: a missing, null or zero count ranks as 0. */
  function StarRank(count: Field<int>): int {
    match count
    case Val(n) => n
    case _ => 0
  }

  /** The sort key of a repository, `repo.stargazers_count || 0`. */
  function StarKey(r: Repo): int {
    StarRank(r.stargazersCount)
  }

  /** The sort key a published summary shows, from its `stars` field. */
  function SummaryKey(p: ProjectSummary): int {
    StarRank(p.stars)
  }

  /**
   * The projection of one repository onto its summary: `html_url` is
   * renamed `url`, `updated_at` is renamed `updatedAt`, and `stars` is the
   * raw count, so the summary ranks as its repository did.
   */
  function Summarize(r: Repo): (p: ProjectSummary)
    ensures p.url == r.htmlUrl && p.updatedAt == r.updatedAt
    ensures p.stars == r.stargazersCount && SummaryKey(p) == StarKey(r)
  {
    ProjectSummary(r.id, r.name, r.description, r.htmlUrl, r.language, r.stargazersCount, r.updatedAt)
  }
}
