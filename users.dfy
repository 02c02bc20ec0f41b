// The backend's user routes, which no longer track a user: the dashboard
// totals, the activity window of the statistics, the history listing's
// paging and filter, and the disabled account deletion.  The database
// counts and the clock are parameters; query values arrive already parsed
// as numbers.

module Users {
  import opened Wrappers
  import opened Js
  import opened Express
  import VectorDb

  // ---------------------------------------------------------------------------
  // Dashboard
  // ---------------------------------------------------------------------------

  datatype Usage = Usage(documentsProcessed: nat, summariesGenerated: nat, quizzesGenerated: nat,
    flashcardsGenerated: nat, totalContent: nat)

  /** The usage figures for the four collection counts. */
  function DashboardUsage(documents: nat, summaries: nat, quizzes: nat, flashcards: nat): (u: Usage)
    ensures u.totalContent == u.documentsProcessed + u.summariesGenerated + u.quizzesGenerated + u.flashcardsGenerated
    ensures u.documentsProcessed == documents && u.summariesGenerated == summaries
    ensures u.quizzesGenerated == quizzes && u.flashcardsGenerated == flashcards
  {
    Usage(documents, summaries, quizzes, flashcards, documents + summaries + quizzes + flashcards)
  }

  // ---------------------------------------------------------------------------
  // Statistics
  // ---------------------------------------------------------------------------

  const DayMs: nat := 24 * 60 * 60 * 1000

  /** The days a statistics period looks back; an absent period is "30d", an unknown one 30 days too. */
  function PeriodDays(period: Option<string>): (d: nat)
    ensures period == Some("7d") ==> d == 7
    ensures period == Some("90d") ==> d == 90
    ensures period != Some("7d") && period != Some("90d") ==> d == 30
  {
    var p := if period.Some? then period.value else "30d";
    if p == "7d" then 7
    else if p == "30d" then 30
    else if p == "90d" then 90
    else 30
  }

  /** The instant, in milliseconds, from which activity is counted. */
  function StartDate(now: int, period: Option<string>): (t: int)
    ensures now - t == PeriodDays(period) * DayMs
  {
    now - PeriodDays(period) * DayMs
  }

  /** Only the three named periods select a window; anything else looks back 30 days, like the default. */
  lemma PeriodWindows(now: int, period: Option<string>)
    ensures StartDate(now, Some("7d")) == now - 604800000
    ensures StartDate(now, Some("90d")) == now - 7776000000
    ensures period !in {Some("7d"), Some("90d")} ==> StartDate(now, period) == now - 2592000000
  {
  }

  // ---------------------------------------------------------------------------
  // History listing
  // ---------------------------------------------------------------------------

  const DefaultPage: int := 1
  const DefaultLimit: int := 10

  /** How many documents the listing passes over before page `page`. */
  function Skip(page: int, limit: int): int
  {
    (page - 1) * limit
  }

  /** `Math.ceil(total / limit)` as JavaScript computes it for an integer limit. */
  datatype PageTotal = Finite(n: int) | Infinity | NaN

  function PageCount(total: nat, limit: int): (r: PageTotal)
    ensures limit > 0 ==> r == Finite(VectorDb.ChunkCount(total, limit))
    ensures limit == 0 ==> r == if total == 0 then NaN else Infinity
  {
    if limit > 0 then Finite((total + limit - 1) / limit)
    else if limit == 0 then (if total == 0 then NaN else Infinity)
    else Finite(-(total / -limit))
  }

  /**
   * With a positive limit the pages cover the listing: each of the `total`
   * documents lies on exactly one page between 1 and the page count.
   */
  lemma {:induction false} PageOf(total: nat, limit: int, i: nat) returns (p: int)
    requires limit > 0 && i < total
    ensures 1 <= p <= PageCount(total, limit).n
    ensures Skip(p, limit) <= i < Skip(p, limit) + limit
  {
    var j := VectorDb.StrideOf(i, limit);
    p := j + 1;
    VectorDb.StartIsProduct(j, limit);
    var k := VectorDb.ChunkCount(total, limit);
    VectorDb.ChunkCountCovers(total, limit);
    if j >= k {
      VectorDb.StartMono(k, j, limit);
      assert false;
    }
  }

  /** Consecutive pages follow one another with no gap and no overlap. */
  lemma PagesAdjacent(page: int, limit: int)
    ensures Skip(page + 1, limit) == Skip(page, limit) + limit
    ensures Skip(DefaultPage, limit) == 0
  {
    VectorDb.MulPred(page + 1, limit);
  }

  /** The listing without a page or limit: the first ten documents. */
  lemma DefaultListing(total: nat)
    ensures Skip(DefaultPage, DefaultLimit) == 0
    ensures PageCount(total, DefaultLimit) == Finite((total + 9) / 10)
  {
  }

  /** With no limit the page count is not a number, or infinite once there is a document. */
  lemma ZeroLimit(total: nat)
    ensures PageCount(total, 0).NaN? <==> total == 0
    ensures PageCount(total, 0).Infinity? <==> total > 0
  {
  }

  /** The listing's filter: by type unless the type is "all" (the default). */
  function HistoryQuery(kind: Option<string>): (q: map<string, string>)
    ensures kind.None? || kind == Some("all") ==> q == map[]
    ensures kind.Some? && kind.value != "all" ==> q == map["type" := kind.value]
  {
    var t := if kind.Some? then kind.value else "all";
    if t != "all" then map["type" := t] else map[]
  }

  // ---------------------------------------------------------------------------
  // Account deletion
  // ---------------------------------------------------------------------------

  const DeletionUnavailable := "Account deletion not available" + " - no authentication system"

  /** Deleting the account always answers 501: there are no accounts to delete. */
  function DeleteAccount(): (r: Response)
    ensures r.status == 501 && !IsSuccess(r.status)
    ensures Prop(r.body, "error") == Str(DeletionUnavailable)
  {
    Fail(501, DeletionUnavailable)
  }
}
