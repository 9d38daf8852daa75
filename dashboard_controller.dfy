/**
 * DashboardController::index: the job listing. The query string's
 * `search` and `filter` decide which constraints the query builder
 * collects; the matching vacancies are shown newest first, ten per page.
 */
module Dashboard {
  import opened Common
  import opened Models

  /** paginate(10) */
  const PerPage := 10

  /** The query string as index reads it: None for an absent key (or a null value). */
  datatype DashboardRequest = DashboardRequest(search: Option<string>, filter: Option<string>, page: int)

  /** `$request->has(k) && $request->k != null`: present and, compared loosely with null, neither null nor ''. */
  predicate Given(v: Option<string>) {
    v.Some? && v.value != ""
  }

  /** `part` occurs in `text` starting at index `i`. */
  predicate OccursAt(text: string, part: string, i: nat) {
    i + |part| <= |text| && text[i..i + |part|] == part
  }

  /** `part` occurs in `text` as a contiguous run of characters. */
  predicate Contains(text: string, part: string) {
    exists i :: 0 <= i <= |text| && OccursAt(text, part, i)
  }

  /** `column LIKE '%s%'`: a NULL column never matches. */
  predicate Like(column: Option<string>, s: string) {
    column.Some? && Contains(column.value, s)
  }

  /** The closure of the search branches: title, location or the company's name contains the search text. */
  predicate MatchesSearch(job: JobVacancy, s: string) {
    Like(job.title, s) || Like(job.location, s) || Like(job.companyName, s)
  }

  /** `where('type', $filter)` */
  predicate HasType(job: JobVacancy, t: string) {
    job.jobType == Some(t)
  }

  /**
   * Which vacancies the dashboard lists, branch by branch: both search and
   * filter, search only, filter only, or neither (every vacancy).
   */
  predicate Listed(req: DashboardRequest, job: JobVacancy) {
    if Given(req.search) && Given(req.filter) then MatchesSearch(job, req.search.value) && HasType(job, req.filter.value)
    else if Given(req.search) then MatchesSearch(job, req.search.value)
    else if Given(req.filter) then HasType(job, req.filter.value)
    else true
  }

  /** The listed vacancies, in table order. */
  function Select(jobs: seq<JobVacancy>, req: DashboardRequest): (r: seq<JobVacancy>)
    ensures |r| <= |jobs|
    ensures forall job :: job in r <==> job in jobs && Listed(req, job)
  {
    if jobs == [] then []
    else (if Listed(req, jobs[0]) then [jobs[0]] else []) + Select(jobs[1..], req)
  }

  /** The three guarded blocks of index: at most one of them adds constraints. */
  lemma BranchesExclusive(req: DashboardRequest)
    ensures var both := Given(req.search) && Given(req.filter);
      && var searchOnly := Given(req.search) && !Given(req.filter);
      && var filterOnly := Given(req.filter) && !Given(req.search);
      && !(both && searchOnly) && !(both && filterOnly) && !(searchOnly && filterOnly)
  {
  }

  /** Without search and filter the dashboard lists every vacancy. */
  lemma {:induction false} NoCriteriaListsAll(jobs: seq<JobVacancy>, req: DashboardRequest)
    requires !Given(req.search) && !Given(req.filter)
    ensures Select(jobs, req) == jobs
  {
    if jobs != [] {
      NoCriteriaListsAll(jobs[1..], req);
      assert jobs == [jobs[0]] + jobs[1..];
    }
  }

  // ---------------------------------------------------------------------
  // latest(): newest first
  // ---------------------------------------------------------------------

  predicate NewestFirst(rows: seq<JobVacancy>) {
    forall i, j :: 0 <= i < j < |rows| ==> rows[i].createdAt >= rows[j].createdAt
  }

  /** Places `job` before the first row that is not newer than it. */
  function Insert(job: JobVacancy, rows: seq<JobVacancy>): (r: seq<JobVacancy>)
    requires NewestFirst(rows)
    ensures NewestFirst(r)
    ensures multiset(r) == multiset(rows) + multiset{job}
    ensures |r| == |rows| + 1
    ensures r[0] == job || (|rows| > 0 && r[0] == rows[0])
  {
    if rows == [] || job.createdAt >= rows[0].createdAt then
      [job] + rows
    else
      assert rows == [rows[0]] + rows[1..];
      [rows[0]] + Insert(job, rows[1..])
  }

  /** ORDER BY created_at DESC. The database leaves rows created at the same time in no particular order; here they keep their table order. */
  function Latest(rows: seq<JobVacancy>): (r: seq<JobVacancy>)
    ensures NewestFirst(r)
    ensures multiset(r) == multiset(rows)
    ensures |r| == |rows|
  {
    if rows == [] then []
    else
      assert rows == [rows[0]] + rows[1..];
      Insert(rows[0], Latest(rows[1..]))
  }

  // ---------------------------------------------------------------------
  // paginate(10)
  // ---------------------------------------------------------------------

  /** The page that is shown: a page number below 1 shows the first page. */
  function CurrentPage(page: int): (p: nat)
    ensures p >= 1
    ensures page >= 1 ==> p == page
  {
    if page < 1 then 1 else page
  }

  /** The offset of the first row on page `page`. */
  function PageStart(perPage: nat, page: int): nat {
    (CurrentPage(page) - 1) * perPage
  }

  /** The rows of page `page`, `perPage` to a page: the window of rows from the page's offset on. */
  function Paginate(rows: seq<JobVacancy>, perPage: nat, page: int): (r: seq<JobVacancy>)
    requires perPage > 0
    ensures |r| <= perPage
    ensures forall k :: 0 <= k < |r| ==>
      PageStart(perPage, page) + k < |rows| && r[k] == rows[PageStart(perPage, page) + k]
  {
    var start := PageStart(perPage, page);
    var count := if start >= |rows| then 0 else if start + perPage <= |rows| then perPage else |rows| - start;
    seq(count, k requires 0 <= k < count => rows[start + k])
  }

  /** Every row is shown exactly once: row i is entry i % perPage of page i / perPage + 1. */
  lemma {:induction false} EveryRowOnItsPage(rows: seq<JobVacancy>, perPage: nat, i: nat)
    requires perPage > 0 && i < |rows|
    ensures var page := Paginate(rows, perPage, i / perPage + 1);
      i % perPage < |page| && page[i % perPage] == rows[i]
  {
    var p := i / perPage + 1;
    assert CurrentPage(p) == p;
    assert PageStart(perPage, p) + i % perPage == i;
  }

  /** A page is full unless it is the last one. */
  lemma PageIsFullBeforeTheEnd(rows: seq<JobVacancy>, perPage: nat, page: nat)
    requires perPage > 0 && page >= 1 && page * perPage <= |rows|
    ensures |Paginate(rows, perPage, page)| == perPage
  {
    assert PageStart(perPage, page) + perPage == page * perPage;
  }

  /** A window of newest-first rows is newest first. */
  lemma PageOfSortedIsSorted(sorted: seq<JobVacancy>, perPage: nat, page: int)
    requires perPage > 0 && NewestFirst(sorted)
    ensures NewestFirst(Paginate(sorted, perPage, page))
  {
    var shown := Paginate(sorted, perPage, page);
    var start := PageStart(perPage, page);
    forall i, j | 0 <= i < j < |shown|
      ensures shown[i].createdAt >= shown[j].createdAt
    {
      assert shown[i] == sorted[start + i] && shown[j] == sorted[start + j];
    }
  }

  /** A page holds only rows it was cut from. */
  lemma PageRowsComeFromRows(rows: seq<JobVacancy>, perPage: nat, page: int)
    requires perPage > 0
    ensures forall job :: job in Paginate(rows, perPage, page) ==> job in rows
  {
    var shown := Paginate(rows, perPage, page);
    var start := PageStart(perPage, page);
    forall job | job in shown
      ensures job in rows
    {
      var k :| 0 <= k < |shown| && shown[k] == job;
      assert rows[start + k] == job;
    }
  }

  /** A page of the sorted rows is itself newest first and holds only rows that were there. */
  lemma PageOfLatest(rows: seq<JobVacancy>, perPage: nat, page: int)
    requires perPage > 0
    ensures var shown := Paginate(Latest(rows), perPage, page);
      && NewestFirst(shown)
      && forall job :: job in shown ==> job in rows
  {
    var sorted := Latest(rows);
    PageOfSortedIsSorted(sorted, perPage, page);
    PageRowsComeFromRows(sorted, perPage, page);
    forall job | job in Paginate(sorted, perPage, page)
      ensures job in rows
    {
      assert job in multiset(sorted);
    }
  }

  // ---------------------------------------------------------------------
  // The query builder
  // ---------------------------------------------------------------------

  /** A constraint index adds with `$query->where(...)`. */
  datatype Constraint = Matching(search: string) | OfType(jobType: string)

  predicate Holds(c: Constraint, job: JobVacancy) {
    match c
    case Matching(s) => MatchesSearch(job, s)
    case OfType(t) => HasType(job, t)
  }

  predicate AllHold(constraints: seq<Constraint>, job: JobVacancy) {
    forall i :: 0 <= i < |constraints| ==> Holds(constraints[i], job)
  }

  /** The rows matching every constraint, in table order. */
  function Where(rows: seq<JobVacancy>, constraints: seq<Constraint>): (r: seq<JobVacancy>)
    ensures forall job :: job in r <==> job in rows && AllHold(constraints, job)
  {
    if rows == [] then []
    else (if AllHold(constraints, rows[0]) then [rows[0]] else []) + Where(rows[1..], constraints)
  }

  /** Constraints that accept exactly the listed vacancies select exactly those, in the same order. */
  lemma {:induction false} WhereSelects(rows: seq<JobVacancy>, constraints: seq<Constraint>, req: DashboardRequest)
    requires forall job :: AllHold(constraints, job) <==> Listed(req, job)
    ensures Where(rows, constraints) == Select(rows, req)
  {
    if rows != [] {
      WhereSelects(rows[1..], constraints, req);
    }
  }

  /** `JobVacancy::query()` over the job_vacancies table and the constraints added so far. */
  class JobQuery {
    const table: seq<JobVacancy>
    var constraints: seq<Constraint>

    constructor (table: seq<JobVacancy>)
      ensures this.table == table && constraints == []
    {
      this.table := table;
      constraints := [];
    }

    /** `$query->where(...)`: one more constraint, ANDed with the others. */
    method AddWhere(c: Constraint)
      modifies this
      ensures constraints == old(constraints) + [c]
    {
      constraints := constraints + [c];
    }

    /** `->latest()->paginate($perPage)`: the requested page of the matching rows, newest first. */
    method LatestPage(perPage: nat, page: int) returns (items: seq<JobVacancy>)
      requires perPage > 0
      ensures items == Paginate(Latest(Where(table, constraints)), perPage, page)
    {
      items := Paginate(Latest(Where(table, constraints)), perPage, page);
    }
  }

  /** index(): builds the query branch by branch and returns the page of vacancies the view shows. */
  method Index(jobs: seq<JobVacancy>, req: DashboardRequest) returns (shown: seq<JobVacancy>)
    ensures shown == Paginate(Latest(Select(jobs, req)), PerPage, req.page)
    ensures |shown| <= PerPage && NewestFirst(shown)
    ensures forall job :: job in shown ==> job in jobs && Listed(req, job)
  {
    var query := new JobQuery(jobs);
    if Given(req.search) && Given(req.filter) {
      query.AddWhere(Matching(req.search.value));
      query.AddWhere(OfType(req.filter.value));
    }
    if Given(req.search) && !Given(req.filter) {
      query.AddWhere(Matching(req.search.value));
    }
    if Given(req.filter) && !Given(req.search) {
      query.AddWhere(OfType(req.filter.value));
    }
    forall job
      ensures AllHold(query.constraints, job) <==> Listed(req, job)
    {
      var cs := query.constraints;
      if Given(req.search) && Given(req.filter) {
        assert cs == [Matching(req.search.value), OfType(req.filter.value)];
        assert AllHold(cs, job) <==> Holds(cs[0], job) && Holds(cs[1], job);
      } else if Given(req.search) {
        assert cs == [Matching(req.search.value)];
        assert AllHold(cs, job) <==> Holds(cs[0], job);
      } else if Given(req.filter) {
        assert cs == [OfType(req.filter.value)];
        assert AllHold(cs, job) <==> Holds(cs[0], job);
      } else {
        assert cs == [];
      }
    }
    WhereSelects(jobs, query.constraints, req);
    shown := query.LatestPage(PerPage, req.page);
    PageOfLatest(Select(jobs, req), PerPage, req.page);
  }
}
