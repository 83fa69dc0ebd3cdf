/** The job listing page of `src/components/FindJobs.tsx`: the filter and sort
    state, the fetch that turns the filters into server parameters, the
    client-side sort on a copy of the fetched jobs and the in-memory filter
    applied to the sorted copy. */
module FindJobs {
  import opened Wrappers
  import opened Strings
  import Seqs
  import Api

  // ---------------------------------------------------------------------------
  // Server parameters

  /** The parameters `fetchJobs` passes to `getJobs`: `search` when the term is
      non-empty, `type` and `location` when they are not "All", in that order. */
  function ServerParams(searchTerm: string, selectedType: string, selectedLocation: string): seq<(string, Api.ParamValue)> {
    (if searchTerm != "" then [("search", Api.Text(searchTerm))] else [])
    + (if selectedType != "All" then [("type", Api.Text(selectedType))] else [])
    + (if selectedLocation != "All" then [("location", Api.Text(selectedLocation))] else [])
  }

  /** What reaches the URL: every selected filter except an empty type or
      location, which `getJobs` drops again. With the defaults the URL has no
      query at all. */
  lemma ServerQuery(searchTerm: string, selectedType: string, selectedLocation: string)
    ensures Api.Query(Api.JobsRule, ServerParams(searchTerm, selectedType, selectedLocation)) == Some(
              (if searchTerm != "" then [("search", searchTerm)] else [])
              + (if selectedType != "All" && selectedType != "" then [("type", selectedType)] else [])
              + (if selectedLocation != "All" && selectedLocation != "" then [("location", selectedLocation)] else []))
    ensures Api.Query(Api.JobsRule, ServerParams("", "All", "All")) == Some([])
  {
    var a := if searchTerm != "" then [("search", Api.Text(searchTerm))] else [];
    var b := if selectedType != "All" then [("type", Api.Text(selectedType))] else [];
    var c := if selectedLocation != "All" then [("location", Api.Text(selectedLocation))] else [];
    var qa: seq<(string, string)> := if searchTerm != "" then [("search", searchTerm)] else [];
    var qb: seq<(string, string)> := if selectedType != "All" && selectedType != "" then [("type", selectedType)] else [];
    var qc: seq<(string, string)> := if selectedLocation != "All" && selectedLocation != "" then [("location", selectedLocation)] else [];
    assert ServerParams(searchTerm, selectedType, selectedLocation) == a + b + c;
    if a != [] {
      QueryStepText([], "search", searchTerm);
      assert [] + a == a;
      assert [] + qa == qa;
    }
    assert Api.Query(Api.JobsRule, a) == Some(qa);
    if b != [] {
      QueryStepText(a, "type", selectedType);
    } else {
      assert a + b == a;
    }
    assert qa + qb == qa || qb != [];
    assert Api.Query(Api.JobsRule, a + b) == Some(qa + qb);
    if c != [] {
      QueryStepText(a + b, "location", selectedLocation);
    } else {
      assert a + b + c == a + b;
    }
    assert qa + qb + qc == qa + qb || qc != [];
  }

  /** One more text parameter for `getJobs`: kept unless it is empty. */
  lemma QueryStepText(params: seq<(string, Api.ParamValue)>, key: string, s: string)
    requires Api.Query(Api.JobsRule, params).Some?
    ensures Api.Query(Api.JobsRule, params + [(key, Api.Text(s))])
         == Some(Api.Query(Api.JobsRule, params).value + (if s == "" then [] else [(key, s)]))
  {
    Api.QueryAppend(Api.JobsRule, params, (key, Api.Text(s)));
    if s == "" {
      assert Api.Query(Api.JobsRule, params).value + [] == Api.Query(Api.JobsRule, params).value;
    }
  }

  // ---------------------------------------------------------------------------
  // Sorting

  /** `new Date(created_at).getTime()`; a missing or unparseable date is NaN
      in the source and key 0 here. */
  function Time(job: Api.Job): (r: int)
    ensures job.createdAt.At? ==> r == job.createdAt.ms
    ensures !job.createdAt.At? ==> r == 0
  {
    match job.createdAt
    case At(ms) => ms
    case _ => 0
  }

  /** `parseInt(salary || "0") || 0`: the leading integer of the salary, 0
      when there is none or no salary at all. */
  function SalaryKey(job: Api.Job): (r: int)
    ensures !Truthy(job.salary) ==> r == 0
    ensures Truthy(job.salary) && ParseInt(job.salary.value).Some? ==> r == ParseInt(job.salary.value).value
    ensures Truthy(job.salary) && ParseInt(job.salary.value).None? ==> r == 0
  {
    var text := if Truthy(job.salary) then job.salary.value else "0";
    ParseIntToString(0);
    assert IntToString(0) == "0";
    ParseInt(text).GetOr(0)
  }

  /** The comparator of `sortedJobs`, written as the key it subtracts:
      `b - a` on a quantity sorts by the negated quantity. */
  function SortKey(sortBy: string): (key: Api.Job -> int)
    ensures sortBy == "newest" ==> forall j :: key(j) == -Time(j)
    ensures sortBy == "oldest" ==> forall j :: key(j) == Time(j)
    ensures sortBy == "salary-high" ==> forall j :: key(j) == -SalaryKey(j)
    ensures sortBy == "salary-low" ==> forall j :: key(j) == SalaryKey(j)
    ensures !KnownOrder(sortBy) ==> forall j :: key(j) == 0
  {
    if sortBy == "newest" then (j: Api.Job) => -Time(j)
    else if sortBy == "oldest" then (j: Api.Job) => Time(j)
    else if sortBy == "salary-high" then (j: Api.Job) => -SalaryKey(j)
    else if sortBy == "salary-low" then (j: Api.Job) => SalaryKey(j)
    else (j: Api.Job) => 0
  }

  predicate KnownOrder(sortBy: string) {
    sortBy == "newest" || sortBy == "oldest" || sortBy == "salary-high" || sortBy == "salary-low"
  }

  /** `[...jobs].sort(comparator)`: a permutation of the fetched jobs, ordered
      by the selected key; an unknown key compares every pair as equal, so the
      stable sort returns the jobs in their order. */
  function SortedJobs(jobs: seq<Api.Job>, sortBy: string): (r: seq<Api.Job>)
    ensures |r| == |jobs| && multiset(r) == multiset(jobs)
    ensures sortBy == "newest" ==> forall i, j :: 0 <= i < j < |r| ==> Time(r[i]) >= Time(r[j])
    ensures sortBy == "oldest" ==> forall i, j :: 0 <= i < j < |r| ==> Time(r[i]) <= Time(r[j])
    ensures sortBy == "salary-high" ==> forall i, j :: 0 <= i < j < |r| ==> SalaryKey(r[i]) >= SalaryKey(r[j])
    ensures sortBy == "salary-low" ==> forall i, j :: 0 <= i < j < |r| ==> SalaryKey(r[i]) <= SalaryKey(r[j])
    ensures !KnownOrder(sortBy) ==> r == jobs
  {
    var key := SortKey(sortBy);
    if !KnownOrder(sortBy) then
      Seqs.SortByAscending(jobs, key);
      Seqs.SortBy(jobs, key)
    else
      Seqs.SortBy(jobs, key)
  }

  /** Jobs with the same key keep their fetched order. */
  lemma SortedStable(jobs: seq<Api.Job>, sortBy: string, k: int)
    ensures Seqs.Filter(SortedJobs(jobs, sortBy), Seqs.WithKey(SortKey(sortBy), k))
         == Seqs.Filter(jobs, Seqs.WithKey(SortKey(sortBy), k))
  {
    Seqs.SortByStable(jobs, SortKey(sortBy), k);
  }

  /** `parseInt` gives NaN on a text that starts with `$`. */
  lemma DollarIsNaN(s: string)
    requires s != [] && s[0] == '$'
    ensures ParseInt(s) == None
  {
    assert !IsJsSpace(s[0]);
    assert TrimStart(s) == s;
    assert Unsigned(s) == s;
    assert !HasHexPrefix(s);
    assert !IsDigitIn(s[0], 10);
  }

  /** Every salary written as "$…" has key 0, so sorting such jobs by salary,
      in either direction, leaves them in their fetched order. */
  lemma DollarSalariesKeepOrder(jobs: seq<Api.Job>, sortBy: string)
    requires sortBy == "salary-high" || sortBy == "salary-low"
    requires forall i :: 0 <= i < |jobs| ==> jobs[i].salary.Some? && jobs[i].salary.value != [] && jobs[i].salary.value[0] == '$'
    ensures SortedJobs(jobs, sortBy) == jobs
  {
    forall i | 0 <= i < |jobs| ensures SalaryKey(jobs[i]) == 0 {
      DollarIsNaN(jobs[i].salary.value);
    }
    Seqs.SortByAscending(jobs, SortKey(sortBy));
  }

  /** Examples of the salary key: a "$…" range, an empty or missing salary
      all give 0. */
  lemma SalaryKeyExamples(job: Api.Job)
    ensures job.salary == Some("$80,000 - $120,000") ==> SalaryKey(job) == 0
    ensures job.salary == Some("") ==> SalaryKey(job) == 0
    ensures job.salary == None ==> SalaryKey(job) == 0
  {
    if job.salary == Some("$80,000 - $120,000") {
      DollarIsNaN("$80,000 - $120,000");
    } else {
      ParseIntToString(0);
      assert IntToString(0) == "0";
    }
  }

  /** A salary written as a plain integer sorts by its value. */
  lemma SalaryKeyOfNumeral(job: Api.Job, n: int)
    requires job.salary == Some(IntToString(n))
    ensures SalaryKey(job) == n
  {
    ParseIntToString(n);
  }

  // ---------------------------------------------------------------------------
  // Filtering

  /** `filteredJobs`' predicate: the three conditions together, each of which
      the default value switches off. */
  predicate Matches(job: Api.Job, searchTerm: string, selectedType: string, selectedLocation: string): (r: bool)
    ensures searchTerm == "" && selectedType == "All" && selectedLocation == "All" ==> r
    ensures r && selectedType != "All" ==> job.jobType == selectedType
    ensures r && selectedLocation != "All" ==> job.location == selectedLocation
    ensures r && searchTerm != "" ==>
              exists i :: OccursAt(ToLower(job.title), ToLower(searchTerm), i) || OccursAt(ToLower(job.company), ToLower(searchTerm), i)
  {
    ContainsAt(ToLower(job.title), ToLower(searchTerm));
    ContainsAt(ToLower(job.company), ToLower(searchTerm));

    && (searchTerm == ""
        || Contains(ToLower(job.title), ToLower(searchTerm))
        || Contains(ToLower(job.company), ToLower(searchTerm)))
    && (selectedType == "All" || job.jobType == selectedType)
    && (selectedLocation == "All" || job.location == selectedLocation)
  }

  function MatchesFilters(searchTerm: string, selectedType: string, selectedLocation: string): (p: Api.Job -> bool)
    ensures forall job :: p(job) == Matches(job, searchTerm, selectedType, selectedLocation)
  {
    (job: Api.Job) => Matches(job, searchTerm, selectedType, selectedLocation)
  }

  /** The list the page renders: fetched jobs, each passing the filters. */
  function VisibleJobs(jobs: seq<Api.Job>, sortBy: string, searchTerm: string, selectedType: string, selectedLocation: string): (r: seq<Api.Job>)
    ensures |r| <= |jobs|
    ensures forall i :: 0 <= i < |r| ==> r[i] in jobs && Matches(r[i], searchTerm, selectedType, selectedLocation)
  {
    assert forall job :: job in SortedJobs(jobs, sortBy) ==> job in jobs by {
      forall job | job in SortedJobs(jobs, sortBy) ensures job in jobs {
        assert job in multiset(SortedJobs(jobs, sortBy));
      }
    }
    Seqs.Filter(SortedJobs(jobs, sortBy), MatchesFilters(searchTerm, selectedType, selectedLocation))
  }

  /** A fetched job is shown exactly when it passes all three filters, and the
      shown jobs keep the order of the sorted list. */
  lemma VisibleJobsMeaning(jobs: seq<Api.Job>, sortBy: string, searchTerm: string, selectedType: string, selectedLocation: string, job: Api.Job)
    ensures job in VisibleJobs(jobs, sortBy, searchTerm, selectedType, selectedLocation)
            <==> job in jobs && Matches(job, searchTerm, selectedType, selectedLocation)
    ensures Seqs.IsSubsequence(VisibleJobs(jobs, sortBy, searchTerm, selectedType, selectedLocation), SortedJobs(jobs, sortBy))
  {
    var sorted := SortedJobs(jobs, sortBy);
    var p := MatchesFilters(searchTerm, selectedType, selectedLocation);
    assert job in sorted <==> job in jobs by {
      assert job in multiset(sorted) <==> job in multiset(jobs);
    }
    if job in VisibleJobs(jobs, sortBy, searchTerm, selectedType, selectedLocation) {
      var i :| 0 <= i < |Seqs.Filter(sorted, p)| && Seqs.Filter(sorted, p)[i] == job;
    }
    if job in sorted && p(job) {
      var i :| 0 <= i < |sorted| && sorted[i] == job;
    }
    Seqs.FilterIsSubsequence(sorted, p);
  }

  /** With the default filters every sorted job is shown. */
  lemma DefaultFiltersShowAll(jobs: seq<Api.Job>, sortBy: string)
    ensures VisibleJobs(jobs, sortBy, "", "All", "All") == SortedJobs(jobs, sortBy)
  {
    Seqs.FilterKeepsAll(SortedJobs(jobs, sortBy), MatchesFilters("", "All", "All"));
  }

  /** The search ignores the case of ASCII letters. */
  lemma SearchIgnoresCase(job: Api.Job, searchTerm: string, selectedType: string, selectedLocation: string)
    ensures Matches(job, searchTerm, selectedType, selectedLocation)
        <==> Matches(job, ToLower(searchTerm), selectedType, selectedLocation)
  {
    LowerTwice(searchTerm);
  }

  lemma LowerTwice(s: string)
    ensures ToLower(ToLower(s)) == ToLower(s)
    ensures ToLower(s) == "" <==> s == ""
  {
  }

  // ---------------------------------------------------------------------------
  // Page state

  /** The component's state. */
  class JobListing {
    var searchTerm: string
    var selectedType: string
    var selectedLocation: string
    var sortBy: string
    var jobs: seq<Api.Job>
    var loading: bool
    var error: Option<string>

    /** The initial state, before the first fetch. */
    constructor()
      ensures searchTerm == "" && selectedType == "All" && selectedLocation == "All" && sortBy == "newest"
      ensures jobs == [] && loading && error == None
    {
      searchTerm := "";
      selectedType := "All";
      selectedLocation := "All";
      sortBy := "newest";
      jobs := [];
      loading := true;
      error := None;
    }

    /** `fetchJobs` up to its await: loading on, error cleared, parameters
      built from the filters. */
    method BeginFetch() returns (params: seq<(string, Api.ParamValue)>)
      modifies this
      ensures loading && error == None
      ensures params == ServerParams(searchTerm, selectedType, selectedLocation)
      ensures searchTerm == old(searchTerm) && selectedType == old(selectedType)
      ensures selectedLocation == old(selectedLocation) && sortBy == old(sortBy) && jobs == old(jobs)
    {
      loading := true;
      error := None;
      params := [];
      if searchTerm != "" {
        params := params + [("search", Api.Text(searchTerm))];
      }
      if selectedType != "All" {
        params := params + [("type", Api.Text(selectedType))];
      }
      if selectedLocation != "All" {
        params := params + [("location", Api.Text(selectedLocation))];
      }
    }

    /** `fetchJobs` after `getJobs` settles. */
    method FinishFetch(outcome: Call<seq<Api.Job>>)
      modifies this
      ensures !loading
      ensures outcome.Returned? && outcome.response.success && outcome.response.data.Some? ==>
                jobs == outcome.response.data.value && error == old(error)
      ensures outcome.Returned? && !(outcome.response.success && outcome.response.data.Some?) ==>
                jobs == old(jobs) && error == Some(if outcome.response.message != "" then outcome.response.message else "Failed to fetch jobs")
      ensures outcome.Threw? ==> jobs == old(jobs) && error == Some(ErrorText(outcome.thrown, "An error occurred"))
      ensures searchTerm == old(searchTerm) && selectedType == old(selectedType)
      ensures selectedLocation == old(selectedLocation) && sortBy == old(sortBy)
    {
      match outcome {
        case Returned(response) =>
          if response.success && response.data.Some? {
            jobs := response.data.value;
          } else {
            error := Some(OrElse(response.message, "Failed to fetch jobs"));
          }
        case Threw(t) =>
          error := Some(ErrorText(t, "An error occurred"));
      }
      loading := false;
    }

    /** The search box. The effect refetches when the term changes. */
    method SetSearchTerm(value: string) returns (refetch: bool)
      modifies this
      ensures searchTerm == value && refetch == (value != old(searchTerm))
      ensures selectedType == old(selectedType) && selectedLocation == old(selectedLocation) && sortBy == old(sortBy)
      ensures jobs == old(jobs) && loading == old(loading) && error == old(error)
    {
      refetch := value != searchTerm;
      searchTerm := value;
    }

    /** The type select. */
    method SetSelectedType(value: string) returns (refetch: bool)
      modifies this
      ensures selectedType == value && refetch == (value != old(selectedType))
      ensures searchTerm == old(searchTerm) && selectedLocation == old(selectedLocation) && sortBy == old(sortBy)
      ensures jobs == old(jobs) && loading == old(loading) && error == old(error)
    {
      refetch := value != selectedType;
      selectedType := value;
    }

    /** The location select. */
    method SetSelectedLocation(value: string) returns (refetch: bool)
      modifies this
      ensures selectedLocation == value && refetch == (value != old(selectedLocation))
      ensures searchTerm == old(searchTerm) && selectedType == old(selectedType) && sortBy == old(sortBy)
      ensures jobs == old(jobs) && loading == old(loading) && error == old(error)
    {
      refetch := value != selectedLocation;
      selectedLocation := value;
    }

    /** The sort select; the sort is not an effect dependency, so nothing is
      refetched. */
    method SetSortBy(value: string)
      modifies this
      ensures sortBy == value
      ensures searchTerm == old(searchTerm) && selectedType == old(selectedType) && selectedLocation == old(selectedLocation)
      ensures jobs == old(jobs) && loading == old(loading) && error == old(error)
    {
      sortBy := value;
    }

    /** Either "clear filters" button: the three filters back to their
      defaults, the sort kept. */
    method ClearFilters() returns (refetch: bool)
      modifies this
      ensures searchTerm == "" && selectedType == "All" && selectedLocation == "All"
      ensures refetch == (old(searchTerm) != "" || old(selectedType) != "All" || old(selectedLocation) != "All")
      ensures sortBy == old(sortBy) && jobs == old(jobs) && loading == old(loading) && error == old(error)
    {
      refetch := searchTerm != "" || selectedType != "All" || selectedLocation != "All";
      searchTerm := "";
      selectedType := "All";
      selectedLocation := "All";
    }

    /** `filteredJobs`, the list rendered from the current state. */
    function Shown(): (r: seq<Api.Job>)
      reads this
      ensures |r| <= |jobs|
      ensures forall i :: 0 <= i < |r| ==> r[i] in jobs && Matches(r[i], searchTerm, selectedType, selectedLocation)
    {
      VisibleJobs(jobs, sortBy, searchTerm, selectedType, selectedLocation)
    }
  }
}
