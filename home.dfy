/** The landing page of `src/components/Home.tsx`: the job fetch, the
    featured slice and the category tiles built from the mock jobs. */
module Home {
  import opened Wrappers
  import Seqs
  import Api
  import JobsData

  const FeaturedCount := 6
  const FetchFailed := "Failed to fetch jobs"

  /** `jobs.slice(0, 6)`: the first six jobs, or all of them when fewer. */
  function Featured<T>(jobs: seq<T>): (r: seq<T>)
    ensures |r| == if |jobs| < FeaturedCount then |jobs| else FeaturedCount
    ensures forall i :: 0 <= i < |r| ==> r[i] == jobs[i]
  {
    if |jobs| <= FeaturedCount then jobs else jobs[..FeaturedCount]
  }

  /** Featuring is idempotent, and the featured jobs are all the jobs when
      there are no more than six. */
  lemma FeaturedPrefix<T>(jobs: seq<T>)
    ensures Featured(Featured(jobs)) == Featured(jobs)
    ensures |jobs| <= FeaturedCount ==> Featured(jobs) == jobs
    ensures Featured(jobs) <= jobs
  {
  }

  /** `mockJobs.map(job => job.category)`. */
  function CategoryNames(jobs: seq<JobsData.Job>): (r: seq<string>)
    ensures |r| == |jobs| && forall i :: 0 <= i < |jobs| ==> r[i] == jobs[i].category
  {
    seq(|jobs|, i requires 0 <= i < |jobs| => jobs[i].category)
  }

  /** `Array.from(new Set(mockJobs.map(job => job.category)))`: each category
      once, in the order it first appears. */
  function Categories(jobs: seq<JobsData.Job>): (r: seq<string>)
    ensures Seqs.NoDuplicates(r)
    ensures forall i :: 0 <= i < |jobs| ==> jobs[i].category in r
    ensures forall i :: 0 <= i < |r| ==> exists k :: 0 <= k < |jobs| && jobs[k].category == r[i]
    ensures r == Seqs.Distinct(CategoryNames(jobs))
  {
    var names := CategoryNames(jobs);
    var r := Seqs.Distinct(names);
    assert forall i :: 0 <= i < |r| ==> r[i] in names;
    r
  }

  function InCategory(c: string): JobsData.Job -> bool {
    (j: JobsData.Job) => j.category == c
  }

  /** `mockJobs.filter(job => job.category === category).length`. */
  function CategoryCount(jobs: seq<JobsData.Job>, c: string): (n: nat)
    ensures n == Seqs.Count(CategoryNames(jobs), c)
    ensures n > 0 <==> c in CategoryNames(jobs)
  {
    FilterCountsCategory(jobs, c);
    |Seqs.Filter(jobs, InCategory(c))|
  }

  lemma {:induction false} FilterCountsCategory(jobs: seq<JobsData.Job>, c: string)
    ensures |Seqs.Filter(jobs, InCategory(c))| == Seqs.Count(CategoryNames(jobs), c)
  {
    if jobs != [] {
      FilterCountsCategory(jobs[1..], c);
      assert CategoryNames(jobs)[1..] == CategoryNames(jobs[1..]);
    }
  }

  /** The total of the tiles' counts: for each tile, how often its category
      occurs among the jobs' categories. */
  function TileTotal(jobs: seq<JobsData.Job>, cats: seq<string>): (n: nat)
    ensures n == Seqs.SumCounts(cats, CategoryNames(jobs))
  {
    if cats == [] then 0 else CategoryCount(jobs, cats[0]) + TileTotal(jobs, cats[1..])
  }

  /** Every job is counted under exactly one tile: the tile counts add up to
      the number of jobs shown as live. */
  lemma TilesCountEveryJob(jobs: seq<JobsData.Job>)
    ensures TileTotal(jobs, Categories(jobs)) == |jobs|
  {
    Seqs.SumCountsDistinct(CategoryNames(jobs));
  }

  /** On the seed data the tiles count all six jobs. */
  lemma SeedTiles()
    ensures TileTotal(JobsData.SeedJobs(), Categories(JobsData.SeedJobs())) == 6
  {
    TilesCountEveryJob(JobsData.SeedJobs());
  }

  /** The page's state. */
  class HomePage {
    var jobs: seq<Api.Job>
    var loading: bool
    var error: Option<string>

    constructor()
      ensures jobs == [] && !loading && error.None?
    {
      jobs := [];
      loading := false;
      error := None;
    }

    /** `fetchJobs` up to its await. */
    method BeginFetch()
      modifies this
      ensures loading && jobs == old(jobs) && error == old(error)
    {
      loading := true;
    }

    /** `fetchJobs` once `getJobs()` settles: the jobs are replaced only by a
        successful list, a throw records its message, and loading always ends. */
    method FinishFetch(outcome: Call<seq<Api.Job>>)
      modifies this
      ensures !loading
      ensures outcome.Returned? && outcome.response.success && outcome.response.data.Some? ==>
                jobs == outcome.response.data.value && error == old(error)
      ensures outcome.Returned? && !(outcome.response.success && outcome.response.data.Some?) ==>
                jobs == old(jobs) && error == old(error)
      ensures outcome.Threw? ==> jobs == old(jobs) && error == Some(ErrorText(outcome.thrown, FetchFailed))
    {
      match outcome {
        case Returned(response) =>
          if response.success && response.data.Some? {
            jobs := response.data.value;
          }
        case Threw(t) =>
          error := Some(ErrorText(t, FetchFailed));
      }
      loading := false;
    }

    /** `featuredJobs`. */
    function FeaturedJobs(): (r: seq<Api.Job>)
      reads this
      ensures |r| == if |jobs| < FeaturedCount then |jobs| else FeaturedCount
      ensures r <= jobs
    {
      Featured(jobs)
    }
  }
}
