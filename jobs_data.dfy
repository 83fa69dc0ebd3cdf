/** The mock job store of `src/data/jobs.ts`: the seed records, the two option
    lists, and the module-level `jobsState` with its getter and its append,
    update-by-id and delete-by-id operations. */
module JobsData {
  import opened Wrappers
  import Seqs

  /** The `Job` record of the mock store (`type` is `jobType`). */
  datatype Job = Job(
    id: int,
    title: string,
    company: string,
    location: string,
    jobType: string,
    salary: string,
    posted: string,
    description: string,
    requirements: seq<string>,
    logo: string,
    category: string,
    foodAccommodation: Option<string>,
    gender: Option<string>)

  /** `mockJobsData`, the six seed records, with consecutive ids from 1922330
      (hence pairwise distinct). */
  function SeedJobs(): (r: seq<Job>)
    ensures |r| == 6
    ensures forall i :: 0 <= i < |r| ==> r[i].id == 1922330 + i
  {
    [Seed1922330(), Seed1922331(), Seed1922332(), Seed1922333(), Seed1922334(), Seed1922335()]
  }

  function Seed1922330(): Job {
    Job(1922330, "Senior Frontend Developer", "TechCorp Solutions", "New York, NY", "Full-time", "$80,000 - $120,000", "2 days ago",
      Description1922330(),
      ["React", "TypeScript", "Next.js", "Tailwind CSS", "3+ years experience"],
      "https://images" + ".unsplash.com" + "/photo-" + "1560472354" + "-b33ff0c44a43" + "?w=60&h=60" + "&fit=crop" + "&crop=face",
      "Development", Some("Provided"), Some("Male"))
  }

  function Seed1922331(): Job {
    Job(1922331, "UX/UI Designer", "Creative Studio", "San Francisco, CA", "Full-time", "$70,000 - $100,000", "1 day ago",
      Description1922331(),
      ["Figma", "Adobe Creative Suite", "User Research", "Prototyping", "2+ years experience"],
      "https://images" + ".unsplash.com" + "/photo-" + "1494790108755" + "-2616b612b786" + "?w=60&h=60" + "&fit=crop" + "&crop=face",
      "Design", Some("Not Provided"), Some("Female"))
  }

  function Seed1922332(): Job {
    Job(1922332, "Digital Marketing Manager", "Growth Agency", "Chicago, IL", "Full-time", "$60,000 - $90,000", "3 days ago",
      Description1922332(),
      ["Google Analytics", "Social Media", "SEO/SEM", "Email Marketing", "4+ years experience"],
      "https://images" + ".unsplash.com" + "/photo-" + "1472099645785" + "-5658abf4ff4e" + "?w=60&h=60" + "&fit=crop" + "&crop=face",
      "Marketing", None, None)
  }

  function Seed1922333(): Job {
    Job(1922333, "Backend Developer", "DataTech Inc", "Austin, TX", "Remote", "$85,000 - $130,000", "1 week ago",
      Description1922333(),
      ["Node.js", "Python", "AWS", "Database Design", "5+ years experience"],
      "https://images" + ".unsplash.com" + "/photo-" + "1507003211169" + "-0a1dd7228f2d" + "?w=60&h=60" + "&fit=crop" + "&crop=face",
      "Development", None, None)
  }

  function Seed1922334(): Job {
    Job(1922334, "Product Manager", "InnovateLab", "Seattle, WA", "Full-time", "$90,000 - $140,000", "4 days ago",
      Description1922334(),
      ["Product Strategy", "Agile", "User Research", "Analytics", "3+ years experience"],
      "https://images" + ".unsplash.com" + "/photo-" + "1500648767791" + "-00dcc994a43e" + "?w=60&h=60" + "&fit=crop" + "&crop=face",
      "Management", None, None)
  }

  function Seed1922335(): Job {
    Job(1922335, "DevOps Engineer", "CloudScale", "Denver, CO", "Hybrid", "$95,000 - $135,000", "5 days ago",
      Description1922335(),
      ["Docker", "Kubernetes", "AWS", "CI/CD", "4+ years experience"],
      "https://images" + ".unsplash.com" + "/photo-" + "1519085360753" + "-af0119f7cbe7" + "?w=60&h=60" + "&fit=crop" + "&crop=face",
      "Development", None, None)
  }

  // The descriptions below are the seed texts verbatim, written as
  // concatenations of short pieces: the verifier encodes a string literal one
  // character at a time, with facts for every position, so its cost grows with
  // the square of the literal's length, while a concatenation of short pieces
  // stays cheap for every proof that unfolds a seed record.

  function Description1922330(): string {
    "We are " + "looking for " + "a skilled " + "Frontend " + "Developer "
    + "to join our " + "team. You " + "will be " + "responsible " + "for "
    + "building " + "user-facing " + "web " + "applications " + "and "
    + "ensuring " + "great user " + "experience. " + "In this " + "role, you "
    + "will work " + "closely " + "with our " + "design team " + "to "
    + "implement " + "pixel-perfect " + "UIs and " + "collaborate " + "with "
    + "backend " + "developers " + "to " + "integrate " + "APIs. "
    + "You'll also " + "be involved " + "in code " + "reviews, " + "mentoring "
    + "junior " + "developers, " + "and " + "contributing " + "to our "
    + "technical " + "architecture " + "decisions."
  }

  function Description1922331(): string {
    "Join our " + "design team " + "to create " + "beautiful " + "and "
    + "functional " + "user " + "interfaces. " + "You'll work " + "closely "
    + "with " + "developers " + "and product " + "managers to " + "bring "
    + "designs to " + "life. This " + "role " + "involves " + "conducting "
    + "user " + "research, " + "creating " + "wireframes " + "and "
    + "prototypes, " + "and " + "ensuring " + "our " + "products " + "provide "
    + "exceptional " + "user " + "experiences. " + "You'll also "
    + "collaborate " + "with " + "marketing " + "teams on " + "brand "
    + "consistency " + "and visual " + "identity."
  }

  function Description1922332(): string {
    "Lead our " + "digital " + "marketing " + "efforts " + "across "
    + "multiple " + "channels. " + "Drive " + "growth " + "through "
    + "strategic " + "campaigns " + "and data " + "analysis. " + "You'll be "
    + "responsible " + "for " + "developing " + "and " + "executing "
    + "comprehensive " + "digital " + "marketing " + "strategies, " + "managing "
    + "social " + "media " + "presence, " + "optimizing " + "SEO/SEM "
    + "campaigns, " + "and " + "analyzing " + "performance " + "metrics to "
    + "drive " + "continuous " + "improvement."
  }

  function Description1922333(): string {
    "Build " + "scalable " + "backend " + "systems and " + "APIs. Work "
    + "with modern " + "technologies " + "and cloud " + "platforms. "
    + "You'll be " + "responsible " + "for " + "designing " + "and "
    + "implementing " + "robust " + "backend " + "services, " + "optimizing "
    + "database " + "performance, " + "ensuring " + "system " + "security, "
    + "and " + "collaborating " + "with " + "frontend " + "teams to "
    + "deliver " + "seamless " + "user " + "experiences."
  }

  function Description1922334(): string {
    "Lead " + "product " + "strategy " + "and " + "development. "
    + "Work with " + "cross-functional " + "teams to " + "deliver "
    + "exceptional " + "products. " + "You'll be " + "responsible " + "for "
    + "defining " + "product " + "roadmaps, " + "gathering " + "and "
    + "prioritizing " + "requirements, " + "coordinating " + "with "
    + "engineering " + "and design " + "teams, and " + "ensuring "
    + "successful " + "product " + "launches " + "that meet " + "business "
    + "objectives."
  }

  function Description1922335(): string {
    "Manage " + "infrastructure " + "and " + "deployment " + "pipelines. "
    + "Ensure " + "system " + "reliability " + "and " + "performance. "
    + "You'll be " + "responsible " + "for " + "automating " + "deployment "
    + "processes, " + "monitoring " + "system " + "health, " + "managing "
    + "cloud " + "infrastructure, " + "and " + "implementing " + "CI/CD "
    + "pipelines " + "to support " + "our " + "development " + "teams."
  }

  const JobTypes: seq<string> := ["All", "Full-time", "Part-time", "Remote", "Hybrid", "Contract"]
  const Locations: seq<string> := ["All", "New York, NY", "San Francisco, CA", "Chicago, IL", "Austin, TX", "Seattle, WA", "Denver, CO"]

  function Ids(jobs: seq<Job>): (r: seq<int>)
    ensures |r| == |jobs|
    ensures forall i :: 0 <= i < |jobs| ==> r[i] == jobs[i].id
  {
    seq(|jobs|, i requires 0 <= i < |jobs| => jobs[i].id)
  }

  lemma SeedIdsDistinct()
    ensures Seqs.NoDuplicates(Ids(SeedJobs()))
  {
  }

  /** The type options begin with "All", and every seed job's type is one of
      the options after it. */
  lemma TypeOptionsCoverSeed()
    ensures JobTypes[0] == "All"
    ensures forall i :: 0 <= i < |SeedJobs()| ==> SeedJobs()[i].jobType in JobTypes[1..]
  {
    var offered := JobTypes[1..];
    assert offered[0] == "Full-time" && offered[2] == "Remote" && offered[3] == "Hybrid";
  }

  /** The location options begin with "All", and every seed job's location is
      one of the options after it. */
  lemma LocationOptionsCoverSeed()
    ensures Locations[0] == "All"
    ensures forall i :: 0 <= i < |SeedJobs()| ==> SeedJobs()[i].location in Locations[1..]
  {
    var offered := Locations[1..];
    assert forall i :: 0 <= i < 6 ==> offered[i] == Locations[i + 1];
  }

  // ---------------------------------------------------------------------------
  // The list operations, on values

  /** `jobs.map(j => j.id === id ? job : j)`. */
  function ReplaceById(jobs: seq<Job>, id: int, job: Job): (r: seq<Job>)
    ensures |r| == |jobs|
    ensures forall i :: 0 <= i < |jobs| ==> (jobs[i].id == id ==> r[i] == job) && (jobs[i].id != id ==> r[i] == jobs[i])
  {
    Seqs.MapWhere(jobs, (j: Job) => j.id == id, (_: Job) => job)
  }

  function LacksId(id: int): Job -> bool {
    (j: Job) => j.id != id
  }

  /** `jobs.filter(j => j.id !== id)`. */
  function RemoveById(jobs: seq<Job>, id: int): (r: seq<Job>)
    ensures |r| <= |jobs|
    ensures forall i :: 0 <= i < |r| ==> r[i].id != id && r[i] in jobs
    ensures forall i :: 0 <= i < |jobs| && jobs[i].id != id ==> jobs[i] in r
  {
    Seqs.Filter(jobs, LacksId(id))
  }

  /** Deleting keeps the remaining jobs in their order. */
  lemma RemoveKeepsOrder(jobs: seq<Job>, id: int)
    ensures Seqs.IsSubsequence(RemoveById(jobs, id), jobs)
  {
    Seqs.FilterIsSubsequence(jobs, LacksId(id));
  }

  /** Deleting an id that is not present changes nothing. */
  lemma RemoveAbsent(jobs: seq<Job>, id: int)
    requires id !in Ids(jobs)
    ensures RemoveById(jobs, id) == jobs
  {
    assert forall i :: 0 <= i < |jobs| ==> Ids(jobs)[i] == jobs[i].id;
    Seqs.FilterKeepsAll(jobs, LacksId(id));
  }

  /** Deleting twice is deleting once. */
  lemma RemoveIdempotent(jobs: seq<Job>, id: int)
    ensures RemoveById(RemoveById(jobs, id), id) == RemoveById(jobs, id)
  {
    Seqs.FilterIdempotent(jobs, LacksId(id));
  }

  /** With no matching id an update changes nothing. */
  lemma ReplaceAbsent(jobs: seq<Job>, id: int, job: Job)
    requires id !in Ids(jobs)
    ensures ReplaceById(jobs, id, job) == jobs
  {
    assert forall i :: 0 <= i < |jobs| ==> Ids(jobs)[i] == jobs[i].id;
  }

  /** Deleting an id after updating it to a job that keeps the id is the same as
      deleting it straight away. */
  lemma {:induction false} RemoveAfterReplace(jobs: seq<Job>, id: int, job: Job)
    requires job.id == id
    ensures RemoveById(ReplaceById(jobs, id, job), id) == RemoveById(jobs, id)
  {
    if jobs != [] {
      var r := ReplaceById(jobs, id, job);
      RemoveAfterReplace(jobs[1..], id, job);
      assert r[1..] == ReplaceById(jobs[1..], id, job);
      assert r == [r[0]] + r[1..];
      Seqs.FilterCons(r[0], r[1..], LacksId(id));
      Seqs.FilterCons(jobs[0], jobs[1..], LacksId(id));
      assert jobs == [jobs[0]] + jobs[1..];
    }
  }

  // ---------------------------------------------------------------------------
  // The module state

  /** The module `jobs.ts` itself: `jobsState` and the functions over it. */
  class JobStore {
    var jobsState: seq<Job>

    /** `let jobsState = [...mockJobsData]`. */
    constructor()
      ensures jobsState == SeedJobs()
    {
      jobsState := SeedJobs();
    }

    /** `getJobs()`. */
    method GetJobs() returns (r: seq<Job>)
      ensures r == jobsState
    {
      r := jobsState;
    }

    /** `addJob(job)`: appends, and returns the new state. */
    method AddJob(job: Job) returns (r: seq<Job>)
      modifies this
      ensures jobsState == old(jobsState) + [job]
      ensures |jobsState| == |old(jobsState)| + 1
      ensures jobsState[..|old(jobsState)|] == old(jobsState) && jobsState[|old(jobsState)|] == job
      ensures r == jobsState
    {
      jobsState := jobsState + [job];
      r := jobsState;
    }

    /** `updateJob(id, job)`: every record with that id becomes `job`. */
    method UpdateJob(id: int, job: Job) returns (r: seq<Job>)
      modifies this
      ensures jobsState == ReplaceById(old(jobsState), id, job)
      ensures |jobsState| == |old(jobsState)|
      ensures forall i :: 0 <= i < |jobsState| && old(jobsState)[i].id != id ==> jobsState[i] == old(jobsState)[i]
      ensures r == jobsState
    {
      jobsState := ReplaceById(jobsState, id, job);
      r := jobsState;
    }

    /** `deleteJob(id)`: drops every record with that id. */
    method DeleteJob(id: int) returns (r: seq<Job>)
      modifies this
      ensures jobsState == RemoveById(old(jobsState), id)
      ensures id !in Ids(old(jobsState)) ==> jobsState == old(jobsState)
      ensures r == jobsState
    {
      RemoveAbsentGuard(jobsState, id);
      jobsState := RemoveById(jobsState, id);
      r := jobsState;
    }
  }

  lemma RemoveAbsentGuard(jobs: seq<Job>, id: int)
    ensures id !in Ids(jobs) ==> RemoveById(jobs, id) == jobs
  {
    if id !in Ids(jobs) {
      RemoveAbsent(jobs, id);
    }
  }
}
