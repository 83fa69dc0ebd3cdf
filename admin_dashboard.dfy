/** The admin dashboard of `src/components/AdminDashboard.tsx`: the three
    fetches and how they unwrap the response, the job handlers over the
    dashboard's own list, the application status change, the status colours
    and the candidate initials. */
module AdminDashboard {
  import opened Wrappers
  import opened Strings
  import Seqs
  import Api
  import JobForm

  /** The dashboard's `Application` record. `status` holds whatever the server
      sent; the four known values are the ones the status select offers. */
  datatype Application = Application(
    id: int,
    jobId: int,
    jobTitle: string,
    candidateName: string,
    email: string,
    phone: string,
    appliedDate: string,
    resume: string,
    coverLetter: string,
    status: string,
    paymentFile: Option<string>)

  /** A contact message as the messages tab shows it. */
  datatype ContactMessage = ContactMessage(id: int, name: string, email: string, subject: string, message: string, createdAt: string)

  /** What a truthy `response.data` of a listing can be: an array, an object
      whose array-valued properties are `fields`, or any other value. */
  datatype ListBody<T> = ListData(items: seq<T>) | Keyed(fields: map<string, seq<T>>) | OtherData

  /** The list a listing fetch stores: the array itself, or the array under
      `key` of an object; anything else, an unsuccessful response or a thrown
      error gives the empty list. (An array has no `key` property and an object
      is not an array, so the order in which the two fetches test the shapes
      does not matter.) */
  function ListFrom<T>(outcome: Call<ListBody<T>>, key: string): (r: seq<T>)
    ensures (outcome.Returned? && outcome.response.success && outcome.response.data.Some?
             && outcome.response.data.value.ListData?) ==> r == outcome.response.data.value.items
    ensures (outcome.Returned? && outcome.response.success && outcome.response.data.Some?
             && outcome.response.data.value.Keyed? && key in outcome.response.data.value.fields)
            ==> r == outcome.response.data.value.fields[key]
    ensures r != [] ==> outcome.Returned? && outcome.response.success && outcome.response.data.Some?
  {
    match outcome
    case Threw(_) => []
    case Returned(response) =>
      if !response.success || response.data.None? then []
      else
        match response.data.value
        case ListData(items) => items
        case Keyed(fields) => if key in fields then fields[key] else []
        case OtherData => []
  }

  const ApplicationsKey := "applications"
  const MessagesKey := "messages"

  /** Both shapes the server may use for a successful listing deliver the same
      list, and a failed call delivers none. */
  lemma ListFromShapes<T>(items: seq<T>, message: string, err: string, key: string, t: Thrown)
    ensures ListFrom(Returned(Envelope(true, message, Some(ListData(items)), err)), key) == items
    ensures ListFrom(Returned(Envelope(true, message, Some(Keyed(map[key := items])), err)), key) == items
    ensures ListFrom(Returned(Envelope(false, message, Some(ListData(items)), err)), key) == []
    ensures ListFrom<T>(Threw(t), key) == []
  {
  }

  /** The jobs after `fetchJobs`: the successful list, `[]` after a throw, and
      otherwise the jobs as they were. */
  function JobsAfterFetch(current: seq<Api.Job>, outcome: Call<seq<Api.Job>>): (r: seq<Api.Job>)
    ensures outcome.Threw? ==> r == []
    ensures outcome.Returned? && outcome.response.success && outcome.response.data.Some? ==> r == outcome.response.data.value
    ensures outcome.Returned? && !(outcome.response.success && outcome.response.data.Some?) ==> r == current
  {
    match outcome
    case Threw(_) => []
    case Returned(response) =>
      if response.success && response.data.Some? then response.data.value else current
  }

  /** Refetching is idempotent: a second identical response leaves what the
      first one left. */
  lemma JobsAfterFetchTwice(current: seq<Api.Job>, outcome: Call<seq<Api.Job>>)
    ensures JobsAfterFetch(JobsAfterFetch(current, outcome), outcome) == JobsAfterFetch(current, outcome)
  {
  }

  /** `{ ...jobData, id }`: the submitted form as a job under the kept id. The
      form has no `category_name`, `food_accommodation` or `created_at`. */
  function WithId(data: JobForm.FormData, id: int): (j: Api.Job)
    ensures j.id == id
    ensures j.title == data.title && j.company == data.company && j.location == data.location
    ensures j.jobType == data.jobType && j.description == data.description && j.posted == data.posted
    ensures j.requirements == data.requirements && j.logo == data.logo && j.category == data.category
    ensures j.salary == Some(data.salary) && j.foodAccommodation == Some(data.foodAccommodation) && j.gender == Some(data.gender)
    ensures j.categoryName.None? && j.foodAccommodationSnake.None? && j.createdAt.Missing?
  {
    Api.Job(id, data.title, data.company, data.location, data.jobType, Some(data.salary), data.description,
            data.requirements, data.logo, None, data.category, None, Some(data.foodAccommodation),
            Some(data.gender), data.posted, Api.Missing)
  }

  function JobIds(jobs: seq<Api.Job>): (r: seq<int>)
    ensures |r| == |jobs| && forall i :: 0 <= i < |jobs| ==> r[i] == jobs[i].id
  {
    seq(|jobs|, i requires 0 <= i < |jobs| => jobs[i].id)
  }

  /** `jobs.map(j => j.id === id ? job : j)`. */
  function ReplaceJob(jobs: seq<Api.Job>, id: int, job: Api.Job): (r: seq<Api.Job>)
    ensures |r| == |jobs|
    ensures forall i :: 0 <= i < |jobs| ==> r[i] == (if jobs[i].id == id then job else jobs[i])
  {
    Seqs.MapWhere(jobs, (j: Api.Job) => j.id == id, (_: Api.Job) => job)
  }

  /** Replacing by a job that keeps the id leaves the list of ids as it was. */
  lemma ReplaceKeepsIds(jobs: seq<Api.Job>, data: JobForm.FormData, id: int)
    ensures JobIds(ReplaceJob(jobs, id, WithId(data, id))) == JobIds(jobs)
  {
  }

  /** `jobs.filter(j => j.id !== id)`. */
  function RemoveJob(jobs: seq<Api.Job>, id: int): (r: seq<Api.Job>)
    ensures forall i :: 0 <= i < |r| ==> r[i].id != id && r[i] in jobs
    ensures forall i :: 0 <= i < |jobs| && jobs[i].id != id ==> jobs[i] in r
    ensures Seqs.IsSubsequence(r, jobs)
  {
    Seqs.FilterIsSubsequence(jobs, (j: Api.Job) => j.id != id);
    Seqs.Filter(jobs, (j: Api.Job) => j.id != id)
  }

  /** Deleting an id the list does not hold changes nothing. */
  lemma RemoveAbsentJob(jobs: seq<Api.Job>, id: int)
    requires id !in JobIds(jobs)
    ensures RemoveJob(jobs, id) == jobs
  {
    assert forall i :: 0 <= i < |jobs| ==> JobIds(jobs)[i] != id;
    Seqs.FilterKeepsAll(jobs, (j: Api.Job) => j.id != id);
  }

  /** The application list after a status change for `id`. */
  function WithStatus(apps: seq<Application>, id: int, status: string): (r: seq<Application>)
    ensures |r| == |apps|
    ensures forall i :: 0 <= i < |apps| ==>
              r[i] == (if apps[i].id == id then apps[i].(status := status) else apps[i])
  {
    Seqs.MapWhere(apps, (a: Application) => a.id == id, (a: Application) => a.(status := status))
  }

  /** Only the status changes: every application keeps its id and all its
      other fields. */
  lemma WithStatusOnlyStatus(apps: seq<Application>, id: int, status: string)
    ensures forall i :: 0 <= i < |apps| ==> WithStatus(apps, id, status)[i].(status := apps[i].status) == apps[i]
    ensures forall i :: 0 <= i < |apps| && apps[i].id == id ==> WithStatus(apps, id, status)[i].status == status
  {
  }

  // ---------------------------------------------------------------------------
  // Presentation helpers

  const PendingColor := "bg-yellow-100 text-yellow-800"
  const ReviewedColor := "bg-blue-100 text-blue-800"
  const ShortlistedColor := "bg-green-100 text-green-800"
  const RejectedColor := "bg-red-100 text-red-800"
  const DefaultColor := "bg-gray-100 text-gray-800"

  /** `getStatusColor(status)`. */
  function StatusColor(status: string): (c: string)
    ensures status == "pending" ==> c == PendingColor
    ensures status == "reviewed" ==> c == ReviewedColor
    ensures status == "shortlisted" ==> c == ShortlistedColor
    ensures status == "rejected" ==> c == RejectedColor
    ensures status !in {"pending", "reviewed", "shortlisted", "rejected"} ==> c == DefaultColor
  {
    if status == "pending" then PendingColor
    else if status == "reviewed" then ReviewedColor
    else if status == "shortlisted" then ShortlistedColor
    else if status == "rejected" then RejectedColor
    else DefaultColor
  }

  /** The colour tells the status apart: it is the gray default exactly when
      the status is none of the four. */
  lemma StatusColorDistinguishes(s: string, t: string)
    ensures StatusColor(s) == DefaultColor <==> s !in {"pending", "reviewed", "shortlisted", "rejected"}
    ensures StatusColor(s) == StatusColor(t) && StatusColor(s) != DefaultColor ==> s == t
  {
    assert PendingColor[3] == 'y' && ReviewedColor[3] == 'b' && ShortlistedColor[3] == 'g' && RejectedColor[3] == 'r';
    assert DefaultColor[3] == 'g' && ShortlistedColor[4] == 'r' && DefaultColor[4] == 'r' && ShortlistedColor[5] == 'e' && DefaultColor[5] == 'a';
  }


  /** `parts.map(n => n[0]).join('')`: an empty part contributes nothing, since
      its `n[0]` is `undefined`, which `join` writes as "". */
  function FirstChars(parts: seq<string>): (r: string)
    ensures |r| == |Seqs.Filter(parts, NonEmpty)|
    ensures forall i :: 0 <= i < |r| ==> r[i] == Seqs.Filter(parts, NonEmpty)[i][0]
  {
    if parts == [] then ""
    else
      var rest := FirstChars(parts[1..]);
      assert Seqs.Filter(parts, NonEmpty) == (if NonEmpty(parts[0]) then [parts[0]] else []) + Seqs.Filter(parts[1..], NonEmpty);
      (if parts[0] == "" then "" else [parts[0][0]]) + rest
  }

  /** The avatar text of a candidate: the first letter of every space-separated
      part of the name, or "NA" for an empty name. */
  function Initials(name: string): (r: string)
    ensures name == "" ==> r == "NA"
    ensures name != "" ==> r == FirstChars(Split(name, ' '))
  {
    if name != "" then FirstChars(Split(name, ' ')) else "NA"
  }

  /** Splitting words joined by single spaces gives the words back. */
  lemma {:induction false} SplitJoinWords(words: seq<string>)
    requires words != []
    requires forall i :: 0 <= i < |words| ==> ' ' !in words[i]
    ensures Split(Join(words, " "), ' ') == words
  {
    if |words| == 1 {
      SplitWithoutSeparator(words[0], ' ');
    } else {
      SplitJoinWords(words[1..]);
      assert Join(words, " ") == words[0] + [' '] + Join(words[1..], " ");
      SplitAtSeparator(words[0], ' ', Join(words[1..], " "));
      assert [words[0]] + words[1..] == words;
    }
  }

  /** A name of words separated by single spaces has one initial per word. */
  lemma InitialsOfWords(words: seq<string>)
    requires words != []
    requires forall i :: 0 <= i < |words| ==> words[i] != "" && ' ' !in words[i]
    ensures |Initials(Join(words, " "))| == |words|
    ensures forall i :: 0 <= i < |words| ==> Initials(Join(words, " "))[i] == words[i][0]
  {
    SplitJoinWords(words);
    Seqs.FilterKeepsAll(words, NonEmpty);
    var j := Join(words, " ");
    assert |words| == 1 ==> j == words[0];
    assert |words| > 1 ==> j == words[0] + " " + Join(words[1..], " ");
    assert j != "";
  }

  // ---------------------------------------------------------------------------
  // The component

  datatype Tab = JobsTab | ApplicationsTab | MessagesTab

  /** The query of the messages listing. */
  const MessagesParams: seq<(string, Api.ParamValue)> := [("page", Api.Number(1)), ("limit", Api.Number(50))]

  const CreateFailed := "Failed to create job"

  class Dashboard {
    var jobs: seq<Api.Job>
    var applications: seq<Application>
    var showJobForm: bool
    var editingJob: Option<Api.Job>
    var error: Option<string>
    var activeTab: Tab
    var contactMessages: seq<ContactMessage>
    var loadingMessages: bool

    /** First render. */
    constructor()
      ensures jobs == [] && applications == [] && contactMessages == []
      ensures !showJobForm && editingJob.None? && error.None?
      ensures activeTab == JobsTab && !loadingMessages
    {
      jobs := [];
      applications := [];
      showJobForm := false;
      editingJob := None;
      error := None;
      activeTab := JobsTab;
      contactMessages := [];
      loadingMessages := false;
    }

    /** `fetchApplications` once `getApplications()` settles. */
    method FinishFetchApplications(outcome: Call<ListBody<Application>>)
      modifies this
      ensures applications == ListFrom(outcome, ApplicationsKey)
      ensures jobs == old(jobs) && contactMessages == old(contactMessages) && error == old(error)
      ensures showJobForm == old(showJobForm) && editingJob == old(editingJob)
      ensures activeTab == old(activeTab) && loadingMessages == old(loadingMessages)
    {
      applications := ListFrom(outcome, ApplicationsKey);
    }

    /** `fetchContactMessages` up to its await: the spinner flag and the query. */
    method BeginFetchContactMessages() returns (params: seq<(string, Api.ParamValue)>)
      modifies this
      ensures loadingMessages && params == MessagesParams
      ensures Api.Query(Api.ContactRule, params) == Some([("page", "1"), ("limit", "50")])
      ensures jobs == old(jobs) && applications == old(applications) && contactMessages == old(contactMessages)
      ensures showJobForm == old(showJobForm) && editingJob == old(editingJob)
      ensures error == old(error) && activeTab == old(activeTab)
    {
      loadingMessages := true;
      params := MessagesParams;
      Api.DashboardMessagesQuery();
    }

    /** `fetchContactMessages` once the call settles, in every outcome. */
    method FinishFetchContactMessages(outcome: Call<ListBody<ContactMessage>>)
      modifies this
      ensures contactMessages == ListFrom(outcome, MessagesKey) && !loadingMessages
      ensures jobs == old(jobs) && applications == old(applications) && error == old(error)
      ensures showJobForm == old(showJobForm) && editingJob == old(editingJob) && activeTab == old(activeTab)
    {
      contactMessages := ListFrom(outcome, MessagesKey);
      loadingMessages := false;
    }

    /** `fetchJobs` once `getJobs()` settles. */
    method FinishFetchJobs(outcome: Call<seq<Api.Job>>)
      modifies this
      ensures jobs == JobsAfterFetch(old(jobs), outcome)
      ensures applications == old(applications) && contactMessages == old(contactMessages) && error == old(error)
      ensures showJobForm == old(showJobForm) && editingJob == old(editingJob)
      ensures activeTab == old(activeTab) && loadingMessages == old(loadingMessages)
    {
      match outcome {
        case Threw(_) =>
          jobs := [];
        case Returned(response) =>
          if response.success && response.data.Some? {
            jobs := response.data.value;
          }
      }
    }

    /** Choosing a tab; the result says whether the messages are fetched
        again, which happens when the tab changes to the messages tab. */
    method SetActiveTab(tab: Tab) returns (refetchMessages: bool)
      modifies this
      ensures activeTab == tab
      ensures refetchMessages <==> (tab == MessagesTab && old(activeTab) != MessagesTab)
      ensures jobs == old(jobs) && applications == old(applications) && contactMessages == old(contactMessages)
      ensures showJobForm == old(showJobForm) && editingJob == old(editingJob)
      ensures error == old(error) && loadingMessages == old(loadingMessages)
    {
      refetchMessages := tab == MessagesTab && activeTab != MessagesTab;
      activeTab := tab;
    }

    /** `handleCreateJob` once `createJob` settles and, after a success, the
        refetch has settled too: the form closes in every outcome. */
    method CreateJob<T>(created: Call<T>, refetched: Call<seq<Api.Job>>)
      modifies this
      ensures !showJobForm
      ensures created.Returned? && created.response.success ==>
                jobs == JobsAfterFetch(old(jobs), refetched) && error == old(error)
      ensures created.Returned? && !created.response.success ==>
                jobs == old(jobs) && error == Some(OrElse(created.response.message, CreateFailed))
      ensures created.Threw? ==> jobs == old(jobs) && error == Some(ErrorText(created.thrown, CreateFailed))
      ensures applications == old(applications) && contactMessages == old(contactMessages)
      ensures editingJob == old(editingJob) && activeTab == old(activeTab) && loadingMessages == old(loadingMessages)
    {
      match created {
        case Returned(response) =>
          if response.success {
            FinishFetchJobs(refetched);
            showJobForm := false;
          } else {
            error := Some(OrElse(response.message, CreateFailed));
          }
        case Threw(t) =>
          error := Some(ErrorText(t, CreateFailed));
      }
      showJobForm := false;
    }

    /** `handleEditJob`: the form opens on that job. */
    method EditJob(job: Api.Job)
      modifies this
      ensures editingJob == Some(job) && showJobForm
      ensures jobs == old(jobs) && applications == old(applications) && contactMessages == old(contactMessages)
      ensures error == old(error) && activeTab == old(activeTab) && loadingMessages == old(loadingMessages)
    {
      editingJob := Some(job);
      showJobForm := true;
    }

    /** `handleUpdateJob`: the edited job is replaced, under its own id, by the
        submitted data; without a job being edited nothing happens. */
    method UpdateJob(data: JobForm.FormData)
      modifies this
      ensures old(editingJob).Some? ==>
                && jobs == ReplaceJob(old(jobs), old(editingJob).value.id, WithId(data, old(editingJob).value.id))
                && editingJob.None? && !showJobForm
      ensures old(editingJob).None? ==> jobs == old(jobs) && showJobForm == old(showJobForm) && editingJob.None?
      ensures |jobs| == |old(jobs)|
      ensures applications == old(applications) && contactMessages == old(contactMessages)
      ensures error == old(error) && activeTab == old(activeTab) && loadingMessages == old(loadingMessages)
    {
      if editingJob.Some? {
        var id := editingJob.value.id;
        jobs := ReplaceJob(jobs, id, WithId(data, id));
        editingJob := None;
        showJobForm := false;
      }
    }

    /** The form's `onSubmit`: an update while a job is being edited, a create
        otherwise; either way the form ends closed. */
    method SubmitJobForm<T>(data: JobForm.FormData, created: Call<T>, refetched: Call<seq<Api.Job>>)
      modifies this
      ensures !showJobForm
      ensures old(editingJob).Some? ==>
                jobs == ReplaceJob(old(jobs), old(editingJob).value.id, WithId(data, old(editingJob).value.id))
      ensures old(editingJob).None? && created.Returned? && created.response.success ==>
                jobs == JobsAfterFetch(old(jobs), refetched)
      ensures old(editingJob).None? && !(created.Returned? && created.response.success) ==> jobs == old(jobs)
      ensures editingJob.None?
    {
      if editingJob.Some? {
        UpdateJob(data);
      } else {
        CreateJob(created, refetched);
      }
    }

    /** `handleDeleteJob`: only a confirmed deletion removes the jobs with that
        id. */
    method DeleteJob(id: int, confirmed: bool)
      modifies this
      ensures confirmed ==> jobs == RemoveJob(old(jobs), id)
      ensures !confirmed ==> jobs == old(jobs)
      ensures applications == old(applications) && contactMessages == old(contactMessages)
      ensures showJobForm == old(showJobForm) && editingJob == old(editingJob)
      ensures error == old(error) && activeTab == old(activeTab) && loadingMessages == old(loadingMessages)
    {
      if confirmed {
        jobs := RemoveJob(jobs, id);
      }
    }

    /** `handleCloseForm`. */
    method CloseForm()
      modifies this
      ensures !showJobForm && editingJob.None?
      ensures jobs == old(jobs) && applications == old(applications) && contactMessages == old(contactMessages)
      ensures error == old(error) && activeTab == old(activeTab) && loadingMessages == old(loadingMessages)
    {
      showJobForm := false;
      editingJob := None;
    }

    /** `handleApplicationStatusChange`. */
    method ChangeStatus(applicationId: int, status: string)
      modifies this
      ensures applications == WithStatus(old(applications), applicationId, status)
      ensures jobs == old(jobs) && contactMessages == old(contactMessages)
      ensures showJobForm == old(showJobForm) && editingJob == old(editingJob)
      ensures error == old(error) && activeTab == old(activeTab) && loadingMessages == old(loadingMessages)
    {
      applications := WithStatus(applications, applicationId, status);
    }
  }
}
