/** The create/edit job form of `src/components/JobForm.tsx`: the form state
    and its defaults, the prefill from the job being edited, the field-by-field
    input handler and the requirement parsing done on submit. */
module JobForm {
  import opened Wrappers
  import opened Strings
  import Seqs
  import Api

  /** The form's `formData` (`type` is `jobType`). */
  datatype FormData = FormData(
    title: string,
    company: string,
    location: string,
    jobType: string,
    salary: string,
    posted: string,
    description: string,
    requirements: seq<string>,
    logo: string,
    category: string,
    foodAccommodation: string,
    gender: string)

  const Defaults := FormData("", "", "", "Full-time", "", "", "", [], "", "General", "", "")
  const NoRequirements := "No specific requirements"
  const SubmittedLogo := "https://via.placeholder.com/60"
  const RequirementGlue := ", "

  /** The inputs wired to `handleInputChange`, by their `name`. */
  datatype FormField = Title | Company | Location | JobType | Salary | Description | FoodAccommodation | Gender

  function FieldValue(f: FormData, field: FormField): string {
    match field
    case Title => f.title
    case Company => f.company
    case Location => f.location
    case JobType => f.jobType
    case Salary => f.salary
    case Description => f.description
    case FoodAccommodation => f.foodAccommodation
    case Gender => f.gender
  }

  /** The form filled from the job being edited: each field takes the job's
      value, and a missing optional value takes the field's default. */
  function Prefill(job: Api.Job): (f: FormData)
    ensures f.title == job.title && f.company == job.company && f.location == job.location
    ensures f.jobType == job.jobType && f.posted == job.posted && f.description == job.description
    ensures f.requirements == job.requirements && f.logo == job.logo && f.category == job.category
    ensures f.salary == (if job.salary.Some? then job.salary.value else Defaults.salary)
    ensures f.foodAccommodation == (if job.foodAccommodation.Some? then job.foodAccommodation.value else Defaults.foodAccommodation)
    ensures f.gender == (if job.gender.Some? then job.gender.value else Defaults.gender)
  {
    FormData(
      job.title, job.company, job.location, job.jobType, job.salary.GetOr(""), job.posted,
      job.description, job.requirements, job.logo, job.category,
      job.foodAccommodation.GetOr(""), job.gender.GetOr(""))
  }

  // ---------------------------------------------------------------------------
  // Requirements


  /** Requirements fit for the round trip: each non-empty, without a comma and
      without surrounding whitespace. */
  predicate Plain(xs: seq<string>) {
    forall i :: 0 <= i < |xs| ==> xs[i] != "" && ',' !in xs[i] && NoOuterSpace(xs[i])
  }

  /** `input.split(',').map(req => req.trim()).filter(req => req.length > 0)`. */
  function RequirementPieces(input: string): (r: seq<string>)
    ensures Plain(r)
  {
    var trimmed := Api.TrimAll(Split(input, ','));
    var r := Seqs.Filter(trimmed, NonEmpty);
    assert forall i :: 0 <= i < |r| ==> r[i] in trimmed;
    Api.TrimmedPiecesCommaFree(input);
    r
  }

  /** The pieces keep the order of the split text. */
  lemma RequirementPiecesInOrder(input: string)
    ensures Seqs.IsSubsequence(RequirementPieces(input), Api.TrimAll(Split(input, ',')))
  {
    Seqs.FilterIsSubsequence(Api.TrimAll(Split(input, ',')), NonEmpty);
  }

  /** The requirement list submitted: the pieces, or the single default when
      there are none. */
  function ParseRequirements(input: string): (r: seq<string>)
    ensures r != []
    ensures RequirementPieces(input) != [] ==> r == RequirementPieces(input)
    ensures RequirementPieces(input) == [] ==> r == [NoRequirements]
  {
    var pieces := RequirementPieces(input);
    if |pieces| > 0 then pieces else [NoRequirements]
  }

  /** Each text behind the blank the glue adds. */
  function Blanked(ys: seq<string>): (r: seq<string>)
    ensures |r| == |ys|
    ensures forall i :: 0 <= i < |ys| ==> r[i] == " " + ys[i]
  {
    if ys == [] then [] else [" " + ys[0]] + Blanked(ys[1..])
  }

  /** Splitting the prefill text on commas gives the first requirement, then
      each later one behind the blank the glue adds. */
  lemma {:induction false} SplitJoined(xs: seq<string>)
    requires xs != []
    requires forall i :: 0 <= i < |xs| ==> ',' !in xs[i]
    ensures Split(Join(xs, RequirementGlue), ',') == [xs[0]] + Blanked(xs[1..])
  {
    if |xs| == 1 {
      SplitWithoutSeparator(xs[0], ',');
    } else {
      var rest := xs[1..];
      var j := Join(rest, RequirementGlue);
      assert forall i :: 0 <= i < |rest| ==> rest[i] == xs[i + 1];
      calc {
        Split(Join(xs, RequirementGlue), ',');
        { assert Join(xs, RequirementGlue) == xs[0] + [','] + ([' '] + j); }
        Split(xs[0] + [','] + ([' '] + j), ',');
        { SplitAtSeparator(xs[0], ',', [' '] + j); }
        [xs[0]] + Split([' '] + j, ',');
        { SplitConsChar(' ', j, ','); }
        [xs[0]] + ([[' '] + Split(j, ',')[0]] + Split(j, ',')[1..]);
        { SplitJoined(rest); assert Split(j, ',')[1..] == Blanked(rest[1..]); }
        [xs[0]] + ([" " + rest[0]] + Blanked(rest[1..]));
      }
    }
  }

  /** Trimming the comma-separated pieces of the prefill text gives the
      requirements back. */
  lemma {:induction false} TrimmedJoinedPieces(xs: seq<string>)
    requires xs != [] && Plain(xs)
    ensures Api.TrimAll(Split(Join(xs, RequirementGlue), ',')) == xs
  {
    var pieces := Split(Join(xs, RequirementGlue), ',');
    SplitJoinedHead(xs);
    forall i | 0 <= i < |xs| ensures Trim(pieces[i]) == xs[i] {
      TrimmedJoinedAt(xs, i);
    }
    TrimAllPointwise(pieces, xs);
  }

  /** Pieces that trim one by one to `xs` trim together to `xs`. */
  lemma TrimAllPointwise(pieces: seq<string>, xs: seq<string>)
    requires |pieces| == |xs|
    requires forall i :: 0 <= i < |xs| ==> Trim(pieces[i]) == xs[i]
    ensures Api.TrimAll(pieces) == xs
  {
  }

  /** One requirement of the prefill text, trimmed. */
  lemma TrimmedJoinedAt(xs: seq<string>, i: nat)
    requires Plain(xs)
    requires i < |xs|
    ensures i < |Split(Join(xs, RequirementGlue), ',')|
    ensures Trim(Split(Join(xs, RequirementGlue), ',')[i]) == xs[i]
  {
    if i == 0 {
      SplitJoinedHead(xs);
    } else {
      SplitJoinedAt(xs, i);
      TrimSkipsLeadingSpace(" ", xs[i]);
    }
  }

  /** The prefill text has one piece per requirement, the first unchanged. */
  lemma SplitJoinedHead(xs: seq<string>)
    requires xs != []
    requires forall i :: 0 <= i < |xs| ==> ',' !in xs[i]
    ensures |Split(Join(xs, RequirementGlue), ',')| == |xs|
    ensures Split(Join(xs, RequirementGlue), ',')[0] == xs[0]
  {
    SplitJoined(xs);
  }

  /** Every later piece is the requirement behind one blank. */
  lemma SplitJoinedAt(xs: seq<string>, i: nat)
    requires forall k :: 0 <= k < |xs| ==> ',' !in xs[k]
    requires 0 < i < |xs|
    ensures i < |Split(Join(xs, RequirementGlue), ',')|
    ensures Split(Join(xs, RequirementGlue), ',')[i] == " " + xs[i]
  {
    SplitJoined(xs);
  }

  /** Editing a job and submitting the requirements unchanged gives back the
      job's requirements, when they are plain and not empty. */
  lemma {:induction false} RequirementsRoundTrip(xs: seq<string>)
    requires xs != [] && Plain(xs)
    ensures ParseRequirements(Join(xs, RequirementGlue)) == xs
  {
    TrimmedJoinedPieces(xs);
    Seqs.FilterKeepsAll(xs, NonEmpty);
    assert RequirementPieces(Join(xs, RequirementGlue)) == xs;
  }

  /** With nothing but blanks and commas the default is submitted. */
  lemma EmptyRequirementsDefault()
    ensures ParseRequirements("") == [NoRequirements]
    ensures ParseRequirements(Join([], RequirementGlue)) == [NoRequirements]
  {
    assert Split("", ',') == [""];
    assert Api.TrimAll([""]) == [""];
  }

  /** The data handed to `onSubmit`: the form with the parsed requirements and
      the placeholder logo in place of whatever the form holds. */
  function Submitted(form: FormData, requirementInput: string): (d: FormData)
    ensures d.requirements == ParseRequirements(requirementInput) && d.logo == SubmittedLogo
    ensures d.(requirements := form.requirements, logo := form.logo) == form
  {
    form.(requirements := ParseRequirements(requirementInput), logo := SubmittedLogo)
  }

  // ---------------------------------------------------------------------------
  // The component

  class JobFormState {
    var formData: FormData
    var requirementInput: string

    /** First render. */
    constructor()
      ensures formData == Defaults && requirementInput == ""
    {
      formData := Defaults;
      requirementInput := "";
    }

    /** The effect run whenever the `job` prop changes: prefill from the job,
      or only stamp `posted` for a new job. */
    method ApplyJob(job: Option<Api.Job>)
      modifies this
      ensures job.Some? ==> formData == Prefill(job.value) && requirementInput == Join(job.value.requirements, RequirementGlue)
      ensures job.None? ==> formData == old(formData).(posted := "Just now") && requirementInput == old(requirementInput)
    {
      if job.Some? {
        formData := Prefill(job.value);
        requirementInput := Join(job.value.requirements, RequirementGlue);
      } else {
        formData := formData.(posted := "Just now");
      }
    }

    /** `handleInputChange`: only the named field changes. */
    method HandleInputChange(field: FormField, value: string)
      modifies this
      ensures FieldValue(formData, field) == value
      ensures forall other :: other != field ==> FieldValue(formData, other) == FieldValue(old(formData), other)
      ensures formData.posted == old(formData.posted) && formData.requirements == old(formData.requirements)
      ensures formData.logo == old(formData.logo) && formData.category == old(formData.category)
      ensures requirementInput == old(requirementInput)
    {
      match field {
        case Title => formData := formData.(title := value);
        case Company => formData := formData.(company := value);
        case Location => formData := formData.(location := value);
        case JobType => formData := formData.(jobType := value);
        case Salary => formData := formData.(salary := value);
        case Description => formData := formData.(description := value);
        case FoodAccommodation => formData := formData.(foodAccommodation := value);
        case Gender => formData := formData.(gender := value);
      }
    }

    /** The requirements text box. */
    method SetRequirementInput(value: string)
      modifies this
      ensures requirementInput == value && formData == old(formData)
    {
      requirementInput := value;
    }

    /** `handleSubmit`: what `onSubmit` receives; the form itself is kept. */
    method HandleSubmit() returns (data: FormData)
      ensures data == Submitted(formData, requirementInput)
    {
      var pieces := RequirementPieces(requirementInput);
      data := formData.(requirements := if |pieces| > 0 then pieces else [NoRequirements], logo := SubmittedLogo);
    }
  }
}
