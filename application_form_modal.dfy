/** The application dialog of `src/components/ApplicationFormModal.tsx`: the
    form state, the file inputs, the multipart payload built on submit and the
    handling of the submit outcome. */
module ApplicationFormModal {
  import opened Wrappers
  import opened Strings

  /** A chosen file, known only by its name. */
  datatype File = File(fileName: string)

  datatype TextField = Name | Email | Phone | CoverLetter
  datatype FileField = Resume | PaymentReceipt

  datatype ApplicationFields = ApplicationFields(
    name: string, email: string, phone: string,
    resume: Option<File>, coverLetter: string, paymentReceipt: Option<File>)

  const EmptyFields := ApplicationFields("", "", "", None, "", None)

  /** One `FormData` entry value. */
  datatype Part = TextPart(text: string) | FilePart(file: File)

  function TextValue(f: ApplicationFields, field: TextField): string {
    match field
    case Name => f.name
    case Email => f.email
    case Phone => f.phone
    case CoverLetter => f.coverLetter
  }

  function FileValue(f: ApplicationFields, field: FileField): Option<File> {
    match field
    case Resume => f.resume
    case PaymentReceipt => f.paymentReceipt
  }

  /** The five text entries every application carries, in order, the job id
      first; none of them uses a file key. */
  function FixedParts(jobId: int, f: ApplicationFields): (r: seq<(string, Part)>)
    ensures |r| == 5 && forall i :: 0 <= i < 5 ==> r[i].1.TextPart?
    ensures r[0].0 == "job_id"
    ensures forall i :: 0 <= i < 5 ==> r[i].0 != "resume" && r[i].0 != "payment_file"
  {
    [ ("job_id", TextPart(IntToString(jobId))),
      ("applicant_name", TextPart(f.name)),
      ("applicant_email", TextPart(f.email)),
      ("applicant_phone", TextPart(f.phone)),
      ("cover_letter", TextPart(f.coverLetter)) ]
  }

  /** One file entry per chosen file, the resume first. */
  function FileParts(f: ApplicationFields): (r: seq<(string, Part)>)
    ensures |r| == (if f.resume.Some? then 1 else 0) + (if f.paymentReceipt.Some? then 1 else 0)
    ensures forall i :: 0 <= i < |r| ==> r[i].1.FilePart?
    ensures f.resume.Some? ==> r[0] == ("resume", FilePart(f.resume.value))
    ensures f.paymentReceipt.Some? ==> r[|r| - 1] == ("payment_file", FilePart(f.paymentReceipt.value))
  {
    (if f.resume.Some? then [("resume", FilePart(f.resume.value))] else [])
    + (if f.paymentReceipt.Some? then [("payment_file", FilePart(f.paymentReceipt.value))] else [])
  }

  /** The `FormData` entries `handleFormSubmit` appends: five text entries,
      then the files. */
  function Payload(jobId: int, f: ApplicationFields): (r: seq<(string, Part)>)
    ensures |r| == 5 + (if f.resume.Some? then 1 else 0) + (if f.paymentReceipt.Some? then 1 else 0)
    ensures forall i :: 0 <= i < |r| ==> (r[i].1.TextPart? <==> i < 5)
  {
    FixedParts(jobId, f) + FileParts(f)
  }

  /** How many entries carry the key. */
  function KeyCount(parts: seq<(string, Part)>, key: string): (n: nat)
    ensures n <= |parts|
  {
    if parts == [] then 0 else (if parts[0].0 == key then 1 else 0) + KeyCount(parts[1..], key)
  }

  lemma {:induction false} KeyCountAppend(a: seq<(string, Part)>, b: seq<(string, Part)>, key: string)
    ensures KeyCount(a + b, key) == KeyCount(a, key) + KeyCount(b, key)
  {
    if a != [] {
      assert (a + b)[1..] == a[1..] + b;
      KeyCountAppend(a[1..], b, key);
    } else {
      assert a + b == b;
    }
  }

  lemma {:induction false} KeyCountAbsent(parts: seq<(string, Part)>, key: string)
    requires forall i :: 0 <= i < |parts| ==> parts[i].0 != key
    ensures KeyCount(parts, key) == 0
  {
    if parts != [] {
      KeyCountAbsent(parts[1..], key);
    }
  }

  /** The payload starts with the five text entries (the id in decimal), then
      holds `resume` exactly once when a resume is chosen and `payment_file`
      exactly once when a receipt is chosen, and nothing else. */
  lemma PayloadShape(jobId: int, f: ApplicationFields)
    ensures |Payload(jobId, f)| == 5 + (if f.resume.Some? then 1 else 0) + (if f.paymentReceipt.Some? then 1 else 0)
    ensures Payload(jobId, f)[..5] == FixedParts(jobId, f)
    ensures Payload(jobId, f)[0] == ("job_id", TextPart(IntToString(jobId)))
    ensures KeyCount(Payload(jobId, f), "resume") == if f.resume.Some? then 1 else 0
    ensures KeyCount(Payload(jobId, f), "payment_file") == if f.paymentReceipt.Some? then 1 else 0
    ensures f.resume.Some? ==> Payload(jobId, f)[5] == ("resume", FilePart(f.resume.value))
  {
    var fixed := FixedParts(jobId, f);
    var r := if f.resume.Some? then [("resume", FilePart(f.resume.value))] else [];
    var p := if f.paymentReceipt.Some? then [("payment_file", FilePart(f.paymentReceipt.value))] else [];
    assert forall i :: 0 <= i < |fixed| ==> fixed[i].0 != "resume" && fixed[i].0 != "payment_file";
    KeyCountAbsent(fixed, "resume");
    KeyCountAbsent(fixed, "payment_file");
    KeyCountAppend(fixed, FileParts(f), "resume");
    KeyCountAppend(fixed, FileParts(f), "payment_file");
    KeyCountAppend(r, p, "resume");
    KeyCountAppend(r, p, "payment_file");
    assert Payload(jobId, f)[..5] == fixed;
  }

  /** The id entry reads back as the job's id. */
  lemma PayloadIdRoundTrip(jobId: int, f: ApplicationFields)
    ensures Payload(jobId, f)[0].1.TextPart? && ParseInt(Payload(jobId, f)[0].1.text) == Some(jobId)
  {
    ParseIntToString(jobId);
  }

  class ApplicationForm {
    var formData: ApplicationFields
    var loading: bool
    var error: Option<string>

    constructor()
      ensures formData == EmptyFields && !loading && error == None
    {
      formData := EmptyFields;
      loading := false;
      error := None;
    }

    /** `handleInputChange`: only the named text field changes. */
    method HandleInputChange(field: TextField, value: string)
      modifies this
      ensures TextValue(formData, field) == value
      ensures forall other :: other != field ==> TextValue(formData, other) == TextValue(old(formData), other)
      ensures formData.resume == old(formData.resume) && formData.paymentReceipt == old(formData.paymentReceipt)
      ensures loading == old(loading) && error == old(error)
    {
      match field {
        case Name => formData := formData.(name := value);
        case Email => formData := formData.(email := value);
        case Phone => formData := formData.(phone := value);
        case CoverLetter => formData := formData.(coverLetter := value);
      }
    }

    /** `handleFileChange`: the named file field takes the first selected file,
      or none when the list is missing or empty. */
    method HandleFileChange(field: FileField, files: Option<seq<File>>)
      modifies this
      ensures FileValue(formData, field) == if files.Some? && |files.value| > 0 then Some(files.value[0]) else None
      ensures forall other :: other != field ==> FileValue(formData, other) == FileValue(old(formData), other)
      ensures forall t :: TextValue(formData, t) == TextValue(old(formData), t)
      ensures loading == old(loading) && error == old(error)
    {
      var file := if files.Some? && |files.value| > 0 then Some(files.value[0]) else None;
      match field {
        case Resume => formData := formData.(resume := file);
        case PaymentReceipt => formData := formData.(paymentReceipt := file);
      }
    }

    /** The entry-by-entry `FormData` construction; changes nothing. */
    method BuildPayload(jobId: int) returns (payload: seq<(string, Part)>)
      ensures payload == Payload(jobId, formData)
    {
      payload := [];
      payload := payload + [("job_id", TextPart(IntToString(jobId)))];
      payload := payload + [("applicant_name", TextPart(formData.name))];
      payload := payload + [("applicant_email", TextPart(formData.email))];
      payload := payload + [("applicant_phone", TextPart(formData.phone))];
      payload := payload + [("cover_letter", TextPart(formData.coverLetter))];
      assert payload == FixedParts(jobId, formData);
      ghost var fixed := payload;
      if formData.resume.Some? {
        payload := payload + [("resume", FilePart(formData.resume.value))];
      }
      if formData.paymentReceipt.Some? {
        payload := payload + [("payment_file", FilePart(formData.paymentReceipt.value))];
      }
      assert payload == fixed + FileParts(formData);
    }

    /** `handleFormSubmit` up to the await. */
    method BeginSubmit(jobId: int) returns (payload: seq<(string, Part)>)
      modifies this
      ensures loading && error == None && formData == old(formData)
      ensures payload == Payload(jobId, formData)
    {
      loading := true;
      error := None;
      payload := BuildPayload(jobId);
    }

    /** `handleFormSubmit` after `submitApplication` settles; returns whether
      `onClose` is called. */
    method FinishSubmit<T>(outcome: Call<T>) returns (closes: bool)
      modifies this
      ensures !loading
      ensures closes <==> outcome.Returned? && outcome.response.success
      ensures closes ==> formData == EmptyFields && error == old(error)
      ensures outcome.Returned? && !outcome.response.success ==>
                formData == old(formData)
                && error == Some(if outcome.response.message != "" then outcome.response.message else "Failed to submit application")
      ensures outcome.Threw? ==> formData == old(formData) && error == Some(ErrorText(outcome.thrown, "An error occurred"))
    {
      closes := false;
      match outcome {
        case Returned(response) =>
          if response.success {
            closes := true;
            formData := EmptyFields;
          } else {
            error := Some(OrElse(response.message, "Failed to submit application"));
          }
        case Threw(t) =>
          error := Some(ErrorText(t, "An error occurred"));
      }
      loading := false;
    }
  }
}
