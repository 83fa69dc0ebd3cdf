/** The contact form of `src/components/Contact.tsx`: the five fields, the
    submit that copies them into the message sent to the backend, and how the
    outcome sets `success` or the error line. */
module Contact {
  import opened Wrappers

  datatype ContactField = Name | Email | Phone | Subject | Message

  /** The form's `formData`, and also the `ContactMessage` sent to the backend. */
  datatype ContactFields = ContactFields(name: string, email: string, phone: string, subject: string, message: string)

  const EmptyFields := ContactFields("", "", "", "", "")

  function FieldValue(f: ContactFields, field: ContactField): string {
    match field
    case Name => f.name
    case Email => f.email
    case Phone => f.phone
    case Subject => f.subject
    case Message => f.message
  }

  /** The error line after a response with `success: false`: the backend's
      `error`, else its `message`, else the fixed text; never empty. */
  function FailureMessage<T>(env: Envelope<T>): (m: string)
    ensures m != ""
    ensures env.error != "" ==> m == env.error
    ensures env.error == "" && env.message != "" ==> m == env.message
    ensures env.error == "" && env.message == "" ==> m == "Failed to send message"
  {
    OrElse(env.error, OrElse(env.message, "Failed to send message"))
  }

  class ContactForm {
    var formData: ContactFields
    var loading: bool
    var success: bool
    var error: Option<string>

    constructor()
      ensures formData == EmptyFields && !loading && !success && error == None
    {
      formData := EmptyFields;
      loading := false;
      success := false;
      error := None;
    }

    /** `handleInputChange`: only the named field changes. */
    method HandleInputChange(field: ContactField, value: string)
      modifies this
      ensures FieldValue(formData, field) == value
      ensures forall other :: other != field ==> FieldValue(formData, other) == FieldValue(old(formData), other)
      ensures loading == old(loading) && success == old(success) && error == old(error)
    {
      match field {
        case Name => formData := formData.(name := value);
        case Email => formData := formData.(email := value);
        case Phone => formData := formData.(phone := value);
        case Subject => formData := formData.(subject := value);
        case Message => formData := formData.(message := value);
      }
    }

    /** `handleSubmit` up to the await: returns the message sent, a field-by-field
      copy of the form. */
    method BeginSubmit() returns (payload: ContactFields)
      modifies this
      ensures loading && error == None
      ensures forall field :: FieldValue(payload, field) == FieldValue(formData, field)
      ensures formData == old(formData) && success == old(success)
    {
      loading := true;
      error := None;
      payload := ContactFields(formData.name, formData.email, formData.phone, formData.subject, formData.message);
    }

    /** `handleSubmit` after `submitContact` settles. */
    method FinishSubmit<T>(outcome: Call<T>)
      modifies this
      ensures !loading
      ensures outcome.Returned? && outcome.response.success ==>
                success && formData == EmptyFields && error == old(error)
      ensures outcome.Returned? && !outcome.response.success ==>
                error == Some(FailureMessage(outcome.response)) && formData == old(formData) && success == old(success)
      ensures outcome.Threw? ==>
                error == Some(ErrorText(outcome.thrown, "An error occurred")) && formData == old(formData) && success == old(success)
    {
      match outcome {
        case Returned(response) =>
          if response.success {
            success := true;
            formData := EmptyFields;
          } else {
            error := Some(OrElse(response.error, OrElse(response.message, "Failed to send message")));
          }
        case Threw(t) =>
          error := Some(ErrorText(t, "An error occurred"));
      }
      loading := false;
    }

    /** The callback of the five-second timer started on success. */
    method ExpireSuccess()
      modifies this
      ensures !success
      ensures formData == old(formData) && loading == old(loading) && error == old(error)
    {
      success := false;
    }
  }
}
