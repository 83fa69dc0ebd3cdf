/** The sign-in form of `src/components/AdminLogin.tsx`: the two credentials,
    the error line and the loading flag, and how the result of the session's
    `login` becomes a navigation or a message. */
module AdminLogin {
  import opened Wrappers

  /** The `name` of the two inputs. */
  datatype Credential = Username | Password

  /** How the awaited `login(...)` settled. The session's `login` catches
      everything and resolves to a boolean, so `Rejected` only arises from a
      different provider. */
  datatype LoginOutcome = Resolved(success: bool) | Rejected

  const InvalidMessage := "Invalid username or password"
  const FailedMessage := "Login failed. Please try again."

  class LoginForm {
    var username: string
    var password: string
    var error: string
    var loading: bool

    constructor()
      ensures username == "" && password == "" && error == "" && !loading
    {
      username := "";
      password := "";
      error := "";
      loading := false;
    }

    /** `handleInputChange`: the named credential takes the value and the
      error is cleared. */
    method HandleInputChange(name: Credential, value: string)
      modifies this
      ensures name == Username ==> username == value && password == old(password)
      ensures name == Password ==> password == value && username == old(username)
      ensures error == "" && loading == old(loading)
    {
      match name {
        case Username => username := value;
        case Password => password := value;
      }
      error := "";
    }

    /** `handleSubmit` up to the await: loading on, error cleared; returns the
      credentials passed to `login`. */
    method BeginSubmit() returns (user: string, pass: string)
      modifies this
      ensures loading && error == ""
      ensures user == username && pass == password
      ensures username == old(username) && password == old(password)
    {
      loading := true;
      error := "";
      user, pass := username, password;
    }

    /** `handleSubmit` after `login` settles: returns the route pushed, if any. */
    method FinishSubmit(outcome: LoginOutcome) returns (navigate: Option<string>)
      modifies this
      ensures !loading
      ensures outcome == Resolved(true) ==> navigate == Some("/admin") && error == old(error)
      ensures outcome == Resolved(false) ==> navigate == None && error == InvalidMessage
      ensures outcome == Rejected ==> navigate == None && error == FailedMessage
      ensures old(error) == "" ==> error == SubmitMessage(outcome)
      ensures username == old(username) && password == old(password)
    {
      navigate := None;
      match outcome {
        case Resolved(success) =>
          if success {
            navigate := Some("/admin");
          } else {
            error := InvalidMessage;
          }
        case Rejected =>
          error := FailedMessage;
      }
      loading := false;
    }
  }

  /** The message a finished attempt leaves, from a cleared error line:
      nothing on success, one of the two fixed texts otherwise. */
  function SubmitMessage(outcome: LoginOutcome): (m: string)
    ensures m == "" <==> outcome == Resolved(true)
    ensures outcome == Resolved(false) ==> m == InvalidMessage
    ensures outcome == Rejected ==> m == FailedMessage
  {
    match outcome
    case Resolved(true) => ""
    case Resolved(false) => InvalidMessage
    case Rejected => FailedMessage
  }
}
