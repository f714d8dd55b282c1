/** The registration form: sequential validation, then one backend call. */
module Register {
  import opened Wrappers
  import opened Validators

  const SuccessMessage: string := "Registration successful! Redirecting to login..."
  const ConflictMessage: string := "Username or email already exists. Please choose another one."
  const GenericFailureMessage: string := "Registration failed. Try again."

  /** The body handed to the authentication service's `register`. */
  datatype RegisterRequest = RegisterRequest(username: string, password: string, email: string)

  /**
   * The check registration stops at: username, then password, then email;
   * None when all three pass.
   */
  function FirstFailure(username: string, password: string, email: string): (failed: Option<Field>)
    ensures failed == None <==> ValidUsername(username) && ValidRegisterPassword(password) && ValidEmail(email)
    ensures failed == Some(Username) <==> !ValidUsername(username)
    ensures failed == Some(Password) <==> ValidUsername(username) && !ValidRegisterPassword(password)
    ensures failed == Some(Email) <==> ValidUsername(username) && ValidRegisterPassword(password) && !ValidEmail(email)
  {
    if !ValidUsername(username) then Some(Username)
    else if !ValidRegisterPassword(password) then Some(Password)
    else if !ValidEmail(email) then Some(Email)
    else None
  }

  /** The message for a failed registration call: 409 means the name or email is taken; anything else is generic. */
  function ErrorMessageFor(status: int): (msg: string)
    ensures msg == ConflictMessage <==> status == 409
    ensures msg == GenericFailureMessage <==> status != 409
  {
    if status == 409 then ConflictMessage else GenericFailureMessage
  }

  class RegisterComponent {
    var username: string
    var password: string
    var email: string
    var errorMessage: string
    var successMessage: string
    /** Requests handed to the authentication service, oldest first. */
    var sent: seq<RegisterRequest>
    /** Router targets, oldest first (the two-second delay is not modelled). */
    var navigation: seq<string>

    constructor ()
      ensures username == "" && password == "" && email == ""
      ensures errorMessage == "" && successMessage == ""
      ensures sent == [] && navigation == []
    {
      username, password, email := "", "", "";
      errorMessage, successMessage := "", "";
      sent, navigation := [], [];
    }

    /**
     * `register()`: clears both messages, stops at the first failing check
     * with its message, and otherwise sends the request; `response` is the
     * backend's answer.
     */
    method Register(response: Response<()>)
      modifies this
      ensures username == old(username) && password == old(password) && email == old(email)
      ensures FirstFailure(username, password, email).Some? ==>
        && errorMessage == FailureMessage(FirstFailure(username, password, email).value)
        && successMessage == ""
        && sent == old(sent) && navigation == old(navigation)
      ensures FirstFailure(username, password, email).None? ==>
        && sent == old(sent) + [RegisterRequest(username, password, email)]
        && (response.Ok? ==> errorMessage == "" && successMessage == SuccessMessage && navigation == old(navigation) + ["/login"])
        && (response.Failed? ==> errorMessage == ErrorMessageFor(response.status) && successMessage == "" && navigation == old(navigation))
    {
      errorMessage := "";
      successMessage := "";

      if !ValidUsername(username) {
        errorMessage := FailureMessage(Username);
        return;
      }
      if !ValidRegisterPassword(password) {
        errorMessage := FailureMessage(Password);
        return;
      }
      if !ValidEmail(email) {
        errorMessage := FailureMessage(Email);
        return;
      }

      sent := sent + [RegisterRequest(username, password, email)];
      match response
      case Ok(_) =>
        successMessage := SuccessMessage;
        navigation := navigation + ["/login"];
      case Failed(status) =>
        if status == 409 {
          errorMessage := ConflictMessage;
        } else {
          errorMessage := GenericFailureMessage;
        }
    }
  }
}
