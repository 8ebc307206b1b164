/**
 * The sign-in and sign-up page: the two client-side password checks, the
 * order in which they are made, and the loading, error and success messages
 * each outcome leaves. What the authentication backend answers is passed in:
 * `None` when it reports no error, `Some(message)` with the message of the
 * error it reports.
 */
module Auth {
  import opened Wrappers

  datatype SignUpData = SignUpData(
    email: string,
    password: string,
    confirmPassword: string,
    fullName: string,
    role: string)

  const InitialSignUpData := SignUpData("", "", "", "", "patient")

  /** The arguments of the backend's signUp call. */
  datatype SignUpRequest = SignUpRequest(email: string, password: string, fullName: string, role: string)

  /** The messages shown on the page. */
  datatype FormStatus = FormStatus(isLoading: bool, error: string, success: string)

  const MinPasswordLength := 6
  const PasswordMismatch := "Passwords do not match"
  const PasswordTooShort := "Password must be at least 6 characters"
  const SignUpFailed := "An error occurred during signup"
  const SignUpSucceeded := "Account created successfully! Please check your email to verify your account."
  const SignInFailed := "Invalid email or password"

  /** The values of the role selector. */
  const RoleOptions := ["patient", "doctor", "admin"]

  /** The client-side checks, in the order made: the confirmation first, then the length. */
  function Validate(data: SignUpData): Option<string> {
    if data.password != data.confirmPassword then Some(PasswordMismatch)
    else if |data.password| < MinPasswordLength then Some(PasswordTooShort)
    else None
  }

  /** `error.message || fallback` */
  function ErrorMessage(message: string, fallback: string): (r: string)
    ensures message != "" ==> r == message
    ensures message == "" ==> r == fallback
  {
    if message != "" then message else fallback
  }

  function RequestOf(data: SignUpData): SignUpRequest {
    SignUpRequest(data.email, data.password, data.fullName, data.role)
  }

  /** handleSignUp's final messages. */
  function SignUpStatus(data: SignUpData, reply: Option<string>): FormStatus {
    match Validate(data)
    case Some(message) => FormStatus(false, message, "")
    case None =>
      match reply
      case Some(message) => FormStatus(false, ErrorMessage(message, SignUpFailed), "")
      case None => FormStatus(false, "", SignUpSucceeded)
  }

  /** handleSignIn's final messages: the success message is left as it was. */
  function SignInStatus(st: FormStatus, reply: Option<string>): FormStatus {
    match reply
    case Some(message) => FormStatus(false, ErrorMessage(message, SignInFailed), st.success)
    case None => FormStatus(false, "", st.success)
  }

  /** The checks pass exactly for a confirmed password of at least six
      characters; a mismatch is reported before the length, even for a short
      password. */
  lemma ValidateSpec(data: SignUpData)
    ensures Validate(data).None? <==> data.password == data.confirmPassword && |data.password| >= 6
    ensures Validate(data) == Some(PasswordMismatch) <==> data.password != data.confirmPassword
    ensures Validate(data) == Some(PasswordTooShort) <==>
      data.password == data.confirmPassword && |data.password| < 6
  {
  }

  /** A sign-up never ends loading, shows at most one of error and success,
      and shows success exactly when the checks passed and the backend
      reported no error. */
  lemma SignUpStatusSpec(data: SignUpData, reply: Option<string>)
    ensures !SignUpStatus(data, reply).isLoading
    ensures SignUpStatus(data, reply).error == "" <==> SignUpStatus(data, reply).success != ""
    ensures SignUpStatus(data, reply).success != "" <==> Validate(data).None? && reply.None?
    ensures Validate(data).Some? ==> SignUpStatus(data, reply).error == Validate(data).value
    ensures Validate(data).None? && reply.Some? ==>
      SignUpStatus(data, reply).error == ErrorMessage(reply.value, SignUpFailed)
  {
  }

  /** A failed check makes the outcome independent of anything the backend could answer. */
  lemma FailedCheckIgnoresBackend(data: SignUpData, reply1: Option<string>, reply2: Option<string>)
    requires Validate(data).Some?
    ensures SignUpStatus(data, reply1) == SignUpStatus(data, reply2)
  {
  }

  /** A sign-in never ends loading, shows an error exactly when the backend
      reports one, and leaves the success message alone. */
  lemma SignInStatusSpec(st: FormStatus, reply: Option<string>)
    ensures !SignInStatus(st, reply).isLoading
    ensures SignInStatus(st, reply).success == st.success
    ensures SignInStatus(st, reply).error != "" <==> reply.Some?
    ensures reply.Some? && reply.value == "" ==> SignInStatus(st, reply).error == SignInFailed
  {
  }

  /** The initial role is one the selector offers. */
  lemma InitialRoleOffered()
    ensures InitialSignUpData.role in RoleOptions && InitialSignUpData.role == RoleOptions[0]
  {
  }

  /** The page's state. */
  class AuthView {
    var isLoading: bool
    var error: string
    var success: string
    var signUpData: SignUpData
    var signInEmail: string
    var signInPassword: string

    function Status(): FormStatus
      reads this
    {
      FormStatus(isLoading, error, success)
    }

    constructor ()
      ensures Status() == FormStatus(false, "", "")
      ensures signUpData == InitialSignUpData && signInEmail == "" && signInPassword == ""
    {
      isLoading, error, success := false, "", "";
      signUpData := InitialSignUpData;
      signInEmail, signInPassword := "", "";
    }

    /** handleSignUp. `request` is the call made to the backend, if any;
        `reply` is what the backend answers to it. */
    method HandleSignUp(reply: Option<string>) returns (request: Option<SignUpRequest>)
      modifies this
      ensures Status() == SignUpStatus(old(signUpData), reply)
      ensures request.Some? <==> Validate(old(signUpData)).None?
      ensures request.Some? ==> request.value == RequestOf(old(signUpData))
      ensures signUpData == old(signUpData) && signInEmail == old(signInEmail) && signInPassword == old(signInPassword)
    {
      isLoading := true;
      error := "";
      success := "";
      if signUpData.password != signUpData.confirmPassword {
        error := PasswordMismatch;
        isLoading := false;
        request := None;
        return;
      }
      if |signUpData.password| < MinPasswordLength {
        error := PasswordTooShort;
        isLoading := false;
        request := None;
        return;
      }
      request := Some(SignUpRequest(signUpData.email, signUpData.password, signUpData.fullName, signUpData.role));
      match reply {
        case Some(message) =>
          error := if message != "" then message else SignUpFailed;
        case None =>
          success := SignUpSucceeded;
      }
      isLoading := false;
    }

    /** handleSignIn; `reply` is the backend's answer to the sign-in call. */
    method HandleSignIn(reply: Option<string>)
      modifies this
      ensures Status() == SignInStatus(old(Status()), reply)
      ensures signUpData == old(signUpData) && signInEmail == old(signInEmail) && signInPassword == old(signInPassword)
    {
      isLoading := true;
      error := "";
      if reply.Some? {
        error := if reply.value != "" then reply.value else SignInFailed;
      }
      isLoading := false;
    }
  }
}
