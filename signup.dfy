/** The sign-up form's submit handler: the password checks in their order,
    the call to the auth service, and the error, loading and success flags
    around it. */
module Signup {
  import opened Options

  const MinPasswordLength: nat := 6
  const MismatchMessage: string := "Passwords do not match"
  const TooShortMessage: string := "Password must be at least 6 characters"

  /** The strength hint: long enough. */
  predicate PasswordStrength(password: string) {
    |password| >= MinPasswordLength
  }

  /** The checks run before the auth call, in order: the two passwords must
      agree, then the password must be long enough. `None` means both pass. */
  function Validate(password: string, confirmPassword: string): (problem: Option<string>)
    ensures problem == None <==> password == confirmPassword && PasswordStrength(password)
    ensures password != confirmPassword ==> problem == Some(MismatchMessage)
    ensures password == confirmPassword && !PasswordStrength(password) ==> problem == Some(TooShortMessage)
  {
    if password != confirmPassword then Some(MismatchMessage)
    else if |password| < MinPasswordLength then Some(TooShortMessage)
    else None
  }

  /** A mismatch is reported even when the password is also too short. */
  lemma MismatchFirst(password: string, confirmPassword: string)
    requires password != confirmPassword && |password| < MinPasswordLength
    ensures Validate(password, confirmPassword) == Some(MismatchMessage)
  {
  }

  /** A password passes on its own (typed twice) exactly when the strength
      hint shows it as strong. */
  lemma StrengthAgreesWithValidation(password: string)
    ensures Validate(password, password) == None <==> PasswordStrength(password)
  {
  }

  /** The arguments of the auth service's sign-up call. */
  datatype SignUpRequest = SignUpRequest(email: string, password: string, fullName: string)

  /** How the sign-up call settled: no error, an error with its message, or
      a thrown exception. */
  datatype SignUpReply = NoError | Failed(message: string) | Threw

  class Form {
    var fullName: string
    var email: string
    var password: string
    var confirmPassword: string
    var error: string
    var loading: bool
    var signupSuccess: bool

    constructor()
      ensures fullName == "" && email == "" && password == "" && confirmPassword == ""
      ensures error == "" && !loading && !signupSuccess
    {
      fullName, email, password, confirmPassword := "", "", "", "";
      error, loading, signupSuccess := "", false, false;
    }

    /** The submit handler up to the auth call. The previous error is cleared
        first; a failed check sets its message and stops; otherwise loading
        starts and the request is sent. */
    method Submit() returns (request: Option<SignUpRequest>)
      modifies this
      ensures fullName == old(fullName) && email == old(email)
      ensures password == old(password) && confirmPassword == old(confirmPassword)
      ensures signupSuccess == old(signupSuccess)
      ensures request.Some? <==> password == confirmPassword && |password| >= MinPasswordLength
      ensures request.Some? ==> request.value == SignUpRequest(email, password, fullName) && error == "" && loading
      ensures request.None? ==> Some(error) == Validate(password, confirmPassword) && loading == old(loading)
    {
      error := "";
      if password != confirmPassword {
        error := MismatchMessage;
        return None;
      }
      if |password| < MinPasswordLength {
        error := TooShortMessage;
        return None;
      }
      loading := true;
      request := Some(SignUpRequest(email, password, fullName));
    }

    /** The rest of the handler once the auth call settles: its error message
        is shown, or success is recorded; a thrown exception changes neither.
        Loading ends in every case. */
    method SignUpSettled(reply: SignUpReply)
      modifies this
      ensures fullName == old(fullName) && email == old(email)
      ensures password == old(password) && confirmPassword == old(confirmPassword)
      ensures !loading
      ensures error == if reply.Failed? then reply.message else old(error)
      ensures signupSuccess == (reply.NoError? || old(signupSuccess))
    {
      match reply {
        case Failed(message) => error := message;
        case NoError => signupSuccess := true;
        case Threw =>
      }
      loading := false;
    }
  }
}
