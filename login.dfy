/** The sign-in screen (app/login.tsx): the checks `handleSubmit` makes before it calls the
    authentication service, and the sign-up/sign-in switch. The service's answer is a
    parameter: the error message it returns for a call, if any. */
module Login {
  import opened Js

  datatype AuthCall = SignUp(email: string, password: string) | SignIn(email: string, password: string)

  /** What a submit did: the service call it made and the error alert it showed. */
  datatype Submission = Submission(call: Option<AuthCall>, alert: Option<string>)

  const MissingFields := "Please fill in all fields"
  const PasswordMismatch := "Passwords do not match"

  /** `handleSubmit`: empty fields first, then (signing up) the confirmation, then the call;
      an error from the call is shown as is. */
  function SubmitOutcome(isSignUp: bool, email: string, password: string, confirmPassword: string,
                         auth: AuthCall -> Option<string>): Submission
  {
    if email == "" || password == "" then Submission(None, Some(MissingFields))
    else if isSignUp && password != confirmPassword then Submission(None, Some(PasswordMismatch))
    else
      var call := if isSignUp then SignUp(email, password) else SignIn(email, password);
      var error := auth(call);
      Submission(Some(call), if Truthy(error) then error else None)
  }

  /** An empty field stops the submit before anything else, whatever the mode. */
  lemma EmptyFieldsComeFirst(isSignUp: bool, email: string, password: string, confirmPassword: string,
                             auth: AuthCall -> Option<string>)
    requires email == "" || password == ""
    ensures SubmitOutcome(isSignUp, email, password, confirmPassword, auth) == Submission(None, Some(MissingFields))
  {
  }

  /** Signing up with a confirmation that differs makes no call. */
  lemma MismatchIsRejected(email: string, password: string, confirmPassword: string,
                           auth: AuthCall -> Option<string>)
    requires email != "" && password != "" && password != confirmPassword
    ensures SubmitOutcome(true, email, password, confirmPassword, auth) == Submission(None, Some(PasswordMismatch))
  {
  }

  /** A call is made exactly when the fields are filled and, signing up, confirmed; it is
      the call of the current mode, with the typed credentials. */
  lemma CallOnlyWhenValid(isSignUp: bool, email: string, password: string, confirmPassword: string,
                          auth: AuthCall -> Option<string>)
    ensures var s := SubmitOutcome(isSignUp, email, password, confirmPassword, auth);
      s.call.Some? <==> email != "" && password != "" && (isSignUp ==> password == confirmPassword)
    ensures var s := SubmitOutcome(isSignUp, email, password, confirmPassword, auth);
      s.call.Some? ==> s.call.value == (if isSignUp then SignUp(email, password) else SignIn(email, password))
  {
  }

  /** Signing in never looks at the confirmation field. */
  lemma SignInIgnoresConfirmation(email: string, password: string, c1: string, c2: string,
                                  auth: AuthCall -> Option<string>)
    ensures SubmitOutcome(false, email, password, c1, auth) == SubmitOutcome(false, email, password, c2, auth)
  {
  }

  /** After a call, an error is shown exactly when the service returned one. */
  lemma AuthErrorIsShown(isSignUp: bool, email: string, password: string, confirmPassword: string,
                         auth: AuthCall -> Option<string>)
    requires SubmitOutcome(isSignUp, email, password, confirmPassword, auth).call.Some?
    ensures var s := SubmitOutcome(isSignUp, email, password, confirmPassword, auth);
      (s.alert.Some? <==> Truthy(auth(s.call.value))) && (s.alert.Some? ==> s.alert == auth(s.call.value))
  {
  }

  class LoginScreen {
    var isSignUp: bool
    var email: string
    var password: string
    var confirmPassword: string

    constructor ()
      ensures !isSignUp && email == "" && password == "" && confirmPassword == ""
    {
      isSignUp, email, password, confirmPassword := false, "", "", "";
    }

    /** The three text fields. */
    method SetFields(newEmail: string, newPassword: string, newConfirm: string)
      modifies this`email, this`password, this`confirmPassword
      ensures email == newEmail && password == newPassword && confirmPassword == newConfirm
    {
      email, password, confirmPassword := newEmail, newPassword, newConfirm;
    }

    /** `handleSubmit`; the form's state is left as it was. */
    method HandleSubmit(auth: AuthCall -> Option<string>) returns (s: Submission)
      ensures s == SubmitOutcome(isSignUp, email, password, confirmPassword, auth)
    {
      if email == "" || password == "" {
        return Submission(None, Some(MissingFields));
      }
      if isSignUp {
        if password != confirmPassword {
          return Submission(None, Some(PasswordMismatch));
        }
        var error := auth(SignUp(email, password));
        s := Submission(Some(SignUp(email, password)), None);
        if Truthy(error) {
          s := s.(alert := error);
        }
      } else {
        var error := auth(SignIn(email, password));
        s := Submission(Some(SignIn(email, password)), None);
        if Truthy(error) {
          s := s.(alert := error);
        }
      }
    }

    /** The switch under the form; it is disabled while an operation runs. */
    method ToggleMode(operationLoading: bool)
      modifies this`isSignUp
      ensures isSignUp == (if operationLoading then old(isSignUp) else !old(isSignUp))
    {
      if !operationLoading {
        isSignUp := !isSignUp;
      }
    }
  }
}
