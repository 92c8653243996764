/** The sign-up form's validation: the field values are parameters instead
    of DOM reads, and the component's error state is a class. */
module SignUp {
  import opened Wrappers
  import opened SignIn

  const EmailMessage: string := "Please enter a valid email address."
  const FullNameMessage: string := "Full Name is required."

  /** The registration the form hands over; the optional role is never set. */
  datatype Registration = Registration(fullName: string, username: string, password: string)

  /** The inputs the form accepts: a username, a password of at least six
      characters and a full name. */
  predicate SignUpAcceptable(fullName: string, username: string, password: string) {
    username != "" && |password| >= MinPasswordLength && fullName != ""
  }

  class SignUpForm {
    var usernameError: bool
    var usernameErrorMessage: string
    var passwordError: bool
    var passwordErrorMessage: string
    var nameError: bool
    var nameErrorMessage: string

    constructor ()
      ensures !usernameError && usernameErrorMessage == ""
      ensures !passwordError && passwordErrorMessage == ""
      ensures !nameError && nameErrorMessage == ""
    {
      usernameError := false;
      usernameErrorMessage := "";
      passwordError := false;
      passwordErrorMessage := "";
      nameError := false;
      nameErrorMessage := "";
    }

    /** validateInputs: all three fields are checked every time; each one's
        error flag and message depend on that field alone. The full-name
        test (empty, or shorter than one character) is the emptiness test. */
    method ValidateInputs(fullName: string, username: string, password: string) returns (isValid: bool)
      modifies this
      ensures isValid <==> SignUpAcceptable(fullName, username, password)
      ensures usernameError <==> username == ""
      ensures usernameErrorMessage == if username == "" then EmailMessage else ""
      ensures passwordError <==> |password| < MinPasswordLength
      ensures passwordErrorMessage == if |password| < MinPasswordLength then PasswordMessage else ""
      ensures nameError <==> fullName == ""
      ensures nameErrorMessage == if fullName == "" then FullNameMessage else ""
    {
      isValid := true;
      if username == "" {
        usernameError := true;
        usernameErrorMessage := EmailMessage;
        isValid := false;
      } else {
        usernameError := false;
        usernameErrorMessage := "";
      }
      if password == "" || |password| < MinPasswordLength {
        passwordError := true;
        passwordErrorMessage := PasswordMessage;
        isValid := false;
      } else {
        passwordError := false;
        passwordErrorMessage := "";
      }
      if fullName == "" || |fullName| < 1 {
        nameError := true;
        nameErrorMessage := FullNameMessage;
        isValid := false;
      } else {
        nameError := false;
        nameErrorMessage := "";
      }
    }

    /** handleSubmit: the registration goes to the caller exactly when the
        inputs validate. */
    method HandleSubmit(fullName: string, username: string, password: string) returns (submitted: Option<Registration>)
      modifies this
      ensures submitted.Some? <==> SignUpAcceptable(fullName, username, password)
      ensures submitted.Some? ==> submitted.value == Registration(fullName, username, password)
      ensures usernameError <==> username == ""
      ensures passwordError <==> |password| < MinPasswordLength
      ensures nameError <==> fullName == ""
    {
      var isValid := ValidateInputs(fullName, username, password);
      if isValid {
        submitted := Some(Registration(fullName, username, password));
      } else {
        submitted := None;
      }
    }
  }

  /** Signing up asks for everything signing in does, and a full name. */
  lemma SignUpImpliesSignIn(fullName: string, username: string, password: string)
    ensures SignUpAcceptable(fullName, username, password) <==>
            SignInAcceptable(username, password) && fullName != ""
  {
  }
}
