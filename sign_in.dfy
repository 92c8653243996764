/** The sign-in form's validation: the field values are parameters instead
    of DOM reads, and the component's error state is a class. */
module SignIn {
  import opened Wrappers

  const UsernameMessage: string := "Please enter a valid username."
  const PasswordMessage: string := "Password must be at least 6 characters long."
  const MinPasswordLength: nat := 6

  datatype Credentials = Credentials(username: string, password: string)

  /** The inputs the form accepts: a username and a password of at least six
      characters. */
  predicate SignInAcceptable(username: string, password: string) {
    username != "" && |password| >= MinPasswordLength
  }

  class SignInForm {
    var usernameError: bool
    var usernameErrorMessage: string
    var passwordError: bool
    var passwordErrorMessage: string

    constructor ()
      ensures !usernameError && usernameErrorMessage == ""
      ensures !passwordError && passwordErrorMessage == ""
    {
      usernameError := false;
      usernameErrorMessage := "";
      passwordError := false;
      passwordErrorMessage := "";
    }

    /** validateInputs: both fields are checked every time; each one's error
        flag and message depend on that field alone. */
    method ValidateInputs(username: string, password: string) returns (isValid: bool)
      modifies this
      ensures isValid <==> SignInAcceptable(username, password)
      ensures usernameError <==> username == ""
      ensures usernameErrorMessage == if username == "" then UsernameMessage else ""
      ensures passwordError <==> |password| < MinPasswordLength
      ensures passwordErrorMessage == if |password| < MinPasswordLength then PasswordMessage else ""
    {
      isValid := true;
      if username == "" {
        usernameError := true;
        usernameErrorMessage := UsernameMessage;
        isValid := false;
      } else {
        usernameError := false;
        usernameErrorMessage := "";
      }
      if password == "" || |password| < MinPasswordLength {
        passwordError := true;
        passwordErrorMessage := PasswordMessage;
        isValid := false;
      } else {
        passwordError := false;
        passwordErrorMessage := "";
      }
    }

    /** handleSubmit: the credentials go to the caller exactly when the
        inputs validate. */
    method HandleSubmit(username: string, password: string) returns (submitted: Option<Credentials>)
      modifies this
      ensures submitted.Some? <==> SignInAcceptable(username, password)
      ensures submitted.Some? ==> submitted.value == Credentials(username, password)
      ensures usernameError <==> username == ""
      ensures passwordError <==> |password| < MinPasswordLength
    {
      var isValid := ValidateInputs(username, password);
      if isValid {
        submitted := Some(Credentials(username, password));
      } else {
        submitted := None;
      }
    }
  }
}
