/** The sign-in page (src/pages/Auth.tsx): the form's validation, the chips of
    health conditions and allergies picked at sign-up, and the messages shown
    for what the auth service answers. Each async handler is split at its
    `await` into the part that sends the request and the part that handles
    the answer. */
module Auth {
  import opened Types
  import opened Strings
  import opened Lists

  const EmailError := "Please enter a valid email address"
  const PasswordError := "Password must be at least 6 characters"
  const MinPasswordLength := 6

  const InvalidCredentialsText := "Invalid email or password"
  const AlreadyRegisteredText := "This email is already registered. Please log in instead."
  const WelcomeText := "Welcome back!"
  const AccountCreatedText := "Account created successfully!"

  /** A toast the page shows. */
  datatype Toast = ErrorToast(text: string) | SuccessToast(text: string)

  /** What the auth service answers: no error, or an error with its message. */
  datatype AuthReply = Accepted | Rejected(message: string)

  /** `validateInputs`: the message of the first check that fails, email
      before password, or `None` when both pass. `isEmail` is the email
      schema's test. */
  function Validate(email: string, password: string, isEmail: string -> bool): (r: Option<string>)
    ensures r == Some(EmailError) <==> !isEmail(email)
    ensures r == Some(PasswordError) <==> isEmail(email) && |password| < MinPasswordLength
    ensures r.None? <==> isEmail(email) && |password| >= MinPasswordLength
  {
    if !isEmail(email) then Some(EmailError)
    else if |password| < MinPasswordLength then Some(PasswordError)
    else None
  }

  /** The causes the page recognises in a service message. */
  const BadCredentialsCause := "Invalid login credentials"
  const RegisteredCause := "already registered"

  /** The toast after a sign-in answer (lines 80-88). */
  function LoginToast(reply: AuthReply): (t: Toast)
    ensures reply.Accepted? <==> t.SuccessToast?
    ensures reply.Accepted? ==> t.text == WelcomeText
    ensures reply.Rejected? ==> t.text == if Contains(reply.message, BadCredentialsCause) then InvalidCredentialsText else reply.message
  {
    match reply
    case Accepted => SuccessToast(WelcomeText)
    case Rejected(m) =>
      if Contains(m, BadCredentialsCause) then ErrorToast(InvalidCredentialsText) else ErrorToast(m)
  }

  /** The toast after a sign-up answer (lines 111-127). */
  function SignupToast(reply: AuthReply): (t: Toast)
    ensures reply.Accepted? <==> t.SuccessToast?
    ensures reply.Accepted? ==> t.text == AccountCreatedText
    ensures reply.Rejected? ==> t.text == if Contains(reply.message, RegisteredCause) then AlreadyRegisteredText else reply.message
  {
    match reply
    case Accepted => SuccessToast(AccountCreatedText)
    case Rejected(m) =>
      if Contains(m, RegisteredCause) then ErrorToast(AlreadyRegisteredText) else ErrorToast(m)
  }

  /** Any service message that mentions the known cause is replaced by the
      page's own text, wherever in the message it stands. */
  lemma KnownCausesRecognised(prefix: string, suffix: string)
    ensures LoginToast(Rejected(prefix + BadCredentialsCause + suffix)) == ErrorToast(InvalidCredentialsText)
    ensures SignupToast(Rejected(prefix + RegisteredCause + suffix)) == ErrorToast(AlreadyRegisteredText)
  {
    ContainsPrefixOf(BadCredentialsCause, suffix);
    ContainsAppendLeft(prefix, BadCredentialsCause + suffix, BadCredentialsCause);
    AppendAssoc(prefix, BadCredentialsCause, suffix);
    ContainsPrefixOf(RegisteredCause, suffix);
    ContainsAppendLeft(prefix, RegisteredCause + suffix, RegisteredCause);
    AppendAssoc(prefix, RegisteredCause, suffix);
  }

  /** The sign-up request: the credentials and the chosen chips as user data. */
  datatype SignupRequest = SignupRequest(email: string, password: string, healthIssues: seq<string>, allergies: seq<string>)

  /** The `profiles` update sent after a sign-up, for the signed-in user. */
  datatype ProfileUpdate = ProfileUpdate(userId: string, healthIssues: seq<string>, allergies: seq<string>)

  class AuthForm {
    var email: string
    var password: string
    var healthIssues: seq<string>
    var allergies: seq<string>
    var customInput: string
    var isLoading: bool

    constructor ()
      ensures email == "" && password == "" && healthIssues == [] && allergies == []
      ensures customInput == "" && !isLoading
    {
      email, password := "", "";
      healthIssues, allergies := [], [];
      customInput := "";
      isLoading := false;
    }

    method SetEmail(v: string)
      modifies this
      ensures email == v
      ensures password == old(password) && healthIssues == old(healthIssues) && allergies == old(allergies)
      ensures customInput == old(customInput) && isLoading == old(isLoading)
    {
      email := v;
    }

    method SetPassword(v: string)
      modifies this
      ensures password == v
      ensures email == old(email) && healthIssues == old(healthIssues) && allergies == old(allergies)
      ensures customInput == old(customInput) && isLoading == old(isLoading)
    {
      password := v;
    }

    method SetCustomInput(v: string)
      modifies this
      ensures customInput == v
      ensures email == old(email) && password == old(password) && healthIssues == old(healthIssues)
      ensures allergies == old(allergies) && isLoading == old(isLoading)
    {
      customInput := v;
    }

    /** `toggleHealthIssue(issue)` */
    method ToggleHealthIssue(issue: string)
      modifies this
      ensures healthIssues == Toggle(old(healthIssues), issue)
      ensures email == old(email) && password == old(password) && allergies == old(allergies)
      ensures customInput == old(customInput) && isLoading == old(isLoading)
    {
      healthIssues := if issue in healthIssues then RemoveAll(healthIssues, issue) else healthIssues + [issue];
    }

    /** `toggleAllergy(allergy)` */
    method ToggleAllergy(allergy: string)
      modifies this
      ensures allergies == Toggle(old(allergies), allergy)
      ensures email == old(email) && password == old(password) && healthIssues == old(healthIssues)
      ensures customInput == old(customInput) && isLoading == old(isLoading)
    {
      allergies := if allergy in allergies then RemoveAll(allergies, allergy) else allergies + [allergy];
    }

    /** `addCustomHealthIssue`: adds the trimmed text and clears the field, or
        changes nothing. */
    method AddCustomHealthIssue()
      modifies this
      ensures var added := TypedItem(old(customInput), old(healthIssues));
        (added.Some? ==> healthIssues == old(healthIssues) + [added.value] && customInput == "")
        && (added.None? ==> healthIssues == old(healthIssues) && customInput == old(customInput))
      ensures email == old(email) && password == old(password) && allergies == old(allergies)
      ensures isLoading == old(isLoading)
    {
      var t := Trim(customInput);
      if t != "" && t !in healthIssues {
        healthIssues := healthIssues + [t];
        customInput := "";
      }
    }

    /** `handleLogin` up to its `await`: validates, and when the inputs pass,
        raises `isLoading` and returns the credentials to send. */
    method StartLogin(isEmail: string -> bool) returns (toast: Option<Toast>, sent: Option<(string, string)>)
      modifies this
      ensures var v := Validate(old(email), old(password), isEmail);
        (v.Some? ==> toast == Some(ErrorToast(v.value)) && sent == None && isLoading == old(isLoading))
        && (v.None? ==> toast == None && sent == Some((old(email), old(password))) && isLoading)
      ensures email == old(email) && password == old(password) && healthIssues == old(healthIssues)
      ensures allergies == old(allergies) && customInput == old(customInput)
    {
      var v := Validate(email, password, isEmail);
      if v.Some? {
        return Some(ErrorToast(v.value)), None;
      }
      isLoading := true;
      toast, sent := None, Some((email, password));
    }

    /** `handleLogin` after its `await`. */
    method FinishLogin(reply: AuthReply) returns (toast: Toast)
      modifies this
      ensures toast == LoginToast(reply) && !isLoading
      ensures email == old(email) && password == old(password) && healthIssues == old(healthIssues)
      ensures allergies == old(allergies) && customInput == old(customInput)
    {
      toast := LoginToast(reply);
      isLoading := false;
    }

    /** `handleSignup` up to its first `await`. */
    method StartSignup(isEmail: string -> bool) returns (toast: Option<Toast>, sent: Option<SignupRequest>)
      modifies this
      ensures var v := Validate(old(email), old(password), isEmail);
        (v.Some? ==> toast == Some(ErrorToast(v.value)) && sent == None && isLoading == old(isLoading))
        && (v.None? ==>
              toast == None && isLoading
              && sent == Some(SignupRequest(old(email), old(password), old(healthIssues), old(allergies))))
      ensures email == old(email) && password == old(password) && healthIssues == old(healthIssues)
      ensures allergies == old(allergies) && customInput == old(customInput)
    {
      var v := Validate(email, password, isEmail);
      if v.Some? {
        return Some(ErrorToast(v.value)), None;
      }
      isLoading := true;
      toast, sent := None, Some(SignupRequest(email, password, healthIssues, allergies));
    }

    /** `handleSignup` after its `await`s: `user` is the signed-in user the
        session reports once the account exists. */
    method FinishSignup(reply: AuthReply, user: Option<string>) returns (toast: Toast, update: Option<ProfileUpdate>)
      modifies this
      ensures toast == SignupToast(reply) && !isLoading
      ensures update.Some? <==> reply.Accepted? && user.Some?
      ensures update.Some? ==> update.value == ProfileUpdate(user.value, old(healthIssues), old(allergies))
      ensures email == old(email) && password == old(password) && healthIssues == old(healthIssues)
      ensures allergies == old(allergies) && customInput == old(customInput)
    {
      update := None;
      if reply.Accepted? && user.Some? {
        update := Some(ProfileUpdate(user.value, healthIssues, allergies));
      }
      toast := SignupToast(reply);
      isLoading := false;
    }
  }

  /** The whole of `handleLogin`: `busyWhileWaiting` is `isLoading` while the
      request is out. */
  method HandleLogin(form: AuthForm, isEmail: string -> bool, reply: AuthReply)
    returns (toast: Toast, requested: bool, busyWhileWaiting: bool)
    modifies form
    ensures var v := Validate(old(form.email), old(form.password), isEmail);
      (v.Some? ==> toast == ErrorToast(v.value) && !requested && form.isLoading == old(form.isLoading))
      && (v.None? ==> toast == LoginToast(reply) && requested && busyWhileWaiting && !form.isLoading)
  {
    var first, sent := form.StartLogin(isEmail);
    busyWhileWaiting := form.isLoading;
    if first.Some? {
      return first.value, false, busyWhileWaiting;
    }
    requested := true;
    toast := form.FinishLogin(reply);
  }
}
