/** The sign-in and sign-up page of the client: the form checks it runs
    before contacting the server, the submit button, and mode switching. */
module AuthPage {
  import opened Wrappers
  import opened Strings
  import opened AuthController

  datatype AuthMode = SignIn | SignUp

  /** The first failed form check and the message it shows. */
  datatype FormError = ShortUsername | UsernameCharacters | ShortPassword | Mismatch {
    function Message(): string {
      match this
      case ShortUsername => "Username must be at least 3 characters"
      case UsernameCharacters => "Username can only contain letters, numbers, and underscores"
      case ShortPassword => "Password must be at least 6 characters"
      case Mismatch => "Passwords do not match"
    }
  }

  const NoServer := "Something went wrong. Is the server running?"

  /** The username input's `maxLength`, in UTF-16 units. */
  const MaxNameInput := 30

  /** `username.trim().toLowerCase()`, the name checked and submitted. */
  function ClientName(username: string): string {
    ToLower(Trim(username))
  }

  /** The checks of `handleSubmit`, in their fixed order, stopping at the
      first failure: name length, name characters, password length, and,
      when signing up, the confirmation. Lengths are UTF-16 lengths. */
  function FormCheck(mode: AuthMode, username: string, password: string, confirm: string): (r: Option<FormError>)
    ensures var n := ClientName(username);
      && (r == Some(ShortUsername) <==> Utf16Length(n) < MinUsername)
      && (r == Some(UsernameCharacters) <==> Utf16Length(n) >= MinUsername && !IsWord(n))
      && (r == Some(ShortPassword) <==> Utf16Length(n) >= MinUsername && IsWord(n) && Utf16Length(password) < MinPassword)
      && (r == Some(Mismatch) <==>
            Utf16Length(n) >= MinUsername && IsWord(n) && Utf16Length(password) >= MinPassword
            && mode == SignUp && password != confirm)
      && (r.None? <==>
            Utf16Length(n) >= MinUsername && IsWord(n) && Utf16Length(password) >= MinPassword
            && (mode == SignUp ==> password == confirm))
  {
    var n := ClientName(username);
    if Utf16Length(n) < MinUsername then Some(ShortUsername)
    else if !IsWord(n) then Some(UsernameCharacters)
    else if Utf16Length(password) < MinPassword then Some(ShortPassword)
    else if mode == SignUp && password != confirm then Some(Mismatch)
    else None
  }

  /** The submit button: `!(submitting || username.trim().length < 3 || password.length < 6)`. */
  predicate SubmitEnabled(submitting: bool, username: string, password: string) {
    !submitting && Utf16Length(Trim(username)) >= MinUsername && Utf16Length(password) >= MinPassword
  }

  /** A press of an enabled button never stops at either length check: the
      button and the handler measure the same lengths. */
  lemma EnabledPassesLengthChecks(mode: AuthMode, username: string, password: string, confirm: string)
    requires SubmitEnabled(false, username, password)
    ensures FormCheck(mode, username, password, confirm) != Some(ShortUsername)
    ensures FormCheck(mode, username, password, confirm) != Some(ShortPassword)
  {
    ToLowerKeeps(Trim(username));
  }

  /** The name the client submits is already in the form the server stores:
      trimmed and lower-case, so the server's own normalisation keeps it. */
  lemma SubmittedNameIsStored(username: string)
    ensures Trimmed(ClientName(username))
    ensures NormalizeUsername(ClientName(username)) == ClientName(username)
  {
    var n := ClientName(username);
    ToLowerKeeps(Trim(username));
    ToLowerIdempotent(Trim(username));
    TrimOfTrimmed(n);
  }

  /** What passes the sign-in form passes the login validator. */
  lemma SignInFormMeetsServer(username: string, password: string)
    requires FormCheck(SignIn, username, password, "").None?
    ensures LoginValidation(Some(ClientName(username)), Some(password)).errors == []
  {
    var n := ClientName(username);
    WordIsPlain(n);
    TrimOfTrimmed(n);
  }

  /** A name typed within the input's limit that passes the form is a word
      of 3 to 30 characters, as the register validator demands: the form
      checks set no upper bound, the input's `maxLength` does. */
  lemma InputLimitMeetsNameRules(mode: AuthMode, username: string, password: string, confirm: string)
    requires Utf16Length(username) <= MaxNameInput
    requires FormCheck(mode, username, password, confirm).None?
    ensures IsWord(ClientName(username)) && UsernameLengthOk(ClientName(username))
  {
    var n := ClientName(username);
    Utf16LengthTrim(username);
    ToLowerKeeps(Trim(username));
    WordIsPlain(n);
  }

  /** What passes the sign-up form, typed within the input's limit, passes
      the register validator when the password lies in the Basic
      Multilingual Plane without variation selectors. */
  lemma SignUpFormMeetsServer(username: string, password: string)
    requires Utf16Length(username) <= MaxNameInput
    requires FormCheck(SignUp, username, password, password).None?
    requires IsBmp(password) && forall i :: 0 <= i < |password| ==> !IsVariationSelector(password[i])
    ensures RegisterValidation(Some(ClientName(username)), Some(password)).errors == []
  {
    var n := ClientName(username);
    InputLimitMeetsNameRules(SignUp, username, password, password);
    WordIsPlain(n);
    TrimOfTrimmed(n);
    LengthsAgree(password);
  }

  /** A name spelled with KELVIN SIGN passes the form and is submitted as
      the ASCII name it lower-cases to. */
  lemma KelvinSignName()
    ensures ClientName("\U{212A}ate") == "kate"
    ensures FormCheck(SignIn, "\U{212A}ate", "secret", "").None?
  {
    KelvinSignLowers();
    KateIsWord();
    WordFormCheck(SignIn, "kate", "secret", "");
    assert Utf16Length("secret") == 6;
  }

  lemma KelvinSignLowers()
    ensures ClientName("\U{212A}ate") == "kate"
  {
    KelvinSignTrimmed();
    assert ToLower("\U{212A}ate") == "kate";
  }

  lemma KelvinSignTrimmed()
    ensures Trim("\U{212A}ate") == "\U{212A}ate"
  {
    var s := "\U{212A}ate";
    assert !IsSpace(s[0]) && !IsSpace(s[3]);
    assert LeadingSpace(s) == 0 && TrailingSpace(s) == 0;
  }

  lemma KateIsWord()
    ensures IsWord("kate") && NoUpperCase("kate")
  {
  }

  /** A lower-case word is submitted as it is, and only the password checks
      remain to decide the form. */
  lemma WordFormCheck(mode: AuthMode, name: string, password: string, confirm: string)
    requires IsWord(name) && NoUpperCase(name) && |name| >= MinUsername
    ensures ClientName(name) == name
    ensures FormCheck(mode, name, password, confirm) ==
      if Utf16Length(password) < MinPassword then Some(ShortPassword)
      else if mode == SignUp && password != confirm then Some(Mismatch)
      else None
  {
    WordIsPlain(name);
    TrimOfTrimmed(name);
    assert ToLower(name) == name;
  }

  /** For a word the register validator reports at most the two length
      findings. */
  lemma WordRegisterValidation(name: string, password: string)
    requires IsWord(name)
    ensures RegisterValidation(Some(name), Some(password)).errors ==
      Report(UsernameLengthOk(name), UsernameLength) + Report(PasswordLengthOk(password), PasswordLength)
  {
    var r := RegisterValidation(Some(name), Some(password));
    LowerOfWord(name);
    ValidatedFields(name, password);
    var a := Report(UsernameLengthOk(name), UsernameLength);
    var b := Report(PasswordLengthOk(password), PasswordLength);
    assert r.errors == a + Report(IsWord(name), UsernameChars) + b;
    assert Report(IsWord(name), UsernameChars) == [];
    assert a + [] + b == a + b;
  }

  lemma ValidatedFields(name: string, password: string)
    requires Trimmed(name)
    ensures var r := RegisterValidation(Some(name), Some(password));
      && r.username == name && r.password == password
      && r.errors == Report(UsernameLengthOk(name), UsernameLength) + Report(IsWord(name), UsernameChars)
           + Report(PasswordLengthOk(password), PasswordLength)
  {
    TrimOfTrimmed(name);
  }

  /** The client counts UTF-16 units and the server counts characters: a
      password of three characters outside the Basic Multilingual Plane
      passes the form and is refused by the register validator, with only
      the password finding. */
  lemma AstralPasswordPassesFormOnly(name: string, password: string)
    requires IsWord(name) && NoUpperCase(name) && MinUsername <= |name| <= MaxUsername
    requires |password| == 3 && forall i :: 0 <= i < |password| ==> password[i] as int > 0xFFFF
    ensures FormCheck(SignUp, name, password, password).None?
    ensures RegisterValidation(Some(name), Some(password)).errors == [PasswordLength]
  {
    AstralLengths(password);
    WordFormCheck(SignUp, name, password, password);
    WordRegisterValidation(name, password);
    WordIsPlain(name);
  }

  /** One `register` or `login` call. */
  datatype AuthRequest = AuthRequest(mode: AuthMode, username: string, password: string)

  class AuthForm {
    var mode: AuthMode
    var username: string
    var password: string
    var confirm: string
    var showPassword: bool
    var error: string
    var submitting: bool
    /** The requests sent, in order. */
    var requests: seq<AuthRequest>

    /** The browser keeps the username within the input's `maxLength`. */
    ghost predicate Valid()
      reads this
    {
      Utf16Length(username) <= MaxNameInput
    }

    constructor ()
      ensures Valid()
      ensures mode == SignIn && username == "" && password == "" && confirm == ""
      ensures !showPassword && error == "" && !submitting && requests == []
    {
      mode := SignIn;
      username := "";
      password := "";
      confirm := "";
      showPassword := false;
      error := "";
      submitting := false;
      requests := [];
    }

    /** The username input's `onChange`: at most `maxLength` units arrive. */
    method EditUsername(text: string)
      requires Valid() && Utf16Length(text) <= MaxNameInput
      modifies this
      ensures Valid()
      ensures username == text
      ensures mode == old(mode) && password == old(password) && confirm == old(confirm) && showPassword == old(showPassword)
      ensures error == old(error) && submitting == old(submitting) && requests == old(requests)
    {
      username := text;
    }

    /** The password input's `onChange`; it has no length limit. */
    method EditPassword(text: string)
      requires Valid()
      modifies this
      ensures Valid()
      ensures password == text
      ensures mode == old(mode) && username == old(username) && confirm == old(confirm) && showPassword == old(showPassword)
      ensures error == old(error) && submitting == old(submitting) && requests == old(requests)
    {
      password := text;
    }

    /** The confirmation input's `onChange`. */
    method EditConfirm(text: string)
      requires Valid()
      modifies this
      ensures Valid()
      ensures confirm == text
      ensures mode == old(mode) && username == old(username) && password == old(password) && showPassword == old(showPassword)
      ensures error == old(error) && submitting == old(submitting) && requests == old(requests)
    {
      confirm := text;
    }

    /** The eye button. */
    method TogglePassword()
      requires Valid()
      modifies this
      ensures Valid()
      ensures showPassword == !old(showPassword)
      ensures mode == old(mode) && username == old(username) && password == old(password) && confirm == old(confirm)
      ensures error == old(error) && submitting == old(submitting) && requests == old(requests)
    {
      showPassword := !showPassword;
    }

    /** `resetForm`. */
    method ResetForm()
      modifies this
      ensures Valid()
      ensures username == "" && password == "" && confirm == "" && error == "" && !showPassword
      ensures mode == old(mode) && submitting == old(submitting) && requests == old(requests)
    {
      username := "";
      password := "";
      confirm := "";
      error := "";
      showPassword := false;
    }

    /** `switchMode`: the new mode with a cleared form. */
    method SwitchMode(m: AuthMode)
      modifies this
      ensures Valid()
      ensures mode == m
      ensures username == "" && password == "" && confirm == "" && error == "" && !showPassword
      ensures submitting == old(submitting) && requests == old(requests)
    {
      mode := m;
      ResetForm();
    }

    /** `handleSubmit` up to its `await`: the first failed check shows its
        message and sends nothing; otherwise the normalised name and the
        password go to the server for the current mode. */
    method Submit()
      requires Valid()
      modifies this
      ensures Valid()
      ensures mode == old(mode) && username == old(username) && password == old(password)
      ensures confirm == old(confirm) && showPassword == old(showPassword)
      ensures var check := FormCheck(mode, username, password, confirm);
        && (check.Some? ==> error == check.value.Message() && requests == old(requests) && submitting == old(submitting))
        && (check.None? ==>
              && error == "" && submitting
              && requests == old(requests) + [AuthRequest(mode, ClientName(username), password)])
    {
      var m, u, p, c := mode, username, password, confirm;
      var check := FormCheck(m, u, p, c);
      var request := AuthRequest(m, ClientName(u), p);
      if check.Some? {
        error := check.value.Message();
      } else {
        error := "";
        submitting := true;
        requests := requests + [request];
      }
      assert mode == m && username == u && password == p && confirm == c;
    }

    /** The `catch` of `handleSubmit`: the server's error when it sent one,
        else the fallback, and the button is re-enabled. */
    method RequestFailed(serverError: Option<string>)
      requires Valid()
      modifies this
      ensures Valid()
      ensures error == if serverError.Some? && serverError.value != "" then serverError.value else NoServer
      ensures !submitting
      ensures mode == old(mode) && username == old(username) && password == old(password)
      ensures confirm == old(confirm) && showPassword == old(showPassword) && requests == old(requests)
    {
      if serverError.Some? && serverError.value != "" {
        error := serverError.value;
      } else {
        error := NoServer;
      }
      submitting := false;
    }
  }
}
