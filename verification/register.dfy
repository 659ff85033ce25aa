/** The registration form of `src/pages/Register.jsx`: the password policy,
    per-field error clearing, and the submit sequence (policy check, then
    `register`, then `updateUserProfile`, then navigation). */
module Register {
  import opened Seqs
  import opened Domain
  import Text

  const LengthMessage: string := "Password must be at least 6 characters long"
  const UpperMessage: string := "Password must contain at least one uppercase letter"
  const LowerMessage: string := "Password must contain at least one lowercase letter"
  const CreatedMessage: string := "Account created successfully!"
  const CreateFailedMessage: string := "Failed to create account"

  /** `/[A-Z]/.test(password)` and `/[a-z]/.test(password)`, by a scan. */
  function HasUpper(password: string): bool { Any(password, Text.IsUpper) }
  function HasLower(password: string): bool { Any(password, Text.IsLower) }

  /** `validatePassword`: one message per violated rule, in the order length,
      upper, lower. The length rule counts UTF-16 code units, as `length` does. */
  function ValidatePassword(password: string): (errors: seq<string>)
    ensures errors == [] <==>
              Text.Utf16Length(password) >= 6
              && (exists i :: 0 <= i < |password| && Text.IsUpper(password[i]))
              && (exists i :: 0 <= i < |password| && Text.IsLower(password[i]))
    ensures LengthMessage in errors <==> Text.Utf16Length(password) < 6
    ensures UpperMessage in errors <==> !exists i :: 0 <= i < |password| && Text.IsUpper(password[i])
    ensures LowerMessage in errors <==> !exists i :: 0 <= i < |password| && Text.IsLower(password[i])
    ensures IsSubsequence(errors, [LengthMessage, UpperMessage, LowerMessage])
  {
    AnyMeansExists(password, Text.IsUpper);
    AnyMeansExists(password, Text.IsLower);
    var short := Text.Utf16Length(password) < 6;
    var errors := (if short then [LengthMessage] else [])
      + (if !HasUpper(password) then [UpperMessage] else [])
      + (if !HasLower(password) then [LowerMessage] else []);
    OrderedMessages(short, !HasUpper(password), !HasLower(password));
    errors
  }

  lemma OrderedMessages(a: bool, b: bool, c: bool)
    ensures IsSubsequence((if a then [LengthMessage] else []) + (if b then [UpperMessage] else [])
                          + (if c then [LowerMessage] else []),
                          [LengthMessage, UpperMessage, LowerMessage])
  {
    var all := [LengthMessage, UpperMessage, LowerMessage];
    var s := (if a then [LengthMessage] else []) + (if b then [UpperMessage] else []) + (if c then [LowerMessage] else []);
    var tail := (if c then [LowerMessage] else []);
    assert IsSubsequence(tail, all[2..]) by {
      assert all[2..][1..] == [];
    }
    var mid := (if b then [UpperMessage] else []) + tail;
    assert IsSubsequence(mid, all[1..]) by {
      if b {
        assert mid[0] == all[1..][0] && mid[1..] == tail && all[1..][1..] == all[2..];
      } else {
        assert mid == tail;
        if |tail| > 0 {
          assert tail[0] != all[1..][0];
          assert all[1..][1..] == all[2..];
        }
      }
    }
    if a {
      assert s[0] == all[0] && s[1..] == mid && all[1..] == all[1..];
    } else {
      assert s == mid;
      if |mid| > 0 {
        assert mid[0] != all[0];
      }
    }
  }

  /** A password meeting the policy. */
  lemma StrongPasswordAccepted()
    ensures ValidatePassword("Secret1") == []
  {
    assert Text.IsUpper("Secret1"[0]) && Text.IsLower("Secret1"[1]);
  }

  /** Four characters, two of them outside the Basic Multilingual Plane, make
      six code units and so meet the length rule. */
  lemma AstralPasswordAccepted()
    ensures |"Ab\U{1F600}\U{1F600}"| == 4
    ensures ValidatePassword("Ab\U{1F600}\U{1F600}") == []
  {
    var p := "Ab\U{1F600}\U{1F600}";
    assert p[1..][1..][1..] == "\U{1F600}";
    assert Text.Utf16Length(p) == 6;
    assert Text.IsUpper(p[0]) && Text.IsLower(p[1]);
  }

  /** "abc" breaks the length and upper-case rules, reported in that order. */
  lemma ShortLowerPassword()
    ensures ValidatePassword("abc") == [LengthMessage, UpperMessage]
  {
    assert Text.IsLower("abc"[0]);
  }

  datatype FormField = NameField | EmailField | PhotoField | PasswordField

  datatype Form = Form(name: string, email: string, photoURL: string, password: string)

  function FieldOf(f: Form, k: FormField): string {
    match k
    case NameField => f.name
    case EmailField => f.email
    case PhotoField => f.photoURL
    case PasswordField => f.password
  }

  /** Per-field error text; a key that is absent has no error. */
  type Errors = map<FormField, string>

  /** `handleChange`: store the value; blank the field's error only when it is non-empty. */
  function HandleChange(form: Form, errors: Errors, k: FormField, value: string): (r: (Form, Errors))
    ensures FieldOf(r.0, k) == value
    ensures forall other :: other != k ==> FieldOf(r.0, other) == FieldOf(form, other)
    ensures r.1.Keys == errors.Keys
    ensures k in errors ==> r.1[k] == ""
    ensures forall other :: other in errors && other != k ==> r.1[other] == errors[other]
    ensures (k !in errors || errors[k] == "") ==> r.1 == errors
  {
    var form' := match k
      case NameField => form.(name := value)
      case EmailField => form.(email := value)
      case PhotoField => form.(photoURL := value)
      case PasswordField => form.(password := value);
    var errors' := if k in errors && errors[k] != "" then errors[k := ""] else errors;
    (form', errors')
  }

  /** What an identity-provider call settled to. */
  datatype AuthOutcome = Done | Rejected(message: string)

  /** The observable steps of `handleSubmit`, in order. */
  datatype Effect =
    | ReplaceErrors(errors: Errors)
    | Toast(notice: Notice)
    | CallRegister(email: string, password: string)
    | CallUpdateProfile(name: string, photoURL: string)
    | Navigate(path: string)

  function FailureNotice(message: string): Notice {
    Alert(if message != "" then message else CreateFailedMessage)
  }

  /** `handleSubmit`. `registered` and `profiled` are what `register` and
      `updateUserProfile` settle to; `profiled` is not consulted unless the
      profile update is reached. */
  function Submit(form: Form, registered: AuthOutcome, profiled: AuthOutcome): (effects: seq<Effect>)
    ensures var errors := ValidatePassword(form.password);
            errors != [] ==> effects == [ReplaceErrors(map[PasswordField := Text.Join(errors, ". ")]), Toast(Alert(errors[0]))]
    ensures CallRegister(form.email, form.password) in effects <==> ValidatePassword(form.password) == []
    ensures CallUpdateProfile(form.name, form.photoURL) in effects <==>
              ValidatePassword(form.password) == [] && registered.Done?
    ensures Navigate("/") in effects <==> ValidatePassword(form.password) == [] && registered.Done? && profiled.Done?
    ensures ValidatePassword(form.password) == [] ==> effects[0] == CallRegister(form.email, form.password)
  {
    var errors := ValidatePassword(form.password);
    if errors != [] then
      [ReplaceErrors(map[PasswordField := Text.Join(errors, ". ")]), Toast(Alert(errors[0]))]
    else
      [CallRegister(form.email, form.password)]
      + match registered
        case Rejected(m) => [Toast(FailureNotice(m))]
        case Done =>
          [CallUpdateProfile(form.name, form.photoURL)]
          + match profiled
            case Rejected(m) => [Toast(FailureNotice(m))]
            case Done => [Toast(Confirm(CreatedMessage)), Navigate("/")]
  }

  /** A rejected password never reaches the identity provider, and the whole
      error object is replaced by the password's joined messages. */
  lemma WeakPasswordBlocked(form: Form, registered: AuthOutcome, profiled: AuthOutcome)
    requires ValidatePassword(form.password) != []
    ensures forall i :: 0 <= i < |Submit(form, registered, profiled)| ==>
              !Submit(form, registered, profiled)[i].CallRegister?
              && !Submit(form, registered, profiled)[i].CallUpdateProfile?
              && !Submit(form, registered, profiled)[i].Navigate?
  {
  }

  /** The blocked submit reports all messages joined by ". " and toasts the first. */
  lemma ShortLowerSubmit(form: Form, registered: AuthOutcome, profiled: AuthOutcome)
    requires form.password == "abc"
    ensures Submit(form, registered, profiled)
         == [ReplaceErrors(map[PasswordField := LengthMessage + ". " + UpperMessage]), Toast(Alert(LengthMessage))]
  {
    ShortLowerPassword();
  }

  /** With a valid password the sequence is register, then profile update, then navigation. */
  lemma HappyPathOrder(form: Form)
    requires ValidatePassword(form.password) == []
    ensures Submit(form, Done, Done) == [CallRegister(form.email, form.password),
                                         CallUpdateProfile(form.name, form.photoURL),
                                         Toast(Confirm(CreatedMessage)), Navigate("/")]
  {
  }
}
