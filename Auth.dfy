/**
 * The mock sign-in / sign-up form (src/components/AuthSystem.tsx): its
 * validation rules, its input and mode handlers, and the user it creates.
 */
module Auth {
  import opened Wrappers

  datatype Role = Developer | Admin | Guest

  /** The `User` record handed to the page once authenticated. */
  datatype User = User(id: string, email: string, name: string, role: Role, avatar: Option<string>)

  /** The four inputs of the form; `name` and `confirmPassword` exist only in sign-up mode. */
  datatype Field = Email | Password | Name | ConfirmPassword

  datatype FormData = FormData(email: string, password: string, name: string, confirmPassword: string)

  const EmptyForm: FormData := FormData("", "", "", "")

  const EmailRequired: string := "Email is required"
  const EmailInvalid: string := "Email is invalid"
  const PasswordRequired: string := "Password is required"
  const PasswordTooShort: string := "Password must be at least 6 characters"
  const NameRequired: string := "Name is required"
  const PasswordsDiffer: string := "Passwords do not match"

  /** The fewest UTF-16 code units a password may have. */
  const MinPasswordLength: nat := 6

  function Get(f: FormData, field: Field): string
  {
    match field
    case Email => f.email
    case Password => f.password
    case Name => f.name
    case ConfirmPassword => f.confirmPassword
  }

  /** `setFormData(prev => ({ ...prev, [field]: value }))`. */
  function WithField(f: FormData, field: Field, value: string): (r: FormData)
    ensures Get(r, field) == value
    ensures forall g :: g != field ==> Get(r, g) == Get(f, g)
  {
    match field
    case Email => f.(email := value)
    case Password => f.(password := value)
    case Name => f.(name := value)
    case ConfirmPassword => f.(confirmPassword := value)
  }

  /**
   * JavaScript's `\s`: the ECMAScript WhiteSpace and LineTerminator code
   * points (tab, line feed, vertical tab, form feed, carriage return, space,
   * no-break space, the Unicode space separators, U+2028, U+2029, U+FEFF).
   */
  predicate IsJsWhitespace(c: char): (b: bool)
    ensures '!' <= c <= '~' ==> !b
    ensures c == ' ' || c == '\t' || c == '\n' || c == '\r' ==> b
  {
    || ('\t' <= c <= '\r') || c == ' ' || c as int == 0xA0 || c as int == 0x1680
    || (0x2000 <= c as int <= 0x200A) || c as int == 0x2028 || c as int == 0x2029
    || c as int == 0x202F || c as int == 0x205F || c as int == 0x3000 || c as int == 0xFEFF
  }

  /**
   * Does the unanchored regular expression `\S+@\S+\.\S+` match somewhere in
   * `s`? It does exactly when some '@' at `at` has a non-whitespace character
   * before it, and some '.' at `dot` has a non-empty non-whitespace run
   * between the two and a non-whitespace character after it.
   */
  predicate IsEmailLike(s: string): (b: bool)
    ensures b ==> |s| >= 5 && '@' in s && '.' in s
  {
    exists at: int, dot: int | 0 < at < |s| && at + 1 < dot < |s| - 1 :: EmailMatchAt(s, at, dot)
  }

  /** The regular expression matches with its '@' at `at` and its '.' at `dot`. */
  predicate EmailMatchAt(s: string, at: int, dot: int): (b: bool)
    ensures b ==> 0 < at && dot + 1 < |s| && forall k :: at - 1 <= k <= dot + 1 ==> !IsJsWhitespace(s[k])
  {
    && 0 < at < |s| && at + 1 < dot < |s| - 1
    && s[at] == '@' && s[dot] == '.'
    && !IsJsWhitespace(s[at - 1])
    && (forall k | at < k < dot :: !IsJsWhitespace(s[k]))
    && !IsJsWhitespace(s[dot + 1])
  }

  /** The match is unanchored: text around a matching string does not undo the match. */
  lemma EmailLikeInContext(p: string, s: string, q: string)
    requires IsEmailLike(s)
    ensures IsEmailLike(p + s + q)
  {
    var at, dot :| EmailMatchAt(s, at, dot);
    assert EmailMatchAt(s, at, dot);
    var t := p + s + q;
    var at', dot' := at + |p|, dot + |p|;
    forall k | at' < k < dot' ensures !IsJsWhitespace(t[k]) {
      assert t[k] == s[k - |p|];
    }
    assert t[at'] == s[at] && t[dot'] == s[dot] && t[at' - 1] == s[at - 1] && t[dot' + 1] == s[dot + 1];
    assert EmailMatchAt(t, at', dot');
  }

  /** Sample addresses: a plain one, and one whose match starts after a space. */
  lemma EmailLikeExamples()
    ensures IsEmailLike("dev@sui.io")
    ensures IsEmailLike("my dev@sui.io")
    ensures !IsEmailLike("")
  {
    var s := "dev@sui.io";
    assert s[2] == 'v' && s[3] == '@' && s[4] == 's' && s[5] == 'u' && s[6] == 'i' && s[7] == '.' && s[8] == 'i';
    assert !IsJsWhitespace('v') && !IsJsWhitespace('s') && !IsJsWhitespace('u') && !IsJsWhitespace('i');
    assert EmailMatchAt(s, 3, 7);
    var t := "my dev@sui.io";
    assert t[5] == 'v' && t[6] == '@' && t[7] == 's' && t[8] == 'u' && t[9] == 'i' && t[10] == '.' && t[11] == 'i';
    assert EmailMatchAt(t, 6, 10);
  }

  /**
   * `s.length` in JavaScript: the number of UTF-16 code units, where a
   * character above U+FFFF takes two.
   */
  function Utf16Length(s: string): (n: nat)
    ensures |s| <= n <= 2 * |s|
  {
    if s == [] then 0
    else (if s[0] as int > 0xFFFF then 2 else 1) + Utf16Length(s[1..])
  }

  /** The email rule of `validateForm`. */
  function EmailError(email: string): (r: Option<string>)
    ensures r == None <==> IsEmailLike(email)
    ensures r == Some(EmailRequired) <==> email == ""
    ensures r == Some(EmailInvalid) <==> email != "" && !IsEmailLike(email)
  {
    if email == "" then Some(EmailRequired)
    else if !IsEmailLike(email) then Some(EmailInvalid)
    else None
  }

  /** The password rule of `validateForm`. */
  function PasswordError(password: string): (r: Option<string>)
    ensures r == None <==> Utf16Length(password) >= MinPasswordLength
    ensures r == Some(PasswordRequired) <==> password == ""
    ensures r == Some(PasswordTooShort) <==> password != "" && Utf16Length(password) < MinPasswordLength
  {
    if password == "" then Some(PasswordRequired)
    else if Utf16Length(password) < MinPasswordLength then Some(PasswordTooShort)
    else None
  }

  /** The error `validateForm` records for one field, if any. */
  function FieldError(f: FormData, isLogin: bool, field: Field): (r: Option<string>)
    ensures r.Some? ==> r.value != ""
    ensures field == Email ==> r == EmailError(f.email)
    ensures field == Password ==> r == PasswordError(f.password)
    ensures field == Name ==> (r.Some? <==> !isLogin && f.name == "") && (r.Some? ==> r.value == NameRequired)
    ensures field == ConfirmPassword ==>
      (r.Some? <==> !isLogin && f.password != f.confirmPassword) && (r.Some? ==> r.value == PasswordsDiffer)
    ensures isLogin && (field == Name || field == ConfirmPassword) ==> r == None
  {
    match field
    case Email => EmailError(f.email)
    case Password => PasswordError(f.password)
    case Name => if !isLogin && f.name == "" then Some(NameRequired) else None
    case ConfirmPassword => if !isLogin && f.password != f.confirmPassword then Some(PasswordsDiffer) else None
  }

  /** The form passes `validateForm`: no field has an error. */
  predicate FormValid(f: FormData, isLogin: bool)
  {
    forall field :: FieldError(f, isLogin, field).None?
  }

  /**
   * The form passes exactly when the email matches, the password has at
   * least six code units, and, in sign-up mode only, the name is non-empty
   * and the confirmation equals the password.
   */
  lemma FormValidIff(f: FormData, isLogin: bool)
    ensures FormValid(f, isLogin) <==>
      && IsEmailLike(f.email)
      && Utf16Length(f.password) >= MinPasswordLength
      && (!isLogin ==> f.name != "" && f.password == f.confirmPassword)
  {
    if FormValid(f, isLogin) {
      assert FieldError(f, isLogin, Email).None?;
      assert FieldError(f, isLogin, Password).None?;
      assert FieldError(f, isLogin, Name).None?;
      assert FieldError(f, isLogin, ConfirmPassword).None?;
    }
  }

  /** In login mode the name and confirmation never produce an error. */
  lemma LoginIgnoresSignUpFields(f: FormData, name: string, confirm: string)
    ensures FieldError(f, true, Name) == None && FieldError(f, true, ConfirmPassword) == None
    ensures FormValid(f, true) <==> FormValid(f.(name := name, confirmPassword := confirm), true)
  {
    var g := f.(name := name, confirmPassword := confirm);
    FormValidIff(f, true);
    FormValidIff(g, true);
  }

  /** Is an error for `field` on display (`errors.<field> && ...`)? */
  predicate ShowsError(errors: map<Field, string>, field: Field)
  {
    field in errors && errors[field] != ""
  }

  /** The error update of `handleInputChange`: a shown error of `field` is blanked. */
  function ClearedError(errors: map<Field, string>, field: Field): (r: map<Field, string>)
    ensures r.Keys == errors.Keys
    ensures !ShowsError(r, field)
    ensures forall g :: g != field && g in errors ==> r[g] == errors[g]
  {
    if ShowsError(errors, field) then errors[field := ""] else errors
  }

  /** The text of `s` before its first '@': `s.split('@')[0]`. */
  function BeforeFirstAt(s: string): (r: string)
    ensures r <= s && '@' !in r
    ensures |r| < |s| ==> s[|r|] == '@'
  {
    if s == [] || s[0] == '@' then []
    else [s[0]] + BeforeFirstAt(s[1..])
  }

  /** The created user's name: `formData.name || formData.email.split('@')[0]`. */
  function DisplayName(f: FormData): (r: string)
    ensures f.name != "" ==> r == f.name
    ensures f.name == "" ==> r <= f.email && '@' !in r && (|r| < |f.email| ==> f.email[|r|] == '@')
  {
    if f.name != "" then f.name else BeforeFirstAt(f.email)
  }

  /**
   * A login whose email starts with '@' passes validation yet yields an
   * empty display name: the rule checks for some '@' with a character
   * before it, not for the first one.
   */
  lemma EmptyDisplayNameAccepted()
    ensures var f := FormData("@dev@sui.io", "secret", "", "");
      FormValid(f, true) && DisplayName(f) == ""
  {
    var f := FormData("@dev@sui.io", "secret", "", "");
    var e := f.email;
    assert e[4] == '@' && e[8] == '.' && e[3] == 'v' && e[9] == 'i';
    assert forall k | 4 < k < 8 :: !IsJsWhitespace(e[k]);
    assert EmailMatchAt(e, 4, 8);
    assert Utf16Length("secret") == 6;
    FormValidIff(f, true);
  }

  /** The user a successful email submission creates; `randomId` stands for the random id. */
  function NewUser(f: FormData, randomId: string): (u: User)
    ensures u.id == randomId && u.email == f.email && u.role == Developer && u.avatar == None
    ensures u.name == DisplayName(f)
    ensures f.name != "" ==> u.name == f.name
    ensures f.name == "" ==> u.name <= f.email && '@' !in u.name
  {
    User(randomId, f.email, DisplayName(f), Developer, None)
  }

  /** The fixed user "Continue with GitHub" creates; `randomId` stands for the random suffix. */
  function GithubUser(randomId: string): (u: User)
    ensures |u.id| == 12 + |randomId| && u.id[..12] == "github-user-" && u.id[12..] == randomId
    ensures u.role == Developer && u.avatar.Some?
  {
    User("github-user-" + randomId, "developer@github.com", "GitHub Developer", Developer,
      Some("https://github.com/github.png"))
  }

  /** One step of `validateForm`: record the error of `field`, if it has one. */
  function Recorded(errors: map<Field, string>, f: FormData, isLogin: bool, field: Field): (r: map<Field, string>)
    ensures r.Keys == if FieldError(f, isLogin, field).Some? then errors.Keys + {field} else errors.Keys
    ensures field in r && FieldError(f, isLogin, field).Some? ==> r[field] == FieldError(f, isLogin, field).value
    ensures forall g :: g != field && g in errors ==> r[g] == errors[g]
  {
    match FieldError(f, isLogin, field)
    case Some(message) => errors[field := message]
    case None => errors
  }

  /** The four steps of `validateForm` collect exactly the fields with an error. */
  lemma CollectedErrors(f: FormData, isLogin: bool, errors: map<Field, string>)
    requires errors == Recorded(Recorded(Recorded(Recorded(map[], f, isLogin, Email),
      f, isLogin, Password), f, isLogin, Name), f, isLogin, ConfirmPassword)
    ensures forall field :: field in errors <==> FieldError(f, isLogin, field).Some?
    ensures forall field :: field in errors ==> errors[field] == FieldError(f, isLogin, field).value
    ensures forall field :: field in errors ==> ShowsError(errors, field)
    ensures errors == map[] <==> FormValid(f, isLogin)
  {
  }

  /** The form component's state: `isLogin`, `formData` and `errors`. */
  class AuthForm {
    var isLogin: bool
    var form: FormData
    var errors: map<Field, string>

    /** The form as it opens: login mode, every input empty, no errors. */
    constructor ()
      ensures isLogin && form == EmptyForm && errors == map[]
    {
      isLogin := true;
      form := EmptyForm;
      errors := map[];
    }

    /**
     * `validateForm`: collect each field's error into a fresh map, make it
     * the current errors, and report whether it is empty.
     */
    method Validate() returns (ok: bool)
      modifies this`errors
      ensures forall field :: field in errors <==> FieldError(form, isLogin, field).Some?
      ensures forall field :: field in errors ==> errors[field] == FieldError(form, isLogin, field).value
      ensures forall field :: field in errors ==> ShowsError(errors, field)
      ensures ok <==> FormValid(form, isLogin)
      ensures ok <==> errors == map[]
    {
      var newErrors: map<Field, string> := map[];
      var emailError := EmailError(form.email);
      if emailError.Some? {
        newErrors := newErrors[Email := emailError.value];
      }
      assert newErrors == Recorded(map[], form, isLogin, Email);
      ghost var afterEmail := newErrors;
      var passwordError := PasswordError(form.password);
      if passwordError.Some? {
        newErrors := newErrors[Password := passwordError.value];
      }
      assert newErrors == Recorded(afterEmail, form, isLogin, Password);
      ghost var afterPassword := newErrors;
      if !isLogin && form.name == "" {
        newErrors := newErrors[Name := NameRequired];
      }
      assert newErrors == Recorded(afterPassword, form, isLogin, Name);
      ghost var afterName := newErrors;
      if !isLogin && form.password != form.confirmPassword {
        newErrors := newErrors[ConfirmPassword := PasswordsDiffer];
      }
      assert newErrors == Recorded(afterName, form, isLogin, ConfirmPassword);
      CollectedErrors(form, isLogin, newErrors);
      errors := newErrors;
      ok := newErrors == map[];
    }

    /** `handleInputChange`: set one input and blank its shown error. */
    method ChangeInput(field: Field, value: string)
      modifies this`form, this`errors
      ensures form == WithField(old(form), field, value)
      ensures errors == ClearedError(old(errors), field)
    {
      form := WithField(form, field, value);
      if ShowsError(errors, field) {
        errors := errors[field := ""];
      }
    }

    /** The sign-in / sign-up toggle: flip the mode, drop all errors, empty every input. */
    method ToggleMode()
      modifies this
      ensures isLogin == !old(isLogin)
      ensures errors == map[] && form == EmptyForm
    {
      isLogin := !isLogin;
      errors := map[];
      form := EmptyForm;
    }

    /**
     * `handleSubmit`: validate, and on success create the user that is then
     * stored and handed to the page (the delay before it is not modelled).
     */
    method Submit(randomId: string) returns (user: Option<User>)
      modifies this`errors
      ensures forall field :: field in errors <==> FieldError(form, isLogin, field).Some?
      ensures forall field :: field in errors ==> errors[field] == FieldError(form, isLogin, field).value
      ensures forall field :: field in errors ==> ShowsError(errors, field)
      ensures user.Some? <==> FormValid(form, isLogin)
      ensures user.Some? ==> user.value == NewUser(form, randomId)
      ensures user.Some? <==> errors == map[]
    {
      var ok := Validate();
      if !ok {
        return None;
      }
      user := Some(NewUser(form, randomId));
    }
  }
}
