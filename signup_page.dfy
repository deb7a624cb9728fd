/**
 * The sign-up page: the e-mail pattern, the form's validation messages,
 * per-field editing that clears a shown error, and a submit that signs the
 * user up only when the form is valid.
 */
module SignupPage {
  import opened Wrappers
  import opened Text
  import opened UserStore
  import Auth
  import Routes

  /** A character the pattern's `[^\s@]` admits. */
  predicate IsPartChar(c: char) {
    !IsSpace(c, JavaScript) && c != '@'
  }

  /** A match of `[^\s@]+`. */
  predicate IsPart(s: string) {
    |s| > 0 && forall i :: 0 <= i < |s| ==> IsPartChar(s[i])
  }

  /**
   * The regular expression `^[^\s@]+@[^\s@]+\.[^\s@]+$` read literally:
   * a local part, "@", a domain part, ".", a final part, with `i` the
   * position of the "@" and `j` that of the chosen ".".
   */
  ghost predicate MatchesEmailPattern(s: string) {
    exists i, j :: 0 < i && i + 1 < j && j + 1 < |s| && s[i] == '@' && s[j] == '.' &&
      IsPart(s[..i]) && IsPart(s[i + 1..j]) && IsPart(s[j + 1..])
  }

  /**
   * `validateEmail`: no white space, a non-empty text before the one "@",
   * and after it a "." with text on both sides.
   */
  function ValidateEmail(email: string): bool {
    && NoSpace(email, JavaScript)
    && '@' in email
    && var k := IndexOf(email, '@');
       && 0 < k
       && '@' !in email[k + 1..]
       && k + 3 <= |email|
       && '.' in email[k + 2..|email| - 1]
  }

  /** A match in explicit pieces. */
  lemma PatternPieces(s: string, i: int, j: int)
    requires 0 < i && i + 1 < j && j + 1 < |s| && s[i] == '@' && s[j] == '.'
    requires IsPart(s[..i]) && IsPart(s[i + 1..j]) && IsPart(s[j + 1..])
    ensures NoSpace(s, JavaScript)
    ensures '@' !in s[..i] && '@' !in s[i + 1..]
  {
    var local, domain, top := s[..i], s[i + 1..j], s[j + 1..];
    assert s == local + [s[i]] + domain + [s[j]] + top;
    forall n | 0 <= n < |s| ensures !IsSpace(s[n], JavaScript) {
      if n < i {
        assert s[n] == local[n];
      } else if i < n < j {
        assert s[n] == domain[n - i - 1];
      } else if j < n {
        assert s[n] == top[n - j - 1];
      }
    }
    assert s[i + 1..] == domain + [s[j]] + top;
  }

  lemma PatternImpliesValid(s: string)
    requires MatchesEmailPattern(s)
    ensures ValidateEmail(s)
  {
    var i, j :| 0 < i && i + 1 < j && j + 1 < |s| && s[i] == '@' && s[j] == '.' &&
      IsPart(s[..i]) && IsPart(s[i + 1..j]) && IsPart(s[j + 1..]);
    PatternPieces(s, i, j);
    IndexOfIs(s, '@', i);
    var tail := s[i + 2..|s| - 1];
    assert tail[j - i - 2] == '.';
  }

  lemma ValidImpliesPattern(s: string)
    requires ValidateEmail(s)
    ensures MatchesEmailPattern(s)
  {
    var i := IndexOf(s, '@');
    var tail := s[i + 2..|s| - 1];
    var j := i + 2 + IndexOf(tail, '.');
    assert s[j] == '.';
    var local, domain, top := s[..i], s[i + 1..j], s[j + 1..];
    assert IsPart(local);
    assert IsPart(domain) by {
      forall n | 0 <= n < |domain| ensures IsPartChar(domain[n]) {
        assert domain[n] == s[i + 1..][n];
      }
    }
    assert IsPart(top) by {
      forall n | 0 <= n < |top| ensures IsPartChar(top[n]) {
        assert top[n] == s[i + 1..][j - i + n];
      }
    }
  }

  /** `validateEmail` accepts exactly the strings the regular expression matches. */
  lemma ValidateEmailIsPattern(s: string)
    ensures ValidateEmail(s) <==> MatchesEmailPattern(s)
  {
    if ValidateEmail(s) { ValidImpliesPattern(s); }
    if MatchesEmailPattern(s) { PatternImpliesValid(s); }
  }

  /** An accepted address holds exactly one "@". */
  lemma AcceptedHasOneAt(s: string)
    requires ValidateEmail(s)
    ensures Count(s, '@') == 1
  {
    var k := IndexOf(s, '@');
    assert s == s[..k] + [s[k]] + s[k + 1..];
    CountAppend(s[..k] + [s[k]], s[k + 1..], '@');
    CountAppend(s[..k], [s[k]], '@');
  }

  /** A white-space character anywhere, leading and trailing ones included, makes the address invalid. */
  lemma SpaceMakesInvalid(s: string, n: nat)
    requires n < |s| && IsSpace(s[n], JavaScript)
    ensures !ValidateEmail(s)
  {
  }

  datatype Field = FullName | Email | Password | Role

  /** `formData`. */
  datatype SignupForm = SignupForm(fullName: string, email: string, password: string, role: string)

  /** The form as the page first shows it: empty, with the "Student" role. */
  function InitialForm(): (f: SignupForm)
    ensures f.fullName == "" && f.email == "" && f.password == "" && f.role == "Student"
  {
    SignupForm("", "", "", "Student")
  }

  /** The form with one field replaced. */
  function WithField(f: SignupForm, field: Field, value: string): (r: SignupForm)
    ensures field == FullName ==> r == f.(fullName := value)
    ensures field == Email ==> r == f.(email := value)
    ensures field == Password ==> r == f.(password := value)
    ensures field == Role ==> r == f.(role := value)
  {
    match field
    case FullName => f.(fullName := value)
    case Email => f.(email := value)
    case Password => f.(password := value)
    case Role => f.(role := value)
  }

  const FullNameRequired := "Full Name is required"
  const EmailRequired := "Email is required"
  const EmailInvalid := "Please enter a valid email address"
  const PasswordRequired := "Password is required"
  const PasswordTooShort := "Password must be at least 6 characters"

  /** The error messages `validateForm` collects for a form. */
  function FormErrors(f: SignupForm): (errors: map<Field, string>)
    ensures Role !in errors
    ensures FullName in errors <==> AllSpace(f.fullName, JavaScript)
    ensures FullName in errors ==> errors[FullName] == FullNameRequired
    ensures AllSpace(f.email, JavaScript) ==> Email in errors && errors[Email] == EmailRequired
    ensures !AllSpace(f.email, JavaScript) && !ValidateEmail(f.email) ==>
              Email in errors && errors[Email] == EmailInvalid
    ensures !AllSpace(f.email, JavaScript) && ValidateEmail(f.email) ==> Email !in errors
    ensures f.password == "" ==> Password in errors && errors[Password] == PasswordRequired
    ensures f.password != "" && Utf16Length(f.password) < 6 ==>
              Password in errors && errors[Password] == PasswordTooShort
    ensures Utf16Length(f.password) >= 6 ==> Password !in errors
  {
    TrimEmptyIff(f.fullName, JavaScript);
    TrimEmptyIff(f.email, JavaScript);
    var nameErrors: map<Field, string> :=
      if Trim(f.fullName, JavaScript) == "" then map[FullName := FullNameRequired] else map[];
    var emailErrors :=
      if Trim(f.email, JavaScript) == "" then nameErrors[Email := EmailRequired]
      else if !ValidateEmail(f.email) then nameErrors[Email := EmailInvalid]
      else nameErrors;
    if f.password == "" then emailErrors[Password := PasswordRequired]
    else if Utf16Length(f.password) < 6 then emailErrors[Password := PasswordTooShort]
    else emailErrors
  }

  /**
   * A form passes exactly when the name is not blank, the address is valid
   * and the password is six UTF-16 code units or longer.
   */
  lemma FormValidIff(f: SignupForm)
    ensures FormErrors(f) == map[] <==>
      !AllSpace(f.fullName, JavaScript) && ValidateEmail(f.email) && Utf16Length(f.password) >= 6
  {
    var e := FormErrors(f);
    if !AllSpace(f.fullName, JavaScript) && ValidateEmail(f.email) && Utf16Length(f.password) >= 6 {
      assert f.email != [] && !IsSpace(f.email[0], JavaScript);
      assert e.Keys == {} by {
        forall k | k in e ensures false {
          match k
          case FullName =>
          case Email =>
          case Password =>
          case Role =>
        }
      }
    } else if AllSpace(f.fullName, JavaScript) {
      assert FullName in e;
    } else if !ValidateEmail(f.email) {
      assert Email in e;
    } else {
      assert Password in e;
    }
  }

  /**
   * The length rule counts UTF-16 code units, so three characters beyond
   * U+FFFF already make a password long enough.
   */
  lemma AstralPasswordLongEnough(f: SignupForm)
    requires f.password == "\U{1F600}\U{1F600}\U{1F600}"
    ensures Password !in FormErrors(f)
  {
    var c := '\U{1F600}';
    Utf16LengthAstral(c);
    Utf16LengthAppend([c], [c]);
    Utf16LengthAppend([c, c], [c]);
    assert f.password == [c, c] + [c];
    assert [c, c] == [c] + [c];
  }

  /** The record `handleSubmit` signs up with: the form without its password, and the given id. */
  function SignupRecord(f: SignupForm, id: int): (r: UserRecord)
    ensures r.password == None
    ensures r.id == Some(id) && r.fullName == Some(f.fullName) && r.email == Some(f.email) && r.role == Some(f.role)
  {
    UserRecord(Some(id), Some(f.fullName), Some(f.email), Some(f.role), None)
  }

  class SignupPageState {
    var formData: SignupForm
    var errors: map<Field, string>
    var isSubmitting: bool

    constructor ()
      ensures formData == InitialForm() && errors == map[] && !isSubmitting
    {
      formData := InitialForm();
      errors := map[];
      isSubmitting := false;
    }

    /** `validateForm`: rebuilds the messages from scratch and reports whether there are none. */
    method ValidateForm() returns (ok: bool)
      modifies this
      ensures errors == FormErrors(formData) && (ok <==> errors == map[])
      ensures formData == old(formData) && isSubmitting == old(isSubmitting)
    {
      var f := formData;
      var newErrors: map<Field, string> := map[];
      if Trim(f.fullName, JavaScript) == "" {
        newErrors := newErrors[FullName := FullNameRequired];
      }
      ghost var nameErrors := newErrors;
      if Trim(f.email, JavaScript) == "" {
        newErrors := newErrors[Email := EmailRequired];
      } else if !ValidateEmail(f.email) {
        newErrors := newErrors[Email := EmailInvalid];
      }
      ghost var emailErrors := newErrors;
      assert emailErrors ==
        if Trim(f.email, JavaScript) == "" then nameErrors[Email := EmailRequired]
        else if !ValidateEmail(f.email) then nameErrors[Email := EmailInvalid]
        else nameErrors;
      if f.password == "" {
        newErrors := newErrors[Password := PasswordRequired];
      } else if Utf16Length(f.password) < 6 {
        newErrors := newErrors[Password := PasswordTooShort];
      }
      assert newErrors == FormErrors(f) by {
        assert nameErrors == if Trim(f.fullName, JavaScript) == "" then map[FullName := FullNameRequired] else map[];
      }
      errors := newErrors;
      ok := |newErrors.Keys| == 0;
    }

    /** `handleChange`: replaces one field and blanks that field's message if one is shown. */
    method HandleChange(field: Field, value: string)
      modifies this
      ensures formData == WithField(old(formData), field, value)
      ensures errors == if field in old(errors) && old(errors)[field] != ""
                        then old(errors)[field := ""] else old(errors)
      ensures isSubmitting == old(isSubmitting)
    {
      formData := WithField(formData, field, value);
      if field in errors && errors[field] != "" {
        errors := errors[field := ""];
      }
    }

    /**
     * `handleSubmit`, with `now` standing for `Date.now()`: an invalid form
     * stops at the messages; a valid one signs up without the password and
     * moves on to the sign-in page.
     */
    method HandleSubmit(auth: Auth.AuthProvider, now: int) returns (navigateTo: Option<string>)
      modifies this, auth, auth.storage
      ensures errors == FormErrors(old(formData)) && formData == old(formData)
      ensures FormErrors(old(formData)) != map[] ==>
        navigateTo == None && auth.State() == old(auth.State()) && isSubmitting == old(isSubmitting)
      ensures FormErrors(old(formData)) == map[] ==>
        && navigateTo == Some(Routes.SigninPath)
        && auth.State() == Auth.SignupStep(old(auth.State()), SignupRecord(old(formData), now)).0
        && !isSubmitting
    {
      var ok := ValidateForm();
      if !ok {
        return None;
      }
      isSubmitting := true;
      var result := auth.Signup(SignupRecord(formData, now));
      navigateTo := if result.success then Some(Routes.SigninPath) else None;
      isSubmitting := false;
    }
  }
}
