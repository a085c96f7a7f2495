/** The sign-up page (`app/register/page.tsx`): the password-strength grade and the
    submit handler's mismatch short-circuit. */
module Register {
  import opened Options
  import opened Text

  /** A JavaScript line terminator: what `.` in a regular expression does not match. */
  predicate IsLineTerminator(c: char)
  {
    c == '\n' || c == '\r' || c == '\U{2028}' || c == '\U{2029}'
  }

  /** The three character classes the strength pattern looks ahead for. */
  datatype CharClass = LowerClass | UpperClass | DigitClass

  predicate InClass(c: char, cls: CharClass)
  {
    match cls
    case LowerClass => IsLower(c)
    case UpperClass => IsUpper(c)
    case DigitClass => IsDigit(c)
  }

  /** The lookahead `(?=.*[class])` tried at position `p`: a character of the class
      occurs at or after `p`, before the next line terminator. */
  predicate LookaheadFinds(s: string, p: nat, cls: CharClass)
    requires p <= |s|
    decreases |s| - p
  {
    p < |s| && !IsLineTerminator(s[p]) && (InClass(s[p], cls) || LookaheadFinds(s, p + 1, cls))
  }

  /** The unanchored pattern of three lookaheads succeeds at some start position `>= p`. */
  predicate PatternFrom(s: string, p: nat)
    requires p <= |s|
    decreases |s| - p
  {
    (LookaheadFinds(s, p, LowerClass) && LookaheadFinds(s, p, UpperClass) && LookaheadFinds(s, p, DigitClass))
    || (p < |s| && PatternFrom(s, p + 1))
  }

  predicate PatternMatches(s: string)
  {
    PatternFrom(s, 0)
  }

  predicate HasClass(s: string, cls: CharClass)
  {
    exists j :: 0 <= j < |s| && InClass(s[j], cls)
  }

  predicate SingleLine(s: string)
  {
    forall j :: 0 <= j < |s| ==> !IsLineTerminator(s[j])
  }

  datatype Strength = Strength(level: nat, text: string, color: string)

  /** `getPasswordStrength`: 0 when empty, 1 below six characters, 2 below eight,
      4 when the pattern matches, 3 otherwise. Lengths are `password.length`, in
      UTF-16 code units. */
  function PasswordStrength(password: string): (r: Strength)
    ensures r.level <= 4
    ensures r.level == 0 <==> |password| == 0
    ensures r.level == 1 <==> 0 < Utf16Length(password) < 6
    ensures r.level == 2 <==> 6 <= Utf16Length(password) < 8
    ensures r.level == 4 <==> 8 <= Utf16Length(password) && PatternMatches(password)
    ensures r.level == 3 <==> 8 <= Utf16Length(password) && !PatternMatches(password)
    ensures r.text == "" <==> r.level == 0
    ensures r.level == 0 ==> r.color == ""
  {
    var length := Utf16Length(password);
    if length == 0 then Strength(0, "", "")
    else if length < 6 then Strength(1, "Weak", "text-red-500")
    else if length < 8 then Strength(2, "Fair", "text-orange-500")
    else if PatternMatches(password) then Strength(4, "Strong", "text-green-500")
    else Strength(3, "Good", "text-blue-500")
  }

  /** Without characters beyond the Basic Multilingual Plane, the grade follows the
      number of characters. */
  lemma PlainPasswordsCountCharacters(password: string)
    requires forall i :: 0 <= i < |password| ==> !IsAstral(password[i])
    ensures PasswordStrength(password).level == 1 <==> 0 < |password| < 6
    ensures PasswordStrength(password).level == 2 <==> 6 <= |password| < 8
    ensures PasswordStrength(password).level >= 3 <==> 8 <= |password|
  {
  }

  /** An emoji counts as two: five characters, four letters and one emoji, rate "Fair". */
  lemma AstralCharacterCountsTwice()
    ensures PasswordStrength("aaaa\U{1F600}").level == 2
  {
    var s := "aaaa\U{1F600}";
    assert s[..4] == "aaaa";
    assert Utf16Length(s) == Utf16Length(s[..4]) + 2;
  }

  /** On one line, a lookahead finds its class exactly when the rest of the line holds it. */
  lemma {:induction false} LookaheadOnOneLine(s: string, p: nat, cls: CharClass)
    requires p <= |s|
    requires SingleLine(s)
    ensures LookaheadFinds(s, p, cls) <==> exists j :: p <= j < |s| && InClass(s[j], cls)
    decreases |s| - p
  {
    if p < |s| {
      LookaheadOnOneLine(s, p + 1, cls);
      if !InClass(s[p], cls) && exists j :: p <= j < |s| && InClass(s[j], cls) {
        var j :| p <= j < |s| && InClass(s[j], cls);
        assert j != p;
      }
    }
  }

  /** On one line, a later start never succeeds where the first one fails. */
  lemma {:induction false} LaterStartsAddNothing(s: string, p: nat)
    requires p <= |s|
    requires SingleLine(s)
    ensures PatternFrom(s, p) ==> HasClass(s, LowerClass) && HasClass(s, UpperClass) && HasClass(s, DigitClass)
    decreases |s| - p
  {
    LookaheadOnOneLine(s, p, LowerClass);
    LookaheadOnOneLine(s, p, UpperClass);
    LookaheadOnOneLine(s, p, DigitClass);
    if p < |s| {
      LaterStartsAddNothing(s, p + 1);
    }
  }

  /** For a password without line breaks, the pattern means: a lowercase letter, an
      uppercase letter and a digit somewhere. */
  lemma PatternMeansAllThreeClasses(s: string)
    requires SingleLine(s)
    ensures PatternMatches(s) <==> HasClass(s, LowerClass) && HasClass(s, UpperClass) && HasClass(s, DigitClass)
  {
    LaterStartsAddNothing(s, 0);
    LookaheadOnOneLine(s, 0, LowerClass);
    LookaheadOnOneLine(s, 0, UpperClass);
    LookaheadOnOneLine(s, 0, DigitClass);
  }

  /** Hence the grade of a single-line password of eight or more characters. */
  lemma StrongMeansMixedClasses(password: string)
    requires SingleLine(password)
    ensures PasswordStrength(password).level == 4 <==>
      && 8 <= Utf16Length(password)
      && HasClass(password, LowerClass) && HasClass(password, UpperClass) && HasClass(password, DigitClass)
  {
    PatternMeansAllThreeClasses(password);
  }

  /** With a line break between the classes, the pattern fails: such a password only rates "Good". */
  lemma LineBreakSplitsTheClasses()
    ensures PasswordStrength("abcdefG\n1").level == 3
  {
    var s := "abcdefG\n1";
    assert !LookaheadFinds(s, 7, LowerClass);
    assert !LookaheadFinds(s, 8, LowerClass);
    assert !LookaheadFinds(s, 9, LowerClass);
    assert !LookaheadFinds(s, 6, DigitClass);
    assert !LookaheadFinds(s, 0, DigitClass);
    assert !PatternFrom(s, 7);
    assert !PatternFrom(s, 0);
  }

  // ---- Submitting the form ----

  /** How the registration request ends: an HTTP answer (its `ok` flag and the body's
      `error` string, if any), or a thrown Error with its message. */
  datatype RegisterOutcome = Answered(ok: bool, error: Option<string>) | Threw(message: string)

  /** After `handleSubmit`: the request body sent (if any), the error line, whether the
      page moves to "/login", and the loading flag. */
  datatype Submitted = Submitted(request: Option<(string, string)>, error: string, toLogin: bool, loading: bool)

  const MismatchMessage := "Passwords do not match!"
  const FallbackMessage := "Registration failed"

  /** `handleSubmit`: differing passwords set the mismatch message and send nothing;
      otherwise `{email, password}` is posted, a non-ok answer shows the body's error
      (or the fallback when it is empty or absent), and an ok answer moves to the login page. */
  function SubmitRegistration(email: string, password: string, confirm: string, outcome: RegisterOutcome): (r: Submitted)
    ensures !r.loading
    ensures password != confirm ==> r.request.None? && r.error == MismatchMessage && !r.toLogin
    ensures password == confirm ==> r.request == Some((email, password))
    ensures r.toLogin <==> password == confirm && outcome.Answered? && outcome.ok
    ensures r.toLogin ==> r.error == ""
    ensures password == confirm && outcome.Answered? && !outcome.ok ==>
      r.error == (if outcome.error.Some? && outcome.error.value != "" then outcome.error.value else FallbackMessage)
    ensures password == confirm && outcome.Threw? ==> r.error == outcome.message && !r.toLogin
  {
    if password != confirm then Submitted(None, MismatchMessage, false, false)
    else match outcome
      case Answered(ok, error) =>
        if ok then Submitted(Some((email, password)), "", true, false)
        else Submitted(Some((email, password)), if error.Some? && error.value != "" then error.value else FallbackMessage, false, false)
      case Threw(message) => Submitted(Some((email, password)), message, false, false)
  }

  /** The submit button is disabled while a request runs or the passwords differ. */
  function SubmitDisabled(isLoading: bool, isGoogleLoading: bool, password: string, confirm: string): (r: bool)
    ensures !r <==> !isLoading && !isGoogleLoading && password == confirm
  {
    isLoading || isGoogleLoading || password != confirm
  }

  /** A click on an enabled button always reaches the server: the mismatch branch is
      only the guard behind the disabled button. */
  lemma EnabledSubmitSendsRequest(email: string, password: string, confirm: string, outcome: RegisterOutcome)
    requires !SubmitDisabled(false, false, password, confirm)
    ensures SubmitRegistration(email, password, confirm, outcome).request == Some((email, password))
  {
  }

  /** Under the confirmation field: "don't match" only once something is typed there. */
  function MismatchHint(password: string, confirm: string): (r: Option<bool>)
    ensures r.None? <==> confirm == ""
    ensures r.Some? ==> (r.value <==> password == confirm)
  {
    if confirm == "" then None else Some(password == confirm)
  }
}
