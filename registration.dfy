/** The registration form of TumaRide: the ordered chain of checks that
    `validateForm` runs over the five fields, and the payload the screen hands
    to `register` once they pass. */
module Registration {
  import opened Wrappers

  // ---------------------------------------------------------------------------
  // Characters and strings as JavaScript sees them
  // ---------------------------------------------------------------------------

  /** ECMAScript white space and line terminators: the characters that
      `String.prototype.trim` strips and that the regular-expression class
      `\s` matches. */
  predicate IsWhiteSpace(c: char) {
    var n := c as int;
    (0x09 <= n <= 0x0D) || n == 0x20 || n == 0xA0 || n == 0x1680
    || (0x2000 <= n <= 0x200A) || n == 0x2028 || n == 0x2029
    || n == 0x202F || n == 0x205F || n == 0x3000 || n == 0xFEFF
  }

  /** Every character of `s` is white space (the empty string included). */
  predicate IsBlank(s: string) {
    forall i :: 0 <= i < |s| ==> IsWhiteSpace(s[i])
  }

  predicate NoWhiteSpace(s: string) {
    forall i :: 0 <= i < |s| ==> !IsWhiteSpace(s[i])
  }

  /** `s` without its leading white space. */
  function TrimStart(s: string): (r: string)
    ensures |r| <= |s| && r == s[|s| - |r|..]
    ensures forall i :: 0 <= i < |s| - |r| ==> IsWhiteSpace(s[i])
    ensures r == [] || !IsWhiteSpace(r[0])
  {
    if s != [] && IsWhiteSpace(s[0]) then TrimStart(s[1..]) else s
  }

  /** `s` without its trailing white space. */
  function TrimEnd(s: string): (r: string)
    ensures |r| <= |s| && r == s[..|r|]
    ensures forall i :: |r| <= i < |s| ==> IsWhiteSpace(s[i])
    ensures r == [] || !IsWhiteSpace(r[|r| - 1])
  {
    if s != [] && IsWhiteSpace(s[|s| - 1]) then TrimEnd(s[..|s| - 1]) else s
  }

  /** `String.prototype.trim`: empty exactly for a blank string, and otherwise
      starting and ending with a character that is not white space. */
  function Trim(s: string): (r: string)
    ensures r == [] <==> IsBlank(s)
    ensures r != [] ==> !IsWhiteSpace(r[0]) && !IsWhiteSpace(r[|r| - 1])
  {
    var t := TrimStart(s);
    var r := TrimEnd(t);
    assert r == [] ==> t[|r|..] == t && s == s[..|s| - |t|] + t;
    assert t != [] ==> t[0] == s[|s| - |t|];
    r
  }

  /** `trim` removes white space at the ends and nothing else: its result is
      a slice of the input with only white space before and after it. */
  lemma TrimKeepsMiddle(s: string)
    ensures exists a :: && 0 <= a <= |s| - |Trim(s)| && Trim(s) == s[a..a + |Trim(s)|]
                        && IsBlank(s[..a]) && IsBlank(s[a + |Trim(s)|..])
  {
    var t := TrimStart(s);
    var r := Trim(s);
    var a := |s| - |t|;
    assert r == TrimEnd(t);
    TrimCutsBlankEnds(s, a, t, r);
    assert 0 <= a <= |s| - |r| && r == s[a..a + |r|] && IsBlank(s[..a]) && IsBlank(s[a + |r|..]);
  }

  /** Cutting white space off the front of `s` at `a` and then off the back
      of the rest leaves a slice of `s` with only white space around it. */
  lemma TrimCutsBlankEnds(s: string, a: nat, t: string, r: string)
    requires a <= |s| && t == s[a..] && (forall i :: 0 <= i < a ==> IsWhiteSpace(s[i]))
    requires |r| <= |t| && r == t[..|r|] && (forall i :: |r| <= i < |t| ==> IsWhiteSpace(t[i]))
    ensures a + |r| <= |s| && r == s[a..a + |r|] && IsBlank(s[..a]) && IsBlank(s[a + |r|..])
  {
    forall i | 0 <= i < a ensures IsWhiteSpace(s[..a][i]) {
      assert s[..a][i] == s[i];
    }
    var rest := s[a + |r|..];
    forall i | 0 <= i < |rest| ensures IsWhiteSpace(rest[i]) {
      assert rest[i] == t[|r| + i];
    }
  }

  /** `s.length`: the number of UTF-16 code units, two for a character
      outside the Basic Multilingual Plane. */
  function Utf16Length(s: string): (n: nat)
    ensures |s| <= n <= 2 * |s|
  {
    if s == [] then 0
    else (if s[0] as int >= 0x10000 then 2 else 1) + Utf16Length(s[1..])
  }

  /** The position of the first `c` in `s`, or `|s|` if there is none. */
  function IndexOf(s: string, c: char): (i: nat)
    ensures i <= |s|
    ensures i < |s| ==> s[i] == c
    ensures forall j :: 0 <= j < i ==> s[j] != c
  {
    if s == [] || s[0] == c then 0 else 1 + IndexOf(s[1..], c)
  }

  // ---------------------------------------------------------------------------
  // The email pattern ^[^\s@]+@[^\s@]+\.[^\s@]+$
  // ---------------------------------------------------------------------------

  /** A character of the class `[^\s@]`. */
  predicate EmailChar(c: char) {
    !IsWhiteSpace(c) && c != '@'
  }

  predicate AllEmailChars(s: string) {
    forall i :: 0 <= i < |s| ==> EmailChar(s[i])
  }

  /** `s` splits as `A @ B . C` at positions `at` and `dot`, with `A`, `B`
      and `C` non-empty runs of `[^\s@]`. */
  predicate EmailSplit(s: string, at: int, dot: int) {
    && 0 < at && at + 1 < dot && dot + 1 < |s|
    && s[at] == '@' && s[dot] == '.'
    && AllEmailChars(s[..at]) && AllEmailChars(s[at + 1..dot]) && AllEmailChars(s[dot + 1..])
  }

  /** The language of the email pattern. */
  ghost predicate MatchesEmailPattern(s: string) {
    exists at: int, dot: int :: EmailSplit(s, at, dot)
  }

  /** `emailRegex.test(email)`, decided directly: no white space, exactly
      one `@` with something before it, and after it a `.` that is neither
      the first nor the last character. */
  predicate IsValidEmail(s: string) {
    && NoWhiteSpace(s)
    && var at := IndexOf(s, '@');
    && 0 < at < |s|
    && '@' !in s[at + 1..]
    && var domain := s[at + 1..];
    && |domain| >= 2
    && '.' in domain[1..|domain| - 1]
  }

  /** Every string the direct check accepts matches the pattern: the first
      `@` and a `.` inside the domain split it into three runs of `[^\s@]`. */
  lemma EmailCheckSound(s: string)
    requires IsValidEmail(s)
    ensures MatchesEmailPattern(s)
  {
    var at := IndexOf(s, '@');
    var domain := s[at + 1..];
    var k :| 0 <= k < |domain[1..|domain| - 1]| && domain[1..|domain| - 1][k] == '.';
    var dot := at + 2 + k;
    assert s[dot] == '.';
    assert AllEmailChars(s[..at]) by {
      forall i | 0 <= i < at ensures EmailChar(s[..at][i]) {
        assert s[..at][i] == s[i];
      }
    }
    assert AllEmailChars(s[at + 1..dot]) by {
      var b := s[at + 1..dot];
      forall i | 0 <= i < |b| ensures EmailChar(b[i]) {
        assert b[i] == s[at + 1 + i] == domain[i];
      }
    }
    assert AllEmailChars(s[dot + 1..]) by {
      var c := s[dot + 1..];
      forall i | 0 <= i < |c| ensures EmailChar(c[i]) {
        assert c[i] == s[dot + 1 + i] == domain[dot - at + i];
      }
    }
    assert EmailSplit(s, at, dot);
  }

  /** Every string the pattern matches passes the direct check: its one `@`
      is the first, and its `.` lies strictly inside the domain. */
  lemma EmailCheckComplete(s: string)
    requires MatchesEmailPattern(s)
    ensures IsValidEmail(s)
  {
    var at, dot :| EmailSplit(s, at, dot);
    forall i | 0 <= i < |s| ensures !IsWhiteSpace(s[i]) && (i != at ==> s[i] != '@') {
      if i < at {
        assert s[..at][i] == s[i];
      } else if at < i < dot {
        assert s[at + 1..dot][i - at - 1] == s[i];
      } else if dot < i {
        assert s[dot + 1..][i - dot - 1] == s[i];
      }
    }
    var first := IndexOf(s, '@');
    assert first == at;
    var domain := s[at + 1..];
    assert '@' !in domain by {
      forall j | 0 <= j < |domain| ensures domain[j] != '@' {
        assert domain[j] == s[at + 1 + j];
      }
    }
    assert domain[1..|domain| - 1][dot - at - 2] == s[dot];
    assert IsValidEmail(s);
  }

  /** The direct check accepts exactly the strings the pattern matches. */
  lemma EmailCheckMatchesPattern(s: string)
    ensures IsValidEmail(s) <==> MatchesEmailPattern(s)
  {
    if IsValidEmail(s) {
      EmailCheckSound(s);
    }
    if MatchesEmailPattern(s) {
      EmailCheckComplete(s);
    }
  }

  // ---------------------------------------------------------------------------
  // The form
  // ---------------------------------------------------------------------------

  /** The five text fields of the registration screen. */
  datatype RegisterForm = RegisterForm(name: string, email: string, phone: string, password: string, confirmPassword: string)

  /** The reason `validateForm` rejects a form, one per alert it raises. */
  datatype FormError = MissingRequiredField | PasswordMismatch | PasswordTooShort | InvalidEmail

  /** What `validateForm` decides: `true`, or `false` after one alert. */
  datatype Validation = Valid | Invalid(error: FormError)

  /** The text of the alert raised for each error. */
  function AlertMessage(e: FormError): string {
    match e
    case MissingRequiredField => "Please fill in all required fields"
    case PasswordMismatch => "Passwords do not match"
    case PasswordTooShort => "Password must be at least 6 characters long"
    case InvalidEmail => "Please enter a valid email address"
  }

  /** The account roles; a new account starts as a sender. */
  datatype Role = Sender | Traveler

  /** The argument `handleRegister` passes to `register`. */
  datatype RegisterRequest = RegisterRequest(name: string, email: string, phone: string, role: Role)

  /** `validateForm`: the checks in the source's order, the first failure
      deciding the result. */
  function ValidateForm(f: RegisterForm): Validation {
    if Trim(f.name) == [] || Trim(f.email) == [] || Trim(f.phone) == [] || Trim(f.password) == [] then
      Invalid(MissingRequiredField)
    else if f.password != f.confirmPassword then
      Invalid(PasswordMismatch)
    else if Utf16Length(f.password) < 6 then
      Invalid(PasswordTooShort)
    else if !IsValidEmail(f.email) then
      Invalid(InvalidEmail)
    else
      Valid
  }

  /** `handleRegister`: no call to `register` unless the form is valid, and
      then the trimmed name, email and phone with the default role. */
  function HandleRegister(f: RegisterForm): Option<RegisterRequest> {
    if ValidateForm(f) != Valid then None
    else Some(RegisterRequest(Trim(f.name), Trim(f.email), Trim(f.phone), Sender))
  }

  // ---------------------------------------------------------------------------
  // Properties of the form checks
  // ---------------------------------------------------------------------------

  /** A required field is missing exactly when one of name, email, phone and
      password consists of white space only; the confirmation plays no part. */
  predicate HasBlankRequiredField(f: RegisterForm) {
    IsBlank(f.name) || IsBlank(f.email) || IsBlank(f.phone) || IsBlank(f.password)
  }

  /** Each error is reported exactly when every earlier check passes and its
      own check fails. */
  lemma FirstFailingCheckDecides(f: RegisterForm)
    ensures ValidateForm(f) == Invalid(MissingRequiredField) <==> HasBlankRequiredField(f)
    ensures ValidateForm(f) == Invalid(PasswordMismatch) <==>
                !HasBlankRequiredField(f) && f.password != f.confirmPassword
    ensures ValidateForm(f) == Invalid(PasswordTooShort) <==>
                !HasBlankRequiredField(f) && f.password == f.confirmPassword && Utf16Length(f.password) < 6
    ensures ValidateForm(f) == Invalid(InvalidEmail) <==>
                && !HasBlankRequiredField(f) && f.password == f.confirmPassword && Utf16Length(f.password) >= 6
                && !MatchesEmailPattern(f.email)
  {
    EmailCheckMatchesPattern(f.email);
  }

  /** The form is accepted exactly when all four checks pass. */
  lemma ValidIffAllChecksPass(f: RegisterForm)
    ensures ValidateForm(f) == Valid <==>
                && !HasBlankRequiredField(f)
                && f.password == f.confirmPassword
                && Utf16Length(f.password) >= 6
                && MatchesEmailPattern(f.email)
  {
    FirstFailingCheckDecides(f);
  }

  /** Whether a required field is missing does not depend on the
      confirmation field. */
  lemma MissingFieldIgnoresConfirmation(f: RegisterForm, confirmation: string)
    ensures ValidateForm(f) == Invalid(MissingRequiredField) <==>
                ValidateForm(f.(confirmPassword := confirmation)) == Invalid(MissingRequiredField)
  {
    FirstFailingCheckDecides(f);
    FirstFailingCheckDecides(f.(confirmPassword := confirmation));
  }

  /** Trimming a string that has no white space leaves it unchanged. */
  lemma TrimNoWhiteSpace(s: string)
    requires NoWhiteSpace(s)
    ensures Trim(s) == s
  {
    if s != [] {
      assert !IsWhiteSpace(s[0]) && !IsWhiteSpace(s[|s| - 1]);
    }
  }

  /** Trimming twice is trimming once. */
  lemma TrimIdempotent(s: string)
    ensures Trim(Trim(s)) == Trim(s)
  {
    var r := Trim(s);
    assert TrimStart(r) == r;
    assert TrimEnd(r) == r;
  }

  /** `register` is reached exactly for a valid form; it then receives the
      trimmed name and phone, neither of them empty, the email as typed (a
      valid email has no white space to trim) and the role `sender`. That
      the name and phone are not padded follows from `Trim`'s contract. */
  lemma RegisterPayload(f: RegisterForm)
    ensures HandleRegister(f).Some? <==> ValidateForm(f) == Valid
    ensures HandleRegister(f).Some? ==>
              && HandleRegister(f).value == RegisterRequest(Trim(f.name), f.email, Trim(f.phone), Sender)
              && Trim(f.name) != [] && Trim(f.phone) != []
  {
    if ValidateForm(f) == Valid {
      ValidIffAllChecksPass(f);
      EmailCheckComplete(f.email);
      TrimNoWhiteSpace(f.email);
    }
  }

  /** A mismatch is reported before a short password: a password that is
      too short and also differs from its confirmation gets the mismatch
      alert. */
  lemma MismatchBeforeShortPassword(f: RegisterForm)
    requires !HasBlankRequiredField(f) && f.password != f.confirmPassword && Utf16Length(f.password) < 6
    ensures ValidateForm(f) == Invalid(PasswordMismatch)
  {
    FirstFailingCheckDecides(f);
  }

  /** A blank confirmation is a mismatch, not a missing field: the
      confirmation is not among the fields checked for blanks, and it cannot
      equal a password that is not blank. */
  lemma BlankConfirmationIsMismatch(f: RegisterForm)
    requires IsBlank(f.confirmPassword) && !HasBlankRequiredField(f)
    ensures ValidateForm(f) == Invalid(PasswordMismatch)
  {
    FirstFailingCheckDecides(f);
  }

  /** A well-formed address matches the pattern. */
  lemma SampleEmailAccepted(e: string)
    requires e == "amina@mail.co"
    ensures IsValidEmail(e) && MatchesEmailPattern(e)
  {
    assert EmailSplit(e, 5, 10) by {
      assert e[..5] == "amina" && e[6..10] == "mail" && e[11..] == "co";
    }
    EmailCheckMatchesPattern(e);
  }

  /** A dot that ends the address does not count. */
  lemma TrailingDotRejected(e: string)
    requires e == "amina@mail."
    ensures !IsValidEmail(e) && !MatchesEmailPattern(e)
  {
    assert IndexOf(e, '@') == 5 by {
      assert e[5] == '@' && e[0] != '@' && e[1] != '@' && e[2] != '@' && e[3] != '@' && e[4] != '@';
    }
    assert e[6..][1..|e[6..]| - 1] == "ail";
    EmailCheckMatchesPattern(e);
  }

  /** Length is measured on the untrimmed password, so spaces around four
      letters make it long enough: with the other fields in order, the padded
      password is accepted. */
  lemma PaddedPasswordAccepted(f: RegisterForm)
    requires f.password == f.confirmPassword == " abcd "
    requires !IsBlank(f.name) && !IsBlank(f.email) && !IsBlank(f.phone) && MatchesEmailPattern(f.email)
    ensures ValidateForm(f) == Valid
  {
    assert !IsWhiteSpace(f.password[1]);
    EmailCheckMatchesPattern(f.email);
  }

  /** The email is tested as typed: white space anywhere in it, including
      leading or trailing padding that trimming would remove, fails the
      pattern once the earlier checks pass. */
  lemma EmailTestedUntrimmed(f: RegisterForm)
    requires !NoWhiteSpace(f.email)
    requires !HasBlankRequiredField(f) && f.password == f.confirmPassword && Utf16Length(f.password) >= 6
    ensures ValidateForm(f) == Invalid(InvalidEmail)
  {
    FirstFailingCheckDecides(f);
    EmailCheckMatchesPattern(f.email);
  }
}
