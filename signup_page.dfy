/** The checks the sign-up page runs on its form before it sends the sign-up
    request. Each regular expression is a character class repeated a bounded
    number of times, or (for the e-mail address) three such runs around an
    at sign and a dot. */
module SignUpPage {
  import opened Web
  import Js

  datatype SignUpForm = SignUpForm(
    fName: string, lName: string, email: string, phone: string,
    pass: string, cnic: string, uName: string)

  predicate IsAsciiLetter(c: char) {
    ('a' <= c <= 'z') || ('A' <= c <= 'Z')
  }

  predicate IsAsciiDigit(c: char) {
    '0' <= c <= '9'
  }

  /** The bracketed classes of the page's regular expressions. */
  datatype CharClass =
    | NameChars       // [a-zA-Z\s]
    | Digits          // [0-9]
    | UsernameChars   // [a-zA-Z0-9_]
    | EmailChars      // [^\s@]

  predicate InClass(c: char, k: CharClass) {
    match k
    case NameChars => IsAsciiLetter(c) || Js.IsWhitespace(c)
    case Digits => IsAsciiDigit(c)
    case UsernameChars => IsAsciiLetter(c) || IsAsciiDigit(c) || c == '_'
    case EmailChars => c != '@' && !Js.IsWhitespace(c)
  }

  predicate AllIn(s: string, k: CharClass) {
    forall i :: 0 <= i < |s| ==> InClass(s[i], k)
  }

  /** `^[k]{lo,hi}$`, read the way a regular-expression matcher reads it:
      consume one character of the class at a time, counting down both bounds. */
  predicate RepeatMatches(s: string, k: CharClass, lo: nat, hi: nat)
    decreases |s|
  {
    if s == [] then lo == 0
    else 0 < hi && InClass(s[0], k) && RepeatMatches(s[1..], k, if lo == 0 then 0 else lo - 1, hi - 1)
  }

  /** A bounded repetition of a class matches exactly the strings of the class
      whose length lies within the bounds. */
  lemma {:induction false} RepeatMatchesIff(s: string, k: CharClass, lo: nat, hi: nat)
    ensures RepeatMatches(s, k, lo, hi) <==> lo <= |s| <= hi && AllIn(s, k)
    decreases |s|
  {
    if s != [] && 0 < hi {
      var lo' := if lo == 0 then 0 else lo - 1;
      RepeatMatchesIff(s[1..], k, lo', hi - 1);
      assert AllIn(s, k) <==> InClass(s[0], k) && AllIn(s[1..], k) by {
        if InClass(s[0], k) && AllIn(s[1..], k) {
          forall i | 0 <= i < |s| ensures InClass(s[i], k) {
            if i > 0 { assert s[i] == s[1..][i - 1]; }
          }
        }
        if AllIn(s, k) {
          forall i | 0 <= i < |s[1..]| ensures InClass(s[1..][i], k) {
            assert s[1..][i] == s[i + 1];
          }
        }
      }
    }
  }

  /** `nameRegex`: letters and whitespace only, 2 to 50 characters. */
  predicate ValidName(s: string) {
    2 <= |s| <= 50 && AllIn(s, NameChars)
  }

  /** `phoneRegex`: 10 to 15 digits. */
  predicate ValidPhone(s: string) {
    10 <= |s| <= 15 && AllIn(s, Digits)
  }

  /** `cnicRegex`: 13 to 15 digits. */
  predicate ValidCnic(s: string) {
    13 <= |s| <= 15 && AllIn(s, Digits)
  }

  /** `usernameRegex`: letters, digits and underscores, 3 to 30 characters. */
  predicate ValidUsername(s: string) {
    3 <= |s| <= 30 && AllIn(s, UsernameChars)
  }

  lemma NameIsRegex(s: string)
    ensures ValidName(s) <==> RepeatMatches(s, NameChars, 2, 50)
  {
    RepeatMatchesIff(s, NameChars, 2, 50);
  }

  lemma PhoneIsRegex(s: string)
    ensures ValidPhone(s) <==> RepeatMatches(s, Digits, 10, 15)
  {
    RepeatMatchesIff(s, Digits, 10, 15);
  }

  lemma CnicIsRegex(s: string)
    ensures ValidCnic(s) <==> RepeatMatches(s, Digits, 13, 15)
  {
    RepeatMatchesIff(s, Digits, 13, 15);
  }

  lemma UsernameIsRegex(s: string)
    ensures ValidUsername(s) <==> RepeatMatches(s, UsernameChars, 3, 30)
  {
    RepeatMatchesIff(s, UsernameChars, 3, 30);
  }

  /** The index of the first `c` in `s`, or `|s|` when there is none. */
  function IndexOf(s: string, c: char): (k: nat)
    ensures k <= |s|
    ensures k < |s| ==> s[k] == c
    ensures forall j :: 0 <= j < k ==> s[j] != c
    decreases |s|
  {
    if s == [] then 0
    else if s[0] == c then 0
    else 1 + IndexOf(s[1..], c)
  }

  /** The part after the at sign: no whitespace or at sign, and a dot with at
      least one character on each side of it. */
  predicate ValidDomain(d: string) {
    3 <= |d| && AllIn(d, EmailChars) && '.' in d[1..|d| - 1]
  }

  /** `emailRegex`, decided by splitting at the first at sign. */
  predicate ValidEmail(s: string) {
    var at := IndexOf(s, '@');
    0 < at < |s| && AllIn(s[..at], EmailChars) && ValidDomain(s[at + 1..])
  }

  /** `^[^\s@]+@[^\s@]+\.[^\s@]+$` matched with the at sign at `i` and the
      dot at `j`: three non-empty runs of the class around them. */
  ghost predicate EmailSplit(s: string, i: int, j: int) {
    && 0 < i && i + 1 < j && j + 1 < |s|
    && s[i] == '@' && s[j] == '.'
    && AllIn(s[..i], EmailChars) && AllIn(s[i + 1..j], EmailChars) && AllIn(s[j + 1..], EmailChars)
  }

  lemma AllInSlice(s: string, k: CharClass, a: int, b: int)
    requires 0 <= a <= b <= |s| && AllIn(s, k)
    ensures AllIn(s[a..b], k)
  {
    forall i | 0 <= i < b - a ensures InClass(s[a..b][i], k) {
      assert s[a..b][i] == s[a + i];
    }
  }

  /** The split-at-the-first-at-sign check accepts exactly the addresses the
      regular expression matches. */
  lemma ValidEmailIsRegex(s: string)
    ensures ValidEmail(s) <==> exists i, j :: EmailSplit(s, i, j)
  {
    if ValidEmail(s) {
      var at := IndexOf(s, '@');
      var d := s[at + 1..];
      var inner := d[1..|d| - 1];
      var m :| 0 <= m < |inner| && inner[m] == '.';
      var j := at + 2 + m;
      assert s[j] == d[m + 1] == '.';
      AllInSlice(d, EmailChars, 0, m + 1);
      assert s[at + 1..j] == d[..m + 1];
      AllInSlice(d, EmailChars, m + 2, |d|);
      assert s[j + 1..] == d[m + 2..];
      assert EmailSplit(s, at, j);
    }
    if exists i, j :: EmailSplit(s, i, j) {
      var i, j :| EmailSplit(s, i, j);
      var at := IndexOf(s, '@');
      forall x | 0 <= x < i ensures s[x] != '@' {
        assert s[x] == s[..i][x];
      }
      assert at == i;
      var d := s[i + 1..];
      forall x | 0 <= x < |d| ensures InClass(d[x], EmailChars) {
        if x < j - i - 1 {
          assert d[x] == s[i + 1..j][x];
        } else if x > j - i - 1 {
          assert d[x] == s[j + 1..][x - (j - i)];
        }
      }
      assert d[1..|d| - 1][j - i - 2] == '.';
    }
  }

  /** The password only has to be non-empty (`!pass` is false). */
  predicate ValidPassword(s: string) {
    s != ""
  }

  /** The page's refusals, one per check. */
  datatype FormError =
    | FirstNameInvalid | LastNameInvalid | EmailInvalid | PhoneInvalid
    | CnicInvalid | UsernameInvalid | PasswordEmpty

  /** The position of each check in the order `handleSubmit` runs them. */
  function Rank(e: FormError): nat {
    match e
    case FirstNameInvalid => 0
    case LastNameInvalid => 1
    case EmailInvalid => 2
    case PhoneInvalid => 3
    case CnicInvalid => 4
    case UsernameInvalid => 5
    case PasswordEmpty => 6
  }

  /** Check `e` is satisfied by the form. */
  predicate Passes(f: SignUpForm, e: FormError) {
    match e
    case FirstNameInvalid => ValidName(f.fName)
    case LastNameInvalid => ValidName(f.lName)
    case EmailInvalid => ValidEmail(f.email)
    case PhoneInvalid => ValidPhone(f.phone)
    case CnicInvalid => ValidCnic(f.cnic)
    case UsernameInvalid => ValidUsername(f.uName)
    case PasswordEmpty => ValidPassword(f.pass)
  }

  /** The text `setError` shows for each refusal. */
  function Message(e: FormError): string {
    match e
    case FirstNameInvalid => "First Name must be 2-50 characters long and contain only letters and spaces."
    case LastNameInvalid => "Last Name must be 2-50 characters long and contain only letters and spaces."
    case EmailInvalid => "Please enter a valid email address."
    case PhoneInvalid => "Phone number must be 10-15 digits long and contain only numbers."
    case CnicInvalid => "CNIC must be 13-15 digits long and contain only numbers."
    case UsernameInvalid => "Username must be 3-30 characters long and can only contain letters, numbers, and underscores."
    case PasswordEmpty => "Password cannot be empty."
  }

  /** A form passes every check exactly when it passes all seven named ones. */
  lemma PassesEveryCheck(f: SignUpForm)
    ensures (forall e :: Passes(f, e)) <==>
      && ValidName(f.fName) && ValidName(f.lName) && ValidEmail(f.email) && ValidPhone(f.phone)
      && ValidCnic(f.cnic) && ValidUsername(f.uName) && ValidPassword(f.pass)
  {
    if forall e :: Passes(f, e) {
      assert Passes(f, FirstNameInvalid) && Passes(f, LastNameInvalid) && Passes(f, EmailInvalid);
      assert Passes(f, PhoneInvalid) && Passes(f, CnicInvalid) && Passes(f, UsernameInvalid);
      assert Passes(f, PasswordEmpty);
    }
  }

  /** The chain of early returns in `handleSubmit`: the first failing check,
      in `Rank` order, decides the refusal; `None` when every check passes. */
  function FirstError(f: SignUpForm): (r: Option<FormError>)
    ensures r.None? <==> forall e :: Passes(f, e)
    ensures r.Some? ==> !Passes(f, r.value) && forall e :: Rank(e) < Rank(r.value) ==> Passes(f, e)
  {
    PassesEveryCheck(f);
    if !ValidName(f.fName) then Some(FirstNameInvalid)
    else if !ValidName(f.lName) then Some(LastNameInvalid)
    else if !ValidEmail(f.email) then Some(EmailInvalid)
    else if !ValidPhone(f.phone) then Some(PhoneInvalid)
    else if !ValidCnic(f.cnic) then Some(CnicInvalid)
    else if !ValidUsername(f.uName) then Some(UsernameInvalid)
    else if !ValidPassword(f.pass) then Some(PasswordEmpty)
    else None
  }

  /** What submitting the form does: show an error, or send the sign-up
      request with the form and the chosen role. */
  datatype Submission = ShowError(message: string) | SendSignup(form: SignUpForm, role: string)

  /** `handleSubmit`: the request is sent only when every check passes, and
      then it carries the form unchanged. */
  function Submit(f: SignUpForm, role: string): (r: Submission)
    ensures r.SendSignup? <==> forall e :: Passes(f, e)
    ensures r.SendSignup? ==> r == SendSignup(f, role)
    ensures r.ShowError? ==> FirstError(f).Some? && r.message == Message(FirstError(f).value)
  {
    match FirstError(f)
    case Some(e) => ShowError(Message(e))
    case None => SendSignup(f, role)
  }
}
