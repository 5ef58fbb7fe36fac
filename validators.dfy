/** The two input validators of the registration form. Each is total: it
    always returns a verdict, a flag together with the message the caller
    shows, and it reports the first rule that the input breaks. */
module Validators {

  /** The (flag, message) pair both validators return. */
  datatype Verdict = Verdict(ok: bool, message: string)

  // ---------------------------------------------------------------------
  // Character classes of the regular expressions (ASCII only)
  // ---------------------------------------------------------------------

  predicate IsUpper(c: char) { 'A' <= c <= 'Z' }
  predicate IsLower(c: char) { 'a' <= c <= 'z' }
  predicate IsDigit(c: char) { '0' <= c <= '9' }
  predicate IsLetter(c: char) { IsUpper(c) || IsLower(c) }
  predicate IsWordChar(c: char) { IsLetter(c) || IsDigit(c) || c == '_' }

  /** The bracket class of the special-character rule. */
  const SpecialChars: set<char> :=
    {'!', '@', '#', '$', '%', '^', '&', '*', '(', ')', ',', '.', '?', '"', ':', '{', '}', '|', '<', '>'}

  predicate IsSpecial(c: char) { c in SpecialChars }

  /** The four character classes the password rules search for. */
  datatype CharClass = Upper | Lower | Digit | Special

  predicate InClass(c: char, k: CharClass) {
    match k
    case Upper => IsUpper(c)
    case Lower => IsLower(c)
    case Digit => IsDigit(c)
    case Special => IsSpecial(c)
  }

  /** A regular-expression search for one character of class k: the string is
      scanned from the left until such a character turns up. */
  function Search(s: string, k: CharClass): (found: bool)
    ensures found <==> exists i :: 0 <= i < |s| && InClass(s[i], k)
  {
    if s == [] then false
    else if InClass(s[0], k) then true
    else
      var rest := Search(s[1..], k);
      assert forall i :: 1 <= i < |s| ==> s[i] == s[1..][i - 1];
      rest
  }

  // ---------------------------------------------------------------------
  // Password
  // ---------------------------------------------------------------------

  const MinPasswordLength: int := 8

  /** The five password rules, in the order in which they are checked. */
  datatype PasswordRule = MinLength | HasUpper | HasLower | HasDigit | HasSpecial

  const PasswordRules: seq<PasswordRule> := [MinLength, HasUpper, HasLower, HasDigit, HasSpecial]

  /** What each rule demands of the whole password. */
  predicate Holds(p: string, rule: PasswordRule) {
    match rule
    case MinLength => |p| >= MinPasswordLength
    case HasUpper => exists i :: 0 <= i < |p| && IsUpper(p[i])
    case HasLower => exists i :: 0 <= i < |p| && IsLower(p[i])
    case HasDigit => exists i :: 0 <= i < |p| && IsDigit(p[i])
    case HasSpecial => exists i :: 0 <= i < |p| && IsSpecial(p[i])
  }

  /** Rule number i (in checking order) is the first one p breaks. */
  predicate FailsFirstAt(p: string, i: int)
    requires 0 <= i < |PasswordRules|
  {
    !Holds(p, PasswordRules[i]) && forall j :: 0 <= j < i ==> Holds(p, PasswordRules[j])
  }

  function FailureMessage(rule: PasswordRule): string {
    match rule
    case MinLength => "Mật khẩu phải có ít nhất 8 ký tự"
    case HasUpper => "Mật khẩu phải chứa ít nhất 1 chữ hoa"
    case HasLower => "Mật khẩu phải chứa ít nhất 1 chữ thường"
    case HasDigit => "Mật khẩu phải chứa ít nhất 1 số"
    case HasSpecial => "Mật khẩu phải chứa ít nhất 1 ký tự đặc biệt"
  }

  const PasswordAccepted: string := "Mật khẩu hợp lệ"

  /** The password check: length first, then an upper-case letter, a
      lower-case letter, a digit and a special character, each an early
      return with its own message. */
  function ValidatePassword(p: string): (r: Verdict)
    ensures r.ok <==> forall i :: 0 <= i < |PasswordRules| ==> Holds(p, PasswordRules[i])
    ensures r.ok ==> r.message == PasswordAccepted
    ensures forall i :: 0 <= i < |PasswordRules| ==>
              (r == Verdict(false, FailureMessage(PasswordRules[i])) <==> FailsFirstAt(p, i))
    ensures |p| < MinPasswordLength ==> r == Verdict(false, FailureMessage(MinLength))
  {
    assert PasswordRules[0] == MinLength && PasswordRules[1] == HasUpper && PasswordRules[2] == HasLower
      && PasswordRules[3] == HasDigit && PasswordRules[4] == HasSpecial;
    if |p| < MinPasswordLength then Verdict(false, FailureMessage(MinLength))
    else if !Search(p, Upper) then Verdict(false, FailureMessage(HasUpper))
    else if !Search(p, Lower) then Verdict(false, FailureMessage(HasLower))
    else if !Search(p, Digit) then Verdict(false, FailureMessage(HasDigit))
    else if !Search(p, Special) then Verdict(false, FailureMessage(HasSpecial))
    else Verdict(true, PasswordAccepted)
  }

  // ---------------------------------------------------------------------
  // Username
  // ---------------------------------------------------------------------

  const MinUsernameLength: int := 3
  const MaxUsernameLength: int := 20

  const UsernameLengthMessage: string := "Username phải có độ dài từ 3-20 ký tự"
  const UsernamePatternMessage: string :=
    "Username chỉ được chứa chữ cái, số và dấu gạch dưới, và phải bắt đầu bằng chữ cái"
  const UsernameAccepted: string := "Username hợp lệ"

  /** Every character of s is a letter, a digit or an underscore. */
  function WordCharsOnly(s: string): (b: bool)
    ensures b <==> forall i :: 0 <= i < |s| ==> IsWordChar(s[i])
  {
    if s == [] then true
    else
      var rest := WordCharsOnly(s[1..]);
      assert forall i :: 1 <= i < |s| ==> s[i] == s[1..][i - 1];
      IsWordChar(s[0]) && rest
  }

  /** The pattern letter-then-word-characters, matched against the whole string. */
  function FullMatchUsername(s: string): (m: bool)
    ensures m <==> |s| > 0 && IsLetter(s[0]) && forall i :: 1 <= i < |s| ==> IsWordChar(s[i])
  {
    |s| > 0 && IsLetter(s[0]) && WordCharsOnly(s[1..])
  }

  /** Python's `$` holds at position k of s: at the end of the string, or
      just before a newline that is its last character. */
  predicate EndAnchorAt(s: string, k: int) {
    k == |s| || (k == |s| - 1 && 0 <= k && s[k] == '\n')
  }

  /** re.match of the pattern consumes s[..k]: a letter, then letters, digits
      or `_`, and `$` holds where the consumed prefix ends. */
  predicate MatchesUpTo(s: string, k: int) {
    && 0 < k <= |s|
    && EndAnchorAt(s, k)
    && IsLetter(s[0])
    && forall i :: 1 <= i < k ==> IsWordChar(s[i])
  }

  /** The same pattern under Python's re.match, tried on the whole string and
      on the string without one final newline. */
  function PythonMatchUsername(s: string): (m: bool)
    ensures m <==> exists k :: MatchesUpTo(s, k)
  {
    if FullMatchUsername(s) then
      assert MatchesUpTo(s, |s|);
      true
    else if |s| > 0 && s[|s| - 1] == '\n' && FullMatchUsername(s[..|s| - 1]) then
      assert MatchesUpTo(s, |s| - 1);
      true
    else
      assert forall k :: MatchesUpTo(s, k) ==> k == |s| || k == |s| - 1;
      false
  }

  /** The username check as written: length, then re.match of the pattern. */
  function ValidateUsernameAsWritten(s: string): (r: Verdict)
    ensures !(MinUsernameLength <= |s| <= MaxUsernameLength) ==> r == Verdict(false, UsernameLengthMessage)
    ensures r.ok <==> MinUsernameLength <= |s| <= MaxUsernameLength && PythonMatchUsername(s)
    ensures MinUsernameLength <= |s| <= MaxUsernameLength && !r.ok ==> r.message == UsernamePatternMessage
    ensures r.ok ==> r.message == UsernameAccepted
  {
    if !(MinUsernameLength <= |s| <= MaxUsernameLength) then Verdict(false, UsernameLengthMessage)
    else if !PythonMatchUsername(s) then Verdict(false, UsernamePatternMessage)
    else Verdict(true, UsernameAccepted)
  }

  /** The username check with the pattern matched against the whole string:
      3 to 20 characters, a letter first, then letters, digits or `_`. */
  function ValidateUsername(s: string): (r: Verdict)
    ensures !(MinUsernameLength <= |s| <= MaxUsernameLength) ==> r == Verdict(false, UsernameLengthMessage)
    ensures r.ok <==>
              && MinUsernameLength <= |s| <= MaxUsernameLength
              && IsLetter(s[0])
              && forall i :: 1 <= i < |s| ==> IsWordChar(s[i])
    ensures MinUsernameLength <= |s| <= MaxUsernameLength && !r.ok ==> r.message == UsernamePatternMessage
    ensures r.ok ==> r.message == UsernameAccepted
  {
    if !(MinUsernameLength <= |s| <= MaxUsernameLength) then Verdict(false, UsernameLengthMessage)
    else if !FullMatchUsername(s) then Verdict(false, UsernamePatternMessage)
    else Verdict(true, UsernameAccepted)
  }

  /** The check as written accepts a name that ends in a newline. */
  lemma TrailingNewlineAccepted()
    ensures ValidateUsernameAsWritten("abc\n") == Verdict(true, UsernameAccepted)
    ensures ValidateUsername("abc\n") == Verdict(false, UsernamePatternMessage)
  {
    assert FullMatchUsername("abc");
    assert !IsWordChar("abc\n"[3]);
  }

  /** The two username checks disagree exactly on names of valid length that
      are a well-formed name followed by one newline; on those the check as
      written says yes and the full match says no. */
  lemma AsWrittenDiffersOnlyOnTrailingNewline(s: string)
    ensures ValidateUsernameAsWritten(s) != ValidateUsername(s) <==>
              && MinUsernameLength <= |s| <= MaxUsernameLength
              && s[|s| - 1] == '\n'
              && FullMatchUsername(s[..|s| - 1])
    ensures ValidateUsernameAsWritten(s) != ValidateUsername(s) ==>
              ValidateUsernameAsWritten(s).ok && !ValidateUsername(s).ok
  {
    if MinUsernameLength <= |s| <= MaxUsernameLength && s[|s| - 1] == '\n' {
      assert !IsWordChar(s[|s| - 1]);
      assert !FullMatchUsername(s);
    }
  }
}
