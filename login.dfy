/**
  The sign-in form's validator, `validateForm`: one message per field (empty
  when the field is acceptable) and an overall verdict. The email must be
  present and contain a match of the unanchored pattern `\S+@\S+\.\S+`; the
  password must be present and at least six characters long.
*/
module Login {

  const EmailRequired: string := "Email is required"
  const InvalidEmailFormat: string := "Invalid email format"
  const PasswordRequired: string := "Password is required"
  const PasswordTooShort: string := "Password must be at least 6 characters"
  const MinPasswordLength: nat := 6

  /** The messages shown under the two fields; "" means no message. */
  datatype Errors = Errors(email: string, password: string)

  /** The characters JavaScript's `\s` class matches: ASCII tab, line feed, vertical tab,
      form feed, carriage return and space, and the Unicode space separators, line and
      paragraph separators and the byte-order mark. */
  predicate IsSpace(ch: char) {
    || ch == '\t' || ch == '\n' || ch == '\U{000B}' || ch == '\U{000C}' || ch == '\r' || ch == ' '
    || ch == '\U{00A0}' || ch == '\U{1680}' || ('\U{2000}' <= ch <= '\U{200A}')
    || ch == '\U{2028}' || ch == '\U{2029}' || ch == '\U{202F}' || ch == '\U{205F}'
    || ch == '\U{3000}' || ch == '\U{FEFF}'
  }

  // ----- The pattern, as a regular expression -----

  /** No whitespace in `s[i..j]`. */
  predicate SpaceFree(s: string, i: int, j: int)
    requires 0 <= i <= j <= |s|
  {
    forall k | i <= k < j :: !IsSpace(s[k])
  }

  /** `s[i..j]` is a match of `\S+`: non-empty, with no whitespace in it. */
  ghost predicate NonSpaceRun(s: string, i: int, j: int) {
    0 <= i < j <= |s| && SpaceFree(s, i, j)
  }

  /** `s[a..z]` splits as a run of non-space characters, '@' at `at`, a run, '.' at `dot`,
      and a run. */
  ghost predicate MatchAt(s: string, a: int, at: int, dot: int, z: int) {
    && NonSpaceRun(s, a, at) && at < |s| && s[at] == '@'
    && NonSpaceRun(s, at + 1, dot) && dot < |s| && s[dot] == '.'
    && NonSpaceRun(s, dot + 1, z)
  }

  /** `/\S+@\S+\.\S+/.test(s)`: some substring of `s` matches the pattern. */
  ghost predicate PatternMatches(s: string) {
    exists a, at, dot, z :: MatchAt(s, a, at, dot, z)
  }

  /** The core of a match: '@' at `at` with a non-space character before it, '.' at `dot`
      with at least one character between them and none of them a space, and a non-space
      character after it. */
  predicate ShapeAt(s: string, at: int, dot: int) {
    && 1 <= at && at + 2 <= dot < |s| - 1
    && s[at] == '@' && s[dot] == '.'
    && SpaceFree(s, at - 1, at) && SpaceFree(s, at + 1, dot) && SpaceFree(s, dot + 1, dot + 2)
  }

  /** An executable test for the pattern: some match core occurs. Every match can be shrunk
      to such a core. */
  predicate EmailShape(s: string) {
    exists at, dot | 0 <= at < |s| && 0 <= dot < |s| :: ShapeAt(s, at, dot)
  }

  /** The executable test accepts exactly the strings the pattern matches. */
  lemma EmailShapeIsPattern(s: string)
    ensures EmailShape(s) <==> PatternMatches(s)
  {
    if EmailShape(s) {
      var at, dot :| 0 <= at < |s| && 0 <= dot < |s| && ShapeAt(s, at, dot);
      assert MatchAt(s, at - 1, at, dot, dot + 2);
    }
    if PatternMatches(s) {
      var a, at, dot, z :| MatchAt(s, a, at, dot, z);
      assert SpaceFree(s, at - 1, at) && SpaceFree(s, at + 1, dot) && SpaceFree(s, dot + 1, dot + 2);
      assert ShapeAt(s, at, dot);
    }
  }

  // ----- The messages -----

  /** The email field's message: required first, then the format. */
  ghost function EmailError(email: string): (m: string)
    ensures m == "" <==> email != "" && PatternMatches(email)
  {
    if email == "" then EmailRequired
    else if !PatternMatches(email) then InvalidEmailFormat
    else ""
  }

  /** The password field's message: required first, then the length. */
  function PasswordError(password: string): (m: string)
    ensures m == "" <==> |password| >= MinPasswordLength
  {
    if password == "" then PasswordRequired
    else if |password| < MinPasswordLength then PasswordTooShort
    else ""
  }

  /** Both messages; each field is judged on its own. */
  ghost function FormErrors(email: string, password: string): Errors {
    Errors(EmailError(email), PasswordError(password))
  }

  /** `validateForm`: builds the messages field by field and clears the flag on each failure. */
  method ValidateForm(email: string, password: string) returns (errors: Errors, isValid: bool)
    ensures errors == FormErrors(email, password)
    ensures isValid <==> errors == Errors("", "")
    ensures isValid <==> email != "" && PatternMatches(email) && |password| >= MinPasswordLength
  {
    EmailShapeIsPattern(email);
    errors := Errors("", "");
    isValid := true;

    if email == "" {
      errors := errors.(email := EmailRequired);
      isValid := false;
    } else if !EmailShape(email) {
      errors := errors.(email := InvalidEmailFormat);
      isValid := false;
    }

    if password == "" {
      errors := errors.(password := PasswordRequired);
      isValid := false;
    } else if |password| < MinPasswordLength {
      errors := errors.(password := PasswordTooShort);
      isValid := false;
    }
  }

  // ----- Properties -----

  /** Each message is one of the fixed texts for its field, and the "required" text wins
      over the format (length) text. */
  lemma MessagesPerField(email: string, password: string)
    ensures FormErrors(email, password).email == "" || FormErrors(email, password).email == EmailRequired
         || FormErrors(email, password).email == InvalidEmailFormat
    ensures FormErrors(email, password).password == "" || FormErrors(email, password).password == PasswordRequired
         || FormErrors(email, password).password == PasswordTooShort
    ensures email == "" <==> FormErrors(email, password).email == EmailRequired
    ensures password == "" <==> FormErrors(email, password).password == PasswordRequired
  {
  }

  /** The email message does not depend on the password, nor the password message on the
      email, so both failures are reported together. */
  lemma FieldsIndependent(email: string, email': string, password: string, password': string)
    ensures FormErrors(email, password).email == FormErrors(email, password').email
    ensures FormErrors(email, password).password == FormErrors(email', password).password
  {
  }

  /** The characters of `s` sit unchanged in the middle of `before + s + after`. */
  lemma MiddleOf(before: string, s: string, after: string)
    ensures forall k :: 0 <= k < |s| ==> (before + s + after)[|before| + k] == s[k]
  {
  }

  /** The pattern is unanchored: text around a match does not matter. */
  lemma PatternUnanchored(s: string, before: string, after: string)
    requires PatternMatches(s)
    ensures PatternMatches(before + s + after)
  {
    var a, at, dot, z :| MatchAt(s, a, at, dot, z);
    var t, n := before + s + after, |before|;
    MiddleOf(before, s, after);
    assert MatchAt(t, n + a, n + at, n + dot, n + z);
  }

  /** What a match says about the characters next to the '@' and the '.'. */
  lemma MatchFacts(s: string, a: int, at: int, dot: int, z: int)
    requires MatchAt(s, a, at, dot, z)
    ensures 1 <= at && at + 2 <= dot && dot + 1 < |s|
    ensures s[at] == '@' && s[dot] == '.'
    ensures !IsSpace(s[at - 1]) && !IsSpace(s[at + 1]) && !IsSpace(s[dot + 1])
  {
  }

  /** Without a '.' there is no match. */
  lemma NoDotNoMatch(s: string)
    requires forall k | 0 <= k < |s| :: s[k] != '.'
    ensures !PatternMatches(s)
  {
  }

  /** A '.' straight after the '@' leaves the middle run empty. */
  lemma EmptyDomainRejected()
    ensures !PatternMatches("ana@.org")
  {
  }

  /** A space just before the '@' leaves the first run empty. */
  lemma SpaceBeforeAtRejected()
    ensures !PatternMatches("ana @uni.org")
  {
    var s := "ana @uni.org";
    if PatternMatches(s) {
      var a, at, dot, z :| MatchAt(s, a, at, dot, z);
      MatchFacts(s, a, at, dot, z);
    }
  }

  /** One character in each run is enough. */
  lemma ShortestAccepted()
    ensures PatternMatches("a@b.c")
  {
    assert MatchAt("a@b.c", 0, 1, 3, 5);
  }

  /** An address inside a sentence is accepted. */
  lemma SurroundedAccepted()
    ensures PatternMatches("mail: a@b.c, please")
  {
    assert MatchAt("mail: a@b.c, please", 6, 7, 9, 11);
  }

  /** A dotted domain: the first '.' after the '@' is enough. */
  lemma DottedDomainAccepted()
    ensures PatternMatches("ana@uni.example.org")
  {
    assert MatchAt("ana@uni.example.org", 0, 3, 7, 9);
  }

  /** Accepted: a shortest address, one with text around it and one with a dotted domain;
      rejected: no '.', an empty domain label, a space before the '@'. */
  lemma PatternExamples()
    ensures PatternMatches("a@b.c")
    ensures PatternMatches("mail: a@b.c, please")
    ensures PatternMatches("ana@uni.example.org")
    ensures !PatternMatches("ana@uni")
    ensures !PatternMatches("ana@.org")
    ensures !PatternMatches("ana @uni.org")
  {
    ShortestAccepted();
    SurroundedAccepted();
    DottedDomainAccepted();
    NoDotNoMatch("ana@uni");
    EmptyDomainRejected();
    SpaceBeforeAtRejected();
  }

  /** Concrete verdicts: an empty form gets both "required" messages; a malformed email and
      a short password get both format messages; six spaces are an acceptable password. */
  lemma FormExamples()
    ensures FormErrors("", "") == Errors(EmailRequired, PasswordRequired)
    ensures FormErrors("ana@uni", "12345") == Errors(InvalidEmailFormat, PasswordTooShort)
    ensures FormErrors("a@b.c", "      ") == Errors("", "")
  {
    PatternExamples();
  }
}
