/** The field checks of the public lead form, applied in a fixed order:
    required fields, then the phone, then the email. */
module LeadValidation {
  import opened Js

  predicate IsAsciiDigit(c: char) {
    '0' <= c <= '9'
  }

  /** The phone pattern `^[0-9]{10}$`: exactly ten ASCII digits. */
  predicate PhoneOk(s: string) {
    |s| == 10 && forall i :: 0 <= i < |s| ==> IsAsciiDigit(s[i])
  }

  /** The class `[^\s@]`. */
  predicate EmailChar(c: char) {
    c != '@' && !IsSpace(c)
  }

  /** The run `[^\s@]+`. */
  predicate EmailRun(s: string) {
    |s| > 0 && forall i :: 0 <= i < |s| ==> EmailChar(s[i])
  }

  /** `s` matches `^[^\s@]+@[^\s@]+\.[^\s@]+$` with the `@` at index `at`
      and the literal `.` at index `dot`. */
  ghost predicate EmailMatchAt(s: string, at: int, dot: int) {
    0 <= at < dot < |s| &&
    EmailRun(s[..at]) && s[at] == '@' &&
    EmailRun(s[at + 1..dot]) && s[dot] == '.' &&
    EmailRun(s[dot + 1..])
  }

  /** The email pattern `^[^\s@]+@[^\s@]+\.[^\s@]+$`, as the regular
      expression defines it: some split of `s` matches. */
  ghost predicate EmailMatches(s: string) {
    exists at, dot :: EmailMatchAt(s, at, dot)
  }

  function CountOf(s: string, c: char): nat {
    if s == [] then 0 else (if s[0] == c then 1 else 0) + CountOf(s[1..], c)
  }

  /** The shape check the email pattern amounts to: no whitespace, exactly
      one `@`, a non-empty part before it, and a `.` after it with at least
      one character on each side. */
  function EmailShapeOk(s: string): bool {
    var at := IndexOf(s, '@');
    (forall i :: 0 <= i < |s| ==> !IsSpace(s[i])) &&
    CountOf(s, '@') == 1 && 0 < at < |s| &&
    (var domain := s[at + 1..]; |domain| >= 3 && '.' in domain[1..|domain| - 1])
  }

  lemma {:induction false} CountOfOne(s: string, c: char, k: nat)
    requires k < |s| && s[k] == c
    ensures CountOf(s, c) == 1 <==> forall i :: 0 <= i < |s| && i != k ==> s[i] != c
  {
    if k == 0 {
      CountOfZero(s[1..], c);
      assert forall i :: 1 <= i < |s| ==> s[i] == s[1..][i - 1];
    } else {
      CountOfOne(s[1..], c, k - 1);
      assert forall i :: 1 <= i < |s| ==> s[i] == s[1..][i - 1];
      if s[0] == c {
        CountOfPositive(s[1..], c, k - 1);
      }
    }
  }

  lemma {:induction false} CountOfZero(s: string, c: char)
    ensures CountOf(s, c) == 0 <==> forall i :: 0 <= i < |s| ==> s[i] != c
  {
    if s != [] {
      CountOfZero(s[1..], c);
      assert forall i :: 1 <= i < |s| ==> s[i] == s[1..][i - 1];
    }
  }

  lemma {:induction false} CountOfPositive(s: string, c: char, k: nat)
    requires k < |s| && s[k] == c
    ensures CountOf(s, c) > 0
  {
    if k > 0 {
      CountOfPositive(s[1..], c, k - 1);
    }
  }

  /** The shape check accepts exactly the strings the email pattern matches. */
  lemma EmailShapeIffMatches(s: string)
    ensures EmailShapeOk(s) <==> EmailMatches(s)
  {
    if EmailShapeOk(s) {
      ShapeGivesMatch(s);
    }
    if EmailMatches(s) {
      var at, dot :| EmailMatchAt(s, at, dot);
      MatchGivesShape(s, at, dot);
    }
  }

  lemma ShapeGivesMatch(s: string)
    requires EmailShapeOk(s)
    ensures EmailMatches(s)
  {
    var at := IndexOf(s, '@');
    var domain := s[at + 1..];
    CountOfOne(s, '@', at);
    var k :| 0 <= k < |domain[1..|domain| - 1]| && domain[1..|domain| - 1][k] == '.';
    var dot := at + 2 + k;
    assert s[dot] == '.';
    assert forall i :: 0 <= i < |s| && i != at ==> EmailChar(s[i]);
    assert EmailRun(s[..at]);
    assert EmailRun(s[at + 1..dot]);
    assert EmailRun(s[dot + 1..]);
    assert EmailMatchAt(s, at, dot);
  }

  lemma MatchGivesShape(s: string, at: int, dot: int)
    requires EmailMatchAt(s, at, dot)
    ensures EmailShapeOk(s)
  {
    assert forall i :: 0 <= i < at ==> s[i] == s[..at][i];
    assert forall i :: at < i < dot ==> s[i] == s[at + 1..dot][i - at - 1];
    assert forall i :: dot < i < |s| ==> s[i] == s[dot + 1..][i - dot - 1];
    assert forall i :: 0 <= i < |s| && i != at ==> s[i] != '@';
    assert IndexOf(s, '@') == at;
    CountOfOne(s, '@', at);
    var domain := s[at + 1..];
    assert domain[1..|domain| - 1][dot - at - 2] == '.';
  }

  /** Why a lead submission is refused before the table is consulted. */
  datatype LeadError = MissingRequired | BadPhone | BadEmail {
    function Message(): string {
      match this
      case MissingRequired => "Name, phone, and email are required."
      case BadPhone => "Phone must be exactly 10 digits."
      case BadEmail => "Invalid email format."
    }
  }

  /** The three checks of the lead form, in order; `None` when all pass.
      Each error is reported exactly when every earlier check passed and its
      own check fails. */
  function ValidateLead(name: Field, phone: Field, email: Field): (r: Option<LeadError>)
    ensures r == Some(MissingRequired) <==> !Truthy(name) || !Truthy(phone) || !Truthy(email)
    ensures r == Some(BadPhone) <==>
      Truthy(name) && Truthy(phone) && Truthy(email) && !PhoneOk(phone.value)
    ensures r == Some(BadEmail) <==>
      Truthy(name) && Truthy(phone) && Truthy(email) && PhoneOk(phone.value) &&
      !EmailMatches(email.value)
    ensures r == None <==>
      Truthy(name) && Truthy(phone) && Truthy(email) && PhoneOk(phone.value) &&
      EmailMatches(email.value)
  {
    if !Truthy(name) || !Truthy(phone) || !Truthy(email) then Some(MissingRequired)
    else if !PhoneOk(phone.value) then Some(BadPhone)
    else
      EmailShapeIffMatches(email.value);
      if !EmailShapeOk(email.value) then Some(BadEmail) else None
  }

  /** Nine or eleven digits, or any non-digit, fail the phone check. */
  lemma PhoneLengthAndDigits(s: string)
    ensures |s| == 9 || |s| == 11 ==> !PhoneOk(s)
    ensures (exists i :: 0 <= i < |s| && !IsAsciiDigit(s[i])) ==> !PhoneOk(s)
    ensures PhoneOk("9876543210")
  {
  }

  /** An address of the expected shape passes the email check. */
  lemma EmailAccepted()
    ensures EmailMatches("a@b.co")
  {
    EmailShapeIffMatches("a@b.co");
    assert IndexOf("a@b.co", '@') == 1;
    assert "b.co"[1..3] == ".c";
  }

  /** An address without a `.` after the `@` fails the email check. */
  lemma EmailNeedsDot()
    ensures !EmailMatches("a@b")
  {
    EmailShapeIffMatches("a@b");
  }

  /** An address with a second `@` fails the email check. */
  lemma EmailSingleAt()
    ensures !EmailMatches("a@@b.co")
  {
    EmailShapeIffMatches("a@@b.co");
    assert IndexOf("a@@b.co", '@') == 1;
    assert CountOf("a@@b.co", '@') == 2;
  }

  /** An address whose `.` follows the `@` directly fails the email check. */
  lemma EmailDomainBeforeDot()
    ensures !EmailMatches("a@.co")
  {
    EmailShapeIffMatches("a@.co");
    assert IndexOf("a@.co", '@') == 1;
    assert ".co"[1..2] == "c";
  }
}
