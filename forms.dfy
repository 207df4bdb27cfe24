/**
 * The checks a public submission goes through: `_is_valid_email`,
 * `_is_valid_phone` and the field validation of `_public_form`.
 *
 * Both regular expressions are applied with `re.match` and end in `$`, which
 * also matches just before a final newline; the functions below model that, and
 * the lemmas show it never matters for the stripped strings the form passes in.
 */
module Forms {
  import opened Text

  /** The class `[^@\s]`. */
  predicate EmailChar(c: char) {
    c != '@' && !IsSpace(c)
  }

  /**
   * `^[^@\s]+@[^@\s]+\.[^@\s]+` matched against the whole of `e`, with the `@`
   * at `at` and the separating dot at `dot`.
   */
  ghost predicate EmailSplit(e: string, at: int, dot: int) {
    && 0 < at && at + 1 < dot && dot + 1 < |e|
    && e[at] == '@' && e[dot] == '.'
    && forall k :: 0 <= k < |e| && k != at ==> EmailChar(e[k])
  }

  /**
   * The address shape the pattern accepts, decided by cutting at the first
   * `@`: a non-empty local part, no whitespace anywhere, no second `@`, and a
   * dot in the domain that is neither its first nor its last character.
   */
  predicate IsEmailShape(e: string) {
    var at := IndexOf(e, '@');
    && 0 < at < |e|
    && (forall k :: 0 <= k < |e| && k != at ==> EmailChar(e[k]))
    && exists dot :: at + 1 < dot < |e| - 1 && e[dot] == '.'
  }

  /**
   * The shape holds exactly when `e` splits as the pattern reads it: some `@`
   * and some later dot with every other character in the class.
   */
  lemma EmailShapeMeaning(e: string)
    ensures IsEmailShape(e) <==> exists at, dot :: EmailSplit(e, at, dot)
  {
    var at := IndexOf(e, '@');
    if IsEmailShape(e) {
      var dot :| at + 1 < dot < |e| - 1 && e[dot] == '.';
      assert EmailSplit(e, at, dot);
    }
    if exists at', dot :: EmailSplit(e, at', dot) {
      var at', dot :| EmailSplit(e, at', dot);
      IndexOfFirst(e, '@', at');
    }
  }

  /** An address the pattern accepts has exactly one `@`. */
  lemma EmailHasOneAt(e: string, i: int, j: int)
    requires IsEmailShape(e)
    requires 0 <= i < |e| && 0 <= j < |e| && e[i] == '@' && e[j] == '@'
    ensures i == j
  {
    EmailShapeMeaning(e);
    var at, dot :| EmailSplit(e, at, dot);
    assert !EmailChar(e[i]) && !EmailChar(e[j]);
  }

  /** `_is_valid_email`: the pattern over the whole string, or over all of it but a final newline. */
  function IsValidEmail(e: string): (b: bool)
    ensures Unpadded(e) ==> (b <==> IsEmailShape(e))
    ensures b ==> |e| >= 5
  {
    IsEmailShape(e) || (|e| > 0 && e[|e| - 1] == '\n' && IsEmailShape(e[..|e| - 1]))
  }

  /** The class `[0-9+\-()\s]`. */
  predicate PhoneChar(c: char) {
    IsDigit(c) || c == '+' || c == '-' || c == '(' || c == ')' || IsSpace(c)
  }

  /** `^[0-9+\-()\s]{7,20}` matched against the whole of `p`. */
  predicate PhoneShape(p: string) {
    7 <= |p| <= 20 && forall k :: 0 <= k < |p| ==> PhoneChar(p[k])
  }

  /** `len(re.sub(r'[^\d]', '', p))`. */
  function DigitCount(p: string): (n: nat)
    ensures n <= |p|
    ensures n == 0 <==> forall k :: 0 <= k < |p| ==> !IsDigit(p[k])
  {
    if p == [] then 0
    else
      var rest := DigitCount(p[1..]);
      assert forall k :: 1 <= k < |p| ==> p[k] == p[1..][k - 1];
      (if IsDigit(p[0]) then 1 else 0) + rest
  }

  /**
   * `_is_valid_phone`: the pattern (with the `$` allowance for a final
   * newline) and between 7 and 20 digits.
   */
  function IsValidPhone(p: string): (b: bool)
    ensures Unpadded(p) ==> (b <==> PhoneShape(p) && 7 <= DigitCount(p))
    ensures b ==> 7 <= DigitCount(p) <= 20 && |p| <= 21
  {
    var shape := PhoneShape(p) || (|p| > 0 && p[|p| - 1] == '\n' && PhoneShape(p[..|p| - 1]));
    shape && 7 <= DigitCount(p) <= 20
  }

  /** A trailing non-digit adds no digit. */
  lemma {:induction false} DigitCountAppendNonDigit(q: string, c: char)
    requires !IsDigit(c)
    ensures DigitCount(q + [c]) == DigitCount(q)
  {
    if q != [] {
      assert (q + [c])[1..] == q[1..] + [c];
      DigitCountAppendNonDigit(q[1..], c);
    }
  }

  /**
   * The `$` allowance is visible only at the length limit: 20 accepted
   * characters followed by a newline make 21 characters, too many for the
   * class repetition, yet the phone is accepted.
   */
  lemma PhoneNewlineAllowance(q: string)
    requires PhoneShape(q) && |q| == 20 && 7 <= DigitCount(q)
    ensures !PhoneShape(q + "\n") && IsValidPhone(q + "\n")
  {
    DigitCountAppendNonDigit(q, '\n');
    assert (q + "\n")[..20] == q;
  }

  datatype FieldError =
    | NameRequired | NameTooShort | NameTooLong
    | PhoneRequired | PhoneInvalid
    | EmailInvalid | EmailTooLong

  datatype Notice = NoEmailProvided

  datatype Field = NameField | PhoneField | EmailField

  /** The input field an error is about. */
  function FieldOf(x: FieldError): Field {
    match x
    case NameRequired | NameTooShort | NameTooLong => NameField
    case PhoneRequired | PhoneInvalid => PhoneField
    case EmailInvalid | EmailTooLong => EmailField
  }

  /**
   * When `_public_form` accepts a submission: a stripped name of 2 to 100
   * characters, a stripped phone that is present and valid, and a stripped
   * email that is either absent or valid and at most 100 characters long.
   */
  predicate SubmissionAcceptable(name: string, phone: string, email: string) {
    && 2 <= |Strip(name)| <= 100
    && Strip(phone) != [] && IsValidPhone(Strip(phone))
    && (Strip(email) == [] || (IsValidEmail(Strip(email)) && |Strip(email)| <= 100))
  }

  /** The name part of the validation block: required, then at least 2, then at most 100 characters. */
  method CheckName(n: string) returns (errors: seq<FieldError>)
    ensures |errors| <= 1
    ensures errors == [] <==> 2 <= |n| <= 100
    ensures forall x :: x in errors ==> FieldOf(x) == NameField
    ensures NameRequired in errors <==> n == []
    ensures NameTooShort in errors <==> |n| == 1
    ensures NameTooLong in errors <==> |n| > 100
  {
    if n == [] {
      errors := [NameRequired];
    } else if |n| < 2 {
      errors := [NameTooShort];
    } else if |n| > 100 {
      errors := [NameTooLong];
    } else {
      errors := [];
    }
  }

  /** The phone part: required, then `_is_valid_phone`. */
  method CheckPhone(p: string) returns (errors: seq<FieldError>)
    ensures |errors| <= 1
    ensures errors == [] <==> p != [] && IsValidPhone(p)
    ensures forall x :: x in errors ==> FieldOf(x) == PhoneField
    ensures PhoneRequired in errors <==> p == []
    ensures PhoneInvalid in errors <==> p != [] && !IsValidPhone(p)
  {
    if p == [] {
      errors := [PhoneRequired];
    } else if !IsValidPhone(p) {
      errors := [PhoneInvalid];
    } else {
      errors := [];
    }
  }

  /** The email part: only a non-empty email is checked, by `_is_valid_email` and then its length. */
  method CheckEmail(e: string) returns (errors: seq<FieldError>, notices: seq<Notice>)
    ensures |errors| <= 1
    ensures errors == [] <==> e == [] || (IsValidEmail(e) && |e| <= 100)
    ensures forall x :: x in errors ==> FieldOf(x) == EmailField
    ensures EmailInvalid in errors <==> e != [] && !IsValidEmail(e)
    ensures EmailTooLong in errors <==> IsValidEmail(e) && |e| > 100
    ensures notices == (if e == [] then [NoEmailProvided] else [])
  {
    errors, notices := [], [];
    if e != [] {
      if !IsValidEmail(e) {
        errors := [EmailInvalid];
      } else if |e| > 100 {
        errors := [EmailTooLong];
      }
    } else {
      notices := [NoEmailProvided];
    }
  }

  /** In the joined error list, each field's errors are those its own check reported. */
  lemma ErrorsByField(a: seq<FieldError>, b: seq<FieldError>, c: seq<FieldError>)
    requires forall x :: x in a ==> FieldOf(x) == NameField
    requires forall x :: x in b ==> FieldOf(x) == PhoneField
    requires forall x :: x in c ==> FieldOf(x) == EmailField
    ensures forall x :: FieldOf(x) == NameField ==> (x in a + b + c <==> x in a)
    ensures forall x :: FieldOf(x) == PhoneField ==> (x in a + b + c <==> x in b)
    ensures forall x :: FieldOf(x) == EmailField ==> (x in a + b + c <==> x in c)
    ensures a + b + c == [] <==> a == [] && b == [] && c == []
  {
  }

  /**
   * The validation block of `_public_form` on the stripped fields: at most
   * one error per field, in field order, and a missing email is a notice,
   * never an error.
   */
  method ValidateStripped(n: string, p: string, e: string)
    returns (errors: seq<FieldError>, notices: seq<Notice>)
    ensures errors == [] <==> 2 <= |n| <= 100 && p != [] && IsValidPhone(p) && (e == [] || (IsValidEmail(e) && |e| <= 100))
    ensures notices == (if e == [] then [NoEmailProvided] else [])
    ensures |errors| <= 3
    ensures NameRequired in errors <==> n == []
    ensures NameTooShort in errors <==> |n| == 1
    ensures NameTooLong in errors <==> |n| > 100
    ensures PhoneRequired in errors <==> p == []
    ensures PhoneInvalid in errors <==> p != [] && !IsValidPhone(p)
    ensures EmailInvalid in errors <==> e != [] && !IsValidEmail(e)
    ensures EmailTooLong in errors <==> IsValidEmail(e) && |e| > 100
  {
    var nameErrors := CheckName(n);
    var phoneErrors := CheckPhone(p);
    var emailErrors;
    emailErrors, notices := CheckEmail(e);
    errors := nameErrors + phoneErrors + emailErrors;
    ErrorsByField(nameErrors, phoneErrors, emailErrors);
  }

  /** The same block on the raw inputs, which it strips first. */
  method ValidateSubmission(name: string, phone: string, email: string)
    returns (errors: seq<FieldError>, notices: seq<Notice>)
    ensures errors == [] <==> SubmissionAcceptable(name, phone, email)
    ensures notices == (if Strip(email) == [] then [NoEmailProvided] else [])
    ensures |errors| <= 3
    ensures NameRequired in errors <==> Strip(name) == []
    ensures NameTooShort in errors <==> |Strip(name)| == 1
    ensures NameTooLong in errors <==> |Strip(name)| > 100
    ensures PhoneRequired in errors <==> Strip(phone) == []
    ensures PhoneInvalid in errors <==> Strip(phone) != [] && !IsValidPhone(Strip(phone))
    ensures EmailInvalid in errors <==> Strip(email) != [] && !IsValidEmail(Strip(email))
    ensures EmailTooLong in errors <==> IsValidEmail(Strip(email)) && |Strip(email)| > 100
  {
    errors, notices := ValidateStripped(Strip(name), Strip(phone), Strip(email));
  }
}
