/** The contact form rules of `src/lib/contact-validation.ts`: the e-mail
    shape test, the phone test, and the per-field error messages with the
    limits they share with the backend. */
module ContactValidation {
  import opened Wrappers
  import opened Text

  const NAME_MAX: nat := 200
  const MESSAGE_MIN: nat := 20
  const MESSAGE_MAX: nat := 10000

  /** A character `[^\s@]` accepts. */
  predicate IsAddressChar(c: char) {
    !IsWhitespace(c) && c != '@'
  }

  ghost predicate AllAddressChars(s: string) {
    forall i :: 0 <= i < |s| ==> IsAddressChar(s[i])
  }

  /** What `/^[^\s@]+@[^\s@]+\.[^\s@]+$/` describes: a non-empty local part,
      `@`, and a domain `d1.d2` with both sides non-empty, none of the three
      parts holding whitespace or `@`. */
  ghost predicate MatchesEmailPattern(s: string) {
    exists k: nat, j: nat | 0 < k && k + 1 < j < |s| - 1 ::
      && s[k] == '@' && s[j] == '.'
      && AllAddressChars(s[..k]) && AllAddressChars(s[k + 1..j]) && AllAddressChars(s[j + 1..])
  }

  /** `validateEmail`, as a scan: no whitespace, a first `@` that is not the
      first character, no second `@`, and a `.` after the `@` that is
      neither the first nor the last character of the domain. */
  function ValidateEmail(s: string): bool {
    && (forall i :: 0 <= i < |s| ==> !IsWhitespace(s[i]))
    && match IndexOf(s, '@')
       case None => false
       case Some(k) =>
         var d := s[k + 1..];
         k > 0 && '@' !in d && |d| >= 3 && '.' in d[1..|d| - 1]
  }

  /** The three parts around a known `@` and `.` hold neither whitespace
      nor `@`. */
  lemma PartsArePlain(s: string, k: nat, j: nat)
    requires 0 < k && k + 1 < j < |s| - 1 && s[k] == '@'
    requires forall i :: 0 <= i < |s| ==> !IsWhitespace(s[i])
    requires '@' !in s[..k] && '@' !in s[k + 1..]
    ensures AllAddressChars(s[..k]) && AllAddressChars(s[k + 1..j]) && AllAddressChars(s[j + 1..])
  {
    var d := s[k + 1..];
    assert forall i :: 0 <= i < k ==> s[..k][i] == s[i];
    assert forall i :: 0 <= i < j - k - 1 ==> s[k + 1..j][i] == d[i];
    var e := s[j + 1..];
    assert forall i :: 0 <= i < |e| ==> e[i] == d[j - k + i];
  }

  /** Every string the scan accepts matches the pattern. */
  lemma EmailScanSound(s: string)
    requires ValidateEmail(s)
    ensures MatchesEmailPattern(s)
  {
    var k := IndexOf(s, '@').value;
    var d := s[k + 1..];
    var m := IndexOf(d[1..|d| - 1], '.').value;
    var j := k + 2 + m;
    assert s[j] == d[1..|d| - 1][m];
    PartsArePlain(s, k, j);
  }

  /** Every string that matches the pattern passes the scan. */
  lemma EmailScanComplete(s: string, k: nat, j: nat)
    requires 0 < k && k + 1 < j < |s| - 1 && s[k] == '@' && s[j] == '.'
    requires AllAddressChars(s[..k]) && AllAddressChars(s[k + 1..j]) && AllAddressChars(s[j + 1..])
    ensures ValidateEmail(s)
  {
    assert forall i :: 0 <= i < k ==> s[i] == s[..k][i];
    assert forall i :: k + 1 <= i < j ==> s[i] == s[k + 1..j][i - k - 1];
    assert forall i :: j + 1 <= i < |s| ==> s[i] == s[j + 1..][i - j - 1];
    assert forall i :: 0 <= i < |s| ==> !IsWhitespace(s[i]);
    assert '@' !in s[..k];
    IndexOfFirst(s, '@', k);
    var d := s[k + 1..];
    assert forall i :: 0 <= i < |d| ==> d[i] == s[k + 1 + i];
    assert '@' !in d;
    assert d[1..|d| - 1][j - k - 2] == '.';
  }

  /** The scan accepts exactly the strings the pattern describes. */
  lemma ValidateEmailMatchesPattern(s: string)
    ensures ValidateEmail(s) <==> MatchesEmailPattern(s)
  {
    if ValidateEmail(s) {
      EmailScanSound(s);
    }
    if MatchesEmailPattern(s) {
      var k: nat, j: nat :| 0 < k && k + 1 < j < |s| - 1 && s[k] == '@' && s[j] == '.'
        && AllAddressChars(s[..k]) && AllAddressChars(s[k + 1..j]) && AllAddressChars(s[j + 1..]);
      EmailScanComplete(s, k, j);
    }
  }

  /** A character `[\d\s\-()+]` accepts. */
  predicate IsPhoneChar(c: char) {
    IsDigit(c) || IsWhitespace(c) || c == '-' || c == '(' || c == ')' || c == '+'
  }

  /** `(phone.match(/\d/g) ?? []).length` */
  function DigitCount(s: string): (n: nat)
    ensures n <= |s|
    ensures n == |Filter(s, IsDigit)|
  {
    if s == [] then 0 else (if IsDigit(s[0]) then 1 else 0) + DigitCount(s[1..])
  }

  /** `validatePhone`: at least ten digits, and nothing but digits,
      whitespace, `-`, `(`, `)` and `+`, in any order. */
  function ValidatePhone(s: string): (ok: bool)
    ensures ok ==> |s| >= 10
  {
    DigitCount(s) >= 10 && |s| >= 1 && forall i :: 0 <= i < |s| ==> IsPhoneChar(s[i])
  }

  /** The regular expression and the digit count, read independently: the
      string matches `[\d\s\-()+]+` exactly when filtering by the class
      keeps all of a non-empty string. */
  lemma ValidatePhoneIff(s: string)
    ensures ValidatePhone(s) <==> |Filter(s, IsDigit)| >= 10 && s != [] && Filter(s, IsPhoneChar) == s
  {
    FilterAll(s, IsPhoneChar);
  }

  /** The digits may sit anywhere: swapping two parts of a number does not
      change the verdict. */
  lemma PhoneOrderIrrelevant(a: string, b: string)
    ensures ValidatePhone(a + b) == ValidatePhone(b + a)
  {
    FilterConcat(a, b, IsDigit);
    FilterConcat(b, a, IsDigit);
    assert DigitCount(a + b) == DigitCount(b + a);
    PhoneCharsConcat(a, b);
    PhoneCharsConcat(b, a);
  }

  lemma PhoneCharsConcat(a: string, b: string)
    ensures (forall i :: 0 <= i < |a + b| ==> IsPhoneChar((a + b)[i])) <==>
            (forall i :: 0 <= i < |a| ==> IsPhoneChar(a[i])) && (forall i :: 0 <= i < |b| ==> IsPhoneChar(b[i]))
  {
    assert forall i :: 0 <= i < |a| ==> (a + b)[i] == a[i];
    assert forall i :: 0 <= i < |b| ==> (a + b)[|a| + i] == b[i];
  }

  /** The fields the form submits for validation. */
  datatype ContactFields = ContactFields(name: string, email: string, phone: string,
                                         service: string, message: string)

  /** `ContactFormErrors`: a message per field, or none. */
  datatype FormErrors = FormErrors(name: Option<Message>, email: Option<Message>, phone: Option<Message>,
                                   service: Option<Message>, message: Option<Message>)
  {
    /** `Object.keys(errors).length === 0` */
    predicate IsEmpty() {
      name.None? && email.None? && phone.None? && service.None? && message.None?
    }
  }

  /** The messages the rules report; `Text()` is the wording shown. */
  datatype Message =
    | NameRequired | NameTooLong | EmailRequired | EmailInvalid | PhoneRequired | PhoneInvalid
    | ServiceRequired | MessageRequired | MessageTooShort | MessageTooLong
  {
    function Text(): string {
      match this
      case NameRequired => "Name is required"
      case NameTooLong => "Name is too long"
      case EmailRequired => "Email is required"
      case EmailInvalid => "Please enter a valid email address"
      case PhoneRequired => "Phone number is required"
      case PhoneInvalid => "Please enter a valid phone number"
      case ServiceRequired => "Please select a service"
      case MessageRequired => "Please tell us about your project"
      case MessageTooShort => "Please provide more details (at least 20 characters)"
      case MessageTooLong => "Message is too long (max 10,000 characters)"
    }
  }

  /** Anything that holds a non-whitespace character is not blank. */
  lemma NotBlankAt(s: string, i: nat)
    requires i < |s| && !IsWhitespace(s[i])
    ensures !IsBlank(s)
  {
    BlankIffAllWhitespace(s);
  }

  /** A blank string is never a valid address. */
  lemma BlankEmailInvalid(s: string)
    ensures IsBlank(s) ==> !ValidateEmail(s)
  {
    if ValidateEmail(s) {
      NotBlankAt(s, IndexOf(s, '@').value);
    }
  }

  /** A blank string is never a valid phone number. */
  lemma BlankPhoneInvalid(s: string)
    ensures IsBlank(s) ==> !ValidatePhone(s)
  {
    if ValidatePhone(s) {
      DigitInPhone(s);
      var i :| 0 <= i < |s| && !IsWhitespace(s[i]);
      NotBlankAt(s, i);
    }
  }

  /** The name rule: required, and at most 200 once trimmed. */
  function NameError(name: string): (r: Option<Message>)
    ensures r.None? <==> 1 <= |Trim(name)| <= NAME_MAX
    ensures r == Some(NameRequired) <==> IsBlank(name)
    ensures r == Some(NameTooLong) <==> !IsBlank(name) && |Trim(name)| > NAME_MAX
  {
    if IsBlank(name) then Some(NameRequired)
    else if |Trim(name)| > NAME_MAX then Some(NameTooLong)
    else None
  }

  /** The e-mail rule: required once trimmed, then the shape test on the
      untrimmed value. */
  function EmailError(email: string): (r: Option<Message>)
    ensures r.None? <==> ValidateEmail(email)
    ensures r == Some(EmailRequired) <==> IsBlank(email)
    ensures r == Some(EmailInvalid) <==> !IsBlank(email) && !ValidateEmail(email)
  {
    BlankEmailInvalid(email);
    if IsBlank(email) then Some(EmailRequired)
    else if !ValidateEmail(email) then Some(EmailInvalid)
    else None
  }

  /** The phone rule: required once trimmed, then the phone test on the
      untrimmed value. */
  function PhoneError(phone: string): (r: Option<Message>)
    ensures r.None? <==> ValidatePhone(phone)
    ensures r == Some(PhoneRequired) <==> IsBlank(phone)
    ensures r == Some(PhoneInvalid) <==> !IsBlank(phone) && !ValidatePhone(phone)
  {
    BlankPhoneInvalid(phone);
    if IsBlank(phone) then Some(PhoneRequired)
    else if !ValidatePhone(phone) then Some(PhoneInvalid)
    else None
  }

  /** A string with a digit has a non-whitespace character. */
  lemma {:induction false} DigitInPhone(s: string)
    requires DigitCount(s) > 0
    ensures exists i :: 0 <= i < |s| && !IsWhitespace(s[i])
  {
    if IsDigit(s[0]) {
      assert !IsWhitespace(s[0]);
    } else {
      DigitInPhone(s[1..]);
      var i :| 0 <= i < |s[1..]| && !IsWhitespace(s[1..][i]);
      assert s[i + 1] == s[1..][i];
    }
  }

  /** The service rule: any non-empty value, untrimmed. */
  function ServiceError(service: string): (r: Option<Message>)
    ensures r.None? <==> service != ""
  {
    if service == "" then Some(ServiceRequired) else None
  }

  /** The message rule: required, then 20 to 10000 characters once trimmed. */
  function MessageError(message: string): (r: Option<Message>)
    ensures r.None? <==> MESSAGE_MIN <= |Trim(message)| <= MESSAGE_MAX
    ensures r == Some(MessageRequired) <==> IsBlank(message)
    ensures r == Some(MessageTooShort) <==> !IsBlank(message) && |Trim(message)| < MESSAGE_MIN
    ensures r == Some(MessageTooLong) <==> |Trim(message)| > MESSAGE_MAX
  {
    if IsBlank(message) then Some(MessageRequired)
    else if |Trim(message)| < MESSAGE_MIN then Some(MessageTooShort)
    else if |Trim(message)| > MESSAGE_MAX then Some(MessageTooLong)
    else None
  }

  /** What `validateContactForm` returns. */
  datatype Validation = Validation(errors: FormErrors, valid: bool)

  /** `validateContactForm`: every field is checked on its own, and the form
      is valid exactly when every field passes. */
  function ValidateContactForm(data: ContactFields): (r: Validation)
    ensures r.errors == FormErrors(NameError(data.name), EmailError(data.email), PhoneError(data.phone),
                                   ServiceError(data.service), MessageError(data.message))
    ensures r.valid <==> r.errors.IsEmpty()
    ensures r.valid <==>
      && 1 <= |Trim(data.name)| <= NAME_MAX
      && ValidateEmail(data.email)
      && ValidatePhone(data.phone)
      && data.service != ""
      && MESSAGE_MIN <= |Trim(data.message)| <= MESSAGE_MAX
  {
    var errors := FormErrors(NameError(data.name), EmailError(data.email), PhoneError(data.phone),
                             ServiceError(data.service), MessageError(data.message));
    Validation(errors, errors.IsEmpty())
  }

  /** A string of `n` copies of `c`. */
  function Repeat(c: char, n: nat): (r: string)
    ensures |r| == n && forall i :: 0 <= i < n ==> r[i] == c
  {
    if n == 0 then [] else [c] + Repeat(c, n - 1)
  }

  /** A name of exactly 200 letters passes; 201 does not. */
  lemma NameLimitBoundary()
    ensures NameError(Repeat('a', NAME_MAX)) == None
    ensures NameError(Repeat('a', NAME_MAX + 1)) == Some(NameTooLong)
  {
    var a, b := Repeat('a', NAME_MAX), Repeat('a', NAME_MAX + 1);
    TrimOfTrimmed(a);
    TrimOfTrimmed(b);
  }

  /** Messages of exactly 20 and 10000 characters pass; 19 and 10001 fail
      with the matching message. */
  lemma MessageLimitBoundary()
    ensures MessageError(Repeat('x', MESSAGE_MIN)) == None
    ensures MessageError(Repeat('x', MESSAGE_MAX)) == None
    ensures MessageError(Repeat('x', MESSAGE_MIN - 1)) == Some(MessageTooShort)
    ensures MessageError(Repeat('x', MESSAGE_MAX + 1)) == Some(MessageTooLong)
  {
    TrimOfTrimmed(Repeat('x', MESSAGE_MIN));
    TrimOfTrimmed(Repeat('x', MESSAGE_MAX));
    TrimOfTrimmed(Repeat('x', MESSAGE_MIN - 1));
    TrimOfTrimmed(Repeat('x', MESSAGE_MAX + 1));
  }

  /** The shape test sees the untrimmed value: an address with a leading
      space is reported as invalid, not as missing. */
  lemma LeadingSpaceEmailIsInvalid()
    ensures EmailError(" a@b.co") == Some(EmailInvalid)
  {
    NotBlankAt(" a@b.co", 1);
    assert IsWhitespace(" a@b.co"[0]);
  }

  /** The service is not trimmed: a single space counts as selected. */
  lemma BlankServicePasses()
    ensures ServiceError(" ") == None
  {
  }

  /** The fields are checked independently: an empty form gets all five
      "required" messages at once. */
  lemma EmptyFormGetsAllErrors()
    ensures ValidateContactForm(ContactFields("", "", "", "", "")) ==
      Validation(FormErrors(Some(NameRequired), Some(EmailRequired), Some(PhoneRequired),
                            Some(ServiceRequired), Some(MessageRequired)), false)
  {
    BlankIffAllWhitespace("");
  }
}
