/** Field checks and phone formatting of the public site (main.js): the
    email and phone patterns, `formatPhone`, and the two `validateField`
    functions (the contact-form one that reports a message and the booking
    one that answers yes or no). */
module Fields {
  import opened Text
  import opened Lists

  /** The `type` attribute of an input, as far as the checks care. */
  datatype FieldKind = PlainField | EmailField | TelField

  const RequiredMessage: string := "This field is required"
  const EmailMessage: string := "Please enter a valid email address"
  const PhoneMessage: string := "Please enter a valid phone number"

  /** `[^\s@]+`: a non-empty run without whitespace or '@'. */
  predicate EmailPart(t: string) {
    |t| > 0 && forall i :: 0 <= i < |t| ==> !IsSpace(t[i]) && t[i] != '@'
  }

  /** `/^[^\s@]+@[^\s@]+\.[^\s@]+$/.test(s)` (`Utils.isValidEmail`): a local
      part, '@', a domain part, a '.', and a last part. */
  predicate IsValidEmail(s: string) {
    exists at, dot :: 0 < at < dot < |s| - 1 && s[at] == '@' && s[dot] == '.'
                      && EmailPart(s[..at]) && EmailPart(s[at + 1..dot]) && EmailPart(s[dot + 1..])
  }

  /** A valid address has no whitespace, exactly one '@', and a '.' somewhere
      after it that is not right next to it or last. */
  lemma {:induction false} ValidEmailShape(s: string)
    requires IsValidEmail(s)
    ensures forall i :: 0 <= i < |s| ==> !IsSpace(s[i])
    ensures exists at :: 0 < at < |s| && s[at] == '@' && forall i :: 0 <= i < |s| && s[i] == '@' ==> i == at
    ensures exists at, dot :: 0 < at && at + 1 < dot < |s| - 1 && s[at] == '@' && s[dot] == '.'
  {
    var at, dot :| 0 < at < dot < |s| - 1 && s[at] == '@' && s[dot] == '.'
                   && EmailPart(s[..at]) && EmailPart(s[at + 1..dot]) && EmailPart(s[dot + 1..]);
    forall i | 0 <= i < |s| ensures !IsSpace(s[i]) && (s[i] == '@' ==> i == at) {
      if i < at {
        assert s[i] == s[..at][i];
      } else if at < i < dot {
        assert s[i] == s[at + 1..dot][i - at - 1];
      } else if i == dot {
      } else if dot < i {
        assert s[i] == s[dot + 1..][i - dot - 1];
      }
    }
    assert at + 1 < dot by {
      assert |s[at + 1..dot]| > 0;
    }
  }

  /** An address the pattern accepts and two it refuses. */
  lemma EmailExamples()
    ensures IsValidEmail("a@b.c")
    ensures !IsValidEmail("a@b")
    ensures !IsValidEmail("@b.c")
  {
    var s := "a@b.c";
    assert s[..1] == "a" && s[2..3] == "b" && s[4..] == "c";
    assert 0 < 1 < 3 < |s| - 1 && s[1] == '@' && s[3] == '.';
    LeadingAtInvalid("@b.c");
  }

  /** An address cannot start with '@'. */
  lemma {:induction false} LeadingAtInvalid(s: string)
    requires |s| > 0 && s[0] == '@'
    ensures !IsValidEmail(s)
  {
    forall at | 0 < at <= |s| ensures !EmailPart(s[..at]) {
      assert s[..at][0] == '@';
    }
  }

  /** The characters `/[\s\-\(\)]/g` removes before the phone test. */
  predicate IsPhonePunctuation(c: char) {
    IsSpace(c) || c == '-' || c == '(' || c == ')'
  }

  predicate KeepInPhone(c: char) {
    !IsPhonePunctuation(c)
  }

  /** `/^[\+]?[1-9][\d]{0,15}$/`: an optional '+', a digit 1-9, then at most
      fifteen more digits. */
  predicate PhonePattern(t: string) {
    var r := if |t| > 0 && t[0] == '+' then t[1..] else t;
    1 <= |r| <= 16 && '1' <= r[0] <= '9' && AllDigits(r)
  }

  /** The phone check of both `validateField` functions. */
  predicate IsValidPhone(value: string) {
    PhonePattern(Filter(value, KeepInPhone))
  }

  /** Spacing and brackets never decide the phone check. */
  lemma {:induction false} PhoneIgnoresPunctuation(a: string, b: string)
    requires forall i :: 0 <= i < |b| ==> IsPhonePunctuation(b[i])
    ensures IsValidPhone(a + b) <==> IsValidPhone(a)
  {
    FilterConcat(a, b, KeepInPhone);
    NothingKept(b);
    assert Filter(a, KeepInPhone) + [] == Filter(a, KeepInPhone);
  }

  lemma {:induction false} NothingKept(b: string)
    requires forall i :: 0 <= i < |b| ==> IsPhonePunctuation(b[i])
    ensures Filter(b, KeepInPhone) == []
  {
    if b != [] {
      NothingKept(b[..|b| - 1]);
    }
  }

  /** What is left once punctuation is removed: digits, and perhaps one
      leading '+'. */
  predicate PhoneShape(t: string) {
    forall i :: 0 <= i < |t| ==> IsDigit(t[i]) || (i == 0 && t[i] == '+')
  }

  /** The phone check, read as a split of the pattern: once punctuation is
      removed, only digits remain apart from an optional leading '+', and the
      digits typed are one to sixteen, the first of them not '0'. */
  lemma {:induction false} ValidPhoneDigits(value: string)
    ensures IsValidPhone(value) <==>
      var t, d := Filter(value, KeepInPhone), DigitsOf(value);
      PhoneShape(t) && 1 <= |d| <= 16 && '1' <= d[0] <= '9'
  {
    KeptDigits(value);
    PatternSplit(Filter(value, KeepInPhone));
  }

  /** The pattern on the text left after punctuation is removed. */
  lemma {:induction false} PatternSplit(t: string)
    ensures var d := Filter(t, IsDigit);
      PhonePattern(t) <==> PhoneShape(t) && 1 <= |d| <= 16 && '1' <= d[0] <= '9'
  {
    if |t| > 0 && t[0] == '+' {
      var r := t[1..];
      assert t == [t[0]] + r;
      FilterConcat([t[0]], r, IsDigit);
      assert Filter([t[0]], IsDigit) == [] by {
        assert [t[0]][..0] == [];
      }
      PlusShape(t);
      if AllDigits(r) {
        DigitsOfDigits(r);
      }
    } else {
      assert PhoneShape(t) <==> AllDigits(t);
      if AllDigits(t) {
        DigitsOfDigits(t);
      }
    }
  }

  lemma {:induction false} PlusShape(t: string)
    requires |t| > 0 && t[0] == '+'
    ensures PhoneShape(t) <==> AllDigits(t[1..])
  {
    if AllDigits(t[1..]) {
      forall i | 0 < i < |t| ensures IsDigit(t[i]) {
        assert t[i] == t[1..][i - 1];
      }
    }
  }

  /** Removing punctuation first removes no digit. */
  lemma {:induction false} KeptDigits(s: string)
    ensures Filter(Filter(s, KeepInPhone), IsDigit) == Filter(s, IsDigit)
  {
    if s != [] {
      var p, c := s[..|s| - 1], s[|s| - 1];
      KeptDigits(p);
      var kc := if KeepInPhone(c) then [c] else [];
      FilterConcat(Filter(p, KeepInPhone), kc, IsDigit);
      assert [c][..0] == [];
    }
  }

  /** `phone.replace(/\D/g, '')`. */
  function DigitsOf(s: string): (d: string)
    ensures AllDigits(d) && |d| <= |s|
    ensures forall c :: c in d <==> c in s && IsDigit(c)
  {
    DigitsAllDigits(s);
    FilterMembers(s, IsDigit);
    Filter(s, IsDigit)
  }

  lemma {:induction false} DigitsAllDigits(s: string)
    ensures AllDigits(Filter(s, IsDigit))
  {
    FilterMembers(s, IsDigit);
    var d := Filter(s, IsDigit);
    forall i | 0 <= i < |d| ensures IsDigit(d[i]) {
      assert d[i] in d;
    }
  }

  /** `(ddd) ddd-dddd` from ten digits. */
  function Formatted(d: string): string
    requires |d| == 10
  {
    "(" + d[..3] + ") " + d[3..6] + "-" + d[6..]
  }

  /** `Utils.formatPhone`: exactly ten digits are written `(ddd) ddd-dddd`,
      anything else is returned as it is. */
  function FormatPhone(phone: string): (r: string)
    ensures |DigitsOf(phone)| == 10 ==> |r| == 14 && r == Formatted(DigitsOf(phone))
    ensures |DigitsOf(phone)| != 10 ==> r == phone
  {
    var cleaned := DigitsOf(phone);
    if |cleaned| == 10 then Formatted(cleaned) else phone
  }

  /** A digit string filters to itself. */
  lemma {:induction false} DigitsOfDigits(s: string)
    requires AllDigits(s)
    ensures DigitsOf(s) == s
  {
    if s != [] {
      DigitsOfDigits(s[..|s| - 1]);
      assert s == s[..|s| - 1] + [s[|s| - 1]];
    }
  }

  /** The layout adds no digits: the formatted text has the same digits. */
  lemma {:induction false} FormattedDigits(d: string)
    requires |d| == 10 && AllDigits(d)
    ensures DigitsOf(Formatted(d)) == d
  {
    FormattedFilter(d, Formatted(d));
  }

  lemma {:induction false} FormattedFilter(d: string, f: string)
    requires |d| == 10 && AllDigits(d) && f == Formatted(d)
    ensures Filter(f, IsDigit) == d
  {
    var x, y, z := d[..3], d[3..6], d[6..];
    assert AllDigits(x) && AllDigits(y) && AllDigits(z);
    DigitsFilterToThemselves(x);
    DigitsFilterToThemselves(y);
    DigitsFilterToThemselves(z);
    LayoutHasNoDigits();
    FilterConcat("(", x, IsDigit);
    FilterConcat("(" + x, ") ", IsDigit);
    FilterConcat("(" + x + ") ", y, IsDigit);
    FilterConcat("(" + x + ") " + y, "-", IsDigit);
    FilterConcat("(" + x + ") " + y + "-", z, IsDigit);
    assert x + y + z == d;
  }

  lemma {:induction false} DigitsFilterToThemselves(s: string)
    requires AllDigits(s)
    ensures Filter(s, IsDigit) == s
  {
    DigitsOfDigits(s);
  }

  lemma {:induction false} LayoutHasNoDigits()
    ensures Filter("(", IsDigit) == [] && Filter(") ", IsDigit) == [] && Filter("-", IsDigit) == []
  {
    assert ") "[..1] == ")";
    assert "("[..0] == [] && ")"[..0] == [] && "-"[..0] == [];
  }

  /** Formatting keeps exactly the digits that were typed. */
  lemma {:induction false} FormatPhoneKeepsDigits(phone: string)
    ensures DigitsOf(FormatPhone(phone)) == DigitsOf(phone)
  {
    if |DigitsOf(phone)| == 10 {
      FormattedDigits(DigitsOf(phone));
    }
  }

  /** Formatting a formatted number changes nothing. */
  lemma {:induction false} FormatPhoneIdempotent(phone: string)
    ensures FormatPhone(FormatPhone(phone)) == FormatPhone(phone)
  {
    FormatPhoneKeepsDigits(phone);
  }

  /** The contact form's `validateField`: the message it shows, or none when
      the field passes. */
  function FieldError(kind: FieldKind, required: bool, raw: string): (e: Option<string>)
    ensures Trim(raw) == "" ==> (e.Some? <==> required)
  {
    var value := Trim(raw);
    if required && value == "" then Some(RequiredMessage)
    else if kind == EmailField && value != "" && !IsValidEmail(value) then Some(EmailMessage)
    else if kind == TelField && value != "" && !IsValidPhone(value) then Some(PhoneMessage)
    else None
  }

  /** The booking form's `validateField`. */
  predicate FieldValid(kind: FieldKind, raw: string) {
    var value := Trim(raw);
    if kind == EmailField && value != "" then IsValidEmail(value)
    else if kind == TelField && value != "" then IsValidPhone(value)
    else value != ""
  }

  /** The two `validateField` functions agree on required fields, and a
      field the booking check accepts is never blank. */
  lemma {:induction false} ValidatorsAgree(kind: FieldKind, raw: string)
    ensures FieldValid(kind, raw) <==> FieldError(kind, true, raw).None?
    ensures FieldValid(kind, raw) ==> !IsBlank(raw)
  {
    TrimEmptyIffBlank(raw);
  }

  /** An optional field left blank always passes the contact-form check. */
  lemma {:induction false} OptionalBlankPasses(kind: FieldKind, raw: string)
    requires IsBlank(raw)
    ensures FieldError(kind, false, raw).None?
  {
    TrimEmptyIffBlank(raw);
  }
}
