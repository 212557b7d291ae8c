/** The field validators of the registration screen (app/register.js).

    They are pure predicates over the text typed into the form. JavaScript
    strings are sequences of UTF-16 code units and `.length` counts code
    units, while a Dafny `string` is a sequence of Unicode scalar values;
    `Utf16Length` gives the JavaScript length of a Dafny string, so that the
    length rules below are stated exactly as the screen applies them.
 */
module Validators {

  /** Shortest accepted name, in UTF-16 code units. */
  const MinNameLength: nat := 5
  /** Exact length of an accepted phone number. */
  const PhoneLength: nat := 10
  /** Shortest accepted password, in UTF-16 code units. */
  const MinPasswordLength: nat := 8
  /** Every registered address must end with this organisational domain. */
  const EmailDomain: string := "@dawabag.com"

  /** A character of the Basic Multilingual Plane takes one UTF-16 code unit;
      every other scalar value takes a surrogate pair. */
  predicate IsBmp(c: char) {
    c as int < 0x1_0000
  }

  function CodeUnits(c: char): nat {
    if IsBmp(c) then 1 else 2
  }

  predicate AllBmp(s: string) {
    forall i :: 0 <= i < |s| ==> IsBmp(s[i])
  }

  /** The value of JavaScript's `s.length`. */
  function Utf16Length(s: string): (n: nat)
    ensures |s| <= n <= 2 * |s|
    ensures n == 0 <==> s == []
  {
    if s == [] then 0 else CodeUnits(s[0]) + Utf16Length(s[1..])
  }

  lemma {:induction false} Utf16LengthAppend(s: string, t: string)
    ensures Utf16Length(s + t) == Utf16Length(s) + Utf16Length(t)
  {
    if s == [] {
      assert s + t == t;
    } else {
      assert (s + t)[0] == s[0];
      assert (s + t)[1..] == s[1..] + t;
      Utf16LengthAppend(s[1..], t);
    }
  }

  /** The JavaScript length agrees with the number of characters exactly
      when no character needs a surrogate pair. */
  lemma {:induction false} Utf16LengthIsCharCount(s: string)
    ensures Utf16Length(s) == |s| <==> AllBmp(s)
  {
    if s != [] {
      Utf16LengthIsCharCount(s[1..]);
      assert AllBmp(s) <==> IsBmp(s[0]) && AllBmp(s[1..]) by {
        if IsBmp(s[0]) && AllBmp(s[1..]) {
          forall i | 0 <= i < |s| ensures IsBmp(s[i]) {
            if i > 0 { assert s[i] == s[1..][i - 1]; }
          }
        }
        if AllBmp(s) {
          forall i | 0 <= i < |s[1..]| ensures IsBmp(s[1..][i]) {
            assert s[1..][i] == s[i + 1];
          }
        }
      }
    }
  }

  /** `validateName`: at least five code units long. */
  predicate ValidateName(name: string) {
    Utf16Length(name) >= MinNameLength
  }

  /** `validatePassword`: at least eight code units long. */
  predicate ValidatePassword(password: string) {
    Utf16Length(password) >= MinPasswordLength
  }

  /** The regular expression class `\d`: ASCII digits only, under every flag. */
  predicate IsAsciiDigit(c: char) {
    '0' <= c <= '9'
  }

  /** The regular expression `^\d{n}$` matched against the whole of `s`. */
  predicate MatchesDigitRun(s: string, n: nat) {
    if n == 0 then s == []
    else s != [] && IsAsciiDigit(s[0]) && MatchesDigitRun(s[1..], n - 1)
  }

  /** `validatePhone`: the length test and the regular expression, both as written. */
  predicate ValidatePhone(phone: string) {
    Utf16Length(phone) == PhoneLength && MatchesDigitRun(phone, PhoneLength)
  }

  /** `String.prototype.endsWith`: an exact, case-sensitive trailing match. */
  predicate EndsWith(s: string, suffix: string) {
    |suffix| <= |s| && s[|s| - |suffix|..] == suffix
  }

  /** The domain half of `validateEmail`. */
  predicate HasEmailDomain(email: string) {
    EndsWith(email, EmailDomain)
  }

  lemma {:induction false} MatchesDigitRunIff(s: string, n: nat)
    ensures MatchesDigitRun(s, n) <==> |s| == n && forall i :: 0 <= i < |s| ==> IsAsciiDigit(s[i])
  {
    if n != 0 && s != [] {
      MatchesDigitRunIff(s[1..], n - 1);
      if forall i :: 0 <= i < |s| ==> IsAsciiDigit(s[i]) {
        forall i | 0 <= i < |s[1..]| ensures IsAsciiDigit(s[1..][i]) {
          assert s[1..][i] == s[i + 1];
        }
      }
      if IsAsciiDigit(s[0]) && forall i :: 0 <= i < |s[1..]| ==> IsAsciiDigit(s[1..][i]) {
        forall i | 0 <= i < |s| ensures IsAsciiDigit(s[i]) {
          if i > 0 { assert s[i] == s[1..][i - 1]; }
        }
      }
    }
  }

  /** A phone number is accepted exactly when it is ten ASCII digits; the
      separate length test is then implied by the regular expression. */
  lemma PhoneRule(phone: string)
    ensures ValidatePhone(phone) <==>
      |phone| == PhoneLength && forall i :: 0 <= i < |phone| ==> IsAsciiDigit(phone[i])
  {
    MatchesDigitRunIff(phone, PhoneLength);
    if forall i :: 0 <= i < |phone| ==> IsAsciiDigit(phone[i]) {
      Utf16LengthIsCharCount(phone);
    }
  }

  /** The phone examples: ten digits pass; separators or an eleventh digit fail. */
  lemma PhoneExamples()
    ensures ValidatePhone("1234567890")
    ensures !ValidatePhone("123-456-78")
    ensures !ValidatePhone("12345678901")
  {
    TenDigitsPass();
    var dashed := "123-456-78";
    assert !IsAsciiDigit(dashed[3]);
    PhoneRule(dashed);
    PhoneRule("12345678901");
  }

  lemma TenDigitsPass()
    ensures ValidatePhone("1234567890")
  {
    var good := "1234567890";
    assert forall i :: 0 <= i < |good| ==> IsAsciiDigit(good[i]);
    PhoneRule(good);
  }

  /** The name rule: five characters always pass; with no surrogate pairs
      the rule is exactly a character count; a passing name is never empty and
      stays passing when extended. */
  lemma NameRule(s: string, t: string)
    ensures |s| >= MinNameLength ==> ValidateName(s)
    ensures AllBmp(s) ==> (ValidateName(s) <==> |s| >= MinNameLength)
    ensures ValidateName(s) ==> s != [] && ValidateName(s + t)
  {
    Utf16LengthIsCharCount(s);
    Utf16LengthAppend(s, t);
  }

  /** The password rule, likewise with eight characters. */
  lemma PasswordRule(s: string, t: string)
    ensures |s| >= MinPasswordLength ==> ValidatePassword(s)
    ensures AllBmp(s) ==> (ValidatePassword(s) <==> |s| >= MinPasswordLength)
    ensures ValidatePassword(s) ==> s != [] && ValidatePassword(s + t)
  {
    Utf16LengthIsCharCount(s);
    Utf16LengthAppend(s, t);
  }

  /** JavaScript counts code units, not characters: a name of three
      characters outside the Basic Multilingual Plane is six code units long
      and is accepted. */
  lemma NameCountsCodeUnits()
    ensures ValidateName("\U{1F600}\U{1F600}\U{1F600}")
  {
  }

  /** `endsWith` holds exactly when the text is some prefix followed by the suffix. */
  lemma EndsWithIffSplit(s: string, suffix: string)
    ensures EndsWith(s, suffix) <==> exists p :: s == p + suffix
  {
    if EndsWith(s, suffix) {
      var p := s[..|s| - |suffix|];
      assert s == p + suffix;
    }
    if exists p :: s == p + suffix {
      var p :| s == p + suffix;
      assert s[|s| - |suffix|..] == suffix;
    }
  }

  /** The domain test is exact and case-sensitive. */
  lemma EmailDomainExamples()
    ensures HasEmailDomain("alice@dawabag.com")
    ensures !HasEmailDomain("user@other.com")
    ensures !HasEmailDomain("alice@DawaBag.com")
  {
  }

  lemma NameExamples()
    ensures ValidateName("Alice") && !ValidateName("Bob")
  {
  }

  lemma PasswordExamples()
    ensures ValidatePassword("secret123") && !ValidatePassword("secret")
  {
  }

  /** An address with the domain is longer than the domain, so never empty. */
  lemma DomainAddressNotEmpty(email: string)
    ensures HasEmailDomain(email) ==> |email| >= |EmailDomain| && email != []
  {
  }
}
