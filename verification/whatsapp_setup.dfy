/** The two client-side validators of the WhatsApp setup form: the phone
    number field (required, pattern `^\+[1-9]\d{1,14}$`) and the verification
    code field (required, pattern `^\d{6}$`). Each pattern is matched the way
    the regular expression reads it, token by token, and is shown equal to a
    plain description of the accepted strings. */
module WhatsAppSetup {
  import opened Seqs
  import opened Digits
  import Crud

  /** `\d{min,max}$`: between `min` and `max` decimal digits (`\d` is ASCII
      0-9 for a pattern without the `u` flag), then the end of the input. */
  function MatchDigitRun(s: string, min: nat, max: nat): (m: bool)
    decreases |s|
  {
    if s == [] then min == 0
    else max > 0 && IsDigit(s[0]) && MatchDigitRun(s[1..], if min == 0 then 0 else min - 1, max - 1)
  }

  /** A digit run matches exactly the all-digit strings of a length in range. */
  lemma {:induction false} MatchDigitRunIff(s: string, min: nat, max: nat)
    ensures MatchDigitRun(s, min, max) <==> min <= |s| <= max && AllDigits(s)
    decreases |s|
  {
    if s != [] && max > 0 {
      MatchDigitRunIff(s[1..], if min == 0 then 0 else min - 1, max - 1);
      if IsDigit(s[0]) && AllDigits(s[1..]) {
        assert AllDigits(s);
      }
    }
  }

  /** `^\+[1-9]\d{1,14}$`, read token by token. */
  function MatchPhone(s: string): bool
  {
    && |s| >= 2 && s[0] == '+'
    && '1' <= s[1] <= '9'
    && MatchDigitRun(s[2..], 1, 14)
  }

  /** The accepted phone numbers: a '+', then between 2 and 15 decimal
      digits of which the first is not 0, so between 3 and 16 characters in
      all and at most the 15 digits of an ITU-T E.164 number. */
  predicate ValidPhone(s: string)
  {
    3 <= |s| <= 16 && s[0] == '+' && AllDigits(s[1..]) && s[1] != '0'
  }

  lemma PhonePattern(s: string)
    ensures MatchPhone(s) <==> ValidPhone(s)
    ensures ValidPhone(s) ==> 2 <= |s[1..]| <= 15
  {
    if |s| >= 2 {
      MatchDigitRunIff(s[2..], 1, 14);
      assert s[1..] == [s[1]] + s[2..];
      if AllDigits(s[1..]) {
        assert IsDigit(s[1..][0]);
        assert forall k :: 0 <= k < |s[2..]| ==> s[2..][k] == s[1..][k + 1];
      }
    }
  }

  const PhoneRequired: string := "Phone number is required"
  const PhoneInvalid: string := "Please enter a valid phone number with country code (e.g., +1234567890)"
  const CodeRequired: string := "Verification code is required"
  const CodeInvalid: string := "Please enter a valid 6-digit code"

  /** The phone field's message: required first, then the pattern; None lets
      the form submit. */
  function PhoneFieldError(value: string): (e: Option<string>)
    ensures e.None? <==> ValidPhone(value)
    ensures value == "" ==> e == Some(PhoneRequired)
    ensures value != "" && !ValidPhone(value) ==> e == Some(PhoneInvalid)
  {
    PhonePattern(value);
    if value == "" then Some(PhoneRequired)
    else if !MatchPhone(value) then Some(PhoneInvalid)
    else None
  }

  /** `^\d{6}$`, read token by token. */
  function MatchCode(s: string): bool
  {
    MatchDigitRun(s, 6, 6)
  }

  predicate ValidCode(s: string)
  {
    |s| == 6 && AllDigits(s)
  }

  lemma CodePattern(s: string)
    ensures MatchCode(s) <==> ValidCode(s)
  {
    MatchDigitRunIff(s, 6, 6);
  }

  /** The code field's message: required first, then the pattern. */
  function CodeFieldError(value: string): (e: Option<string>)
    ensures e.None? <==> ValidCode(value)
    ensures value == "" ==> e == Some(CodeRequired)
    ensures value != "" && !ValidCode(value) ==> e == Some(CodeInvalid)
  {
    CodePattern(value);
    if value == "" then Some(CodeRequired)
    else if !MatchCode(value) then Some(CodeInvalid)
    else None
  }

  /** Every code the backend draws passes the form's code check. */
  lemma GeneratedCodePasses(draw: int)
    requires 100000 <= draw <= 999999
    ensures CodeFieldError(Crud.VerificationCode(draw)).None?
  {
  }
}
