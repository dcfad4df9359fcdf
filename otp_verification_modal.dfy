/** The modal that checks a farmer's OTP before a spray: code generation, input sanitising, the
    compare, and the masked phone. */
module OtpVerificationModal {
  import opened Wrappers
  import opened SeqUtil
  import opened Text

  /** `Math.floor(100000 + Math.random() * 900000)`, with `u` the random draw in [0, 1). */
  function GenerateCode(u: real): (n: int)
    requires 0.0 <= u < 1.0
    ensures 100000 <= n <= 999999
  {
    (100000.0 + u * 900000.0).Floor
  }

  /** The code as a string: always six digits. */
  function CodeString(u: real): (s: string)
    requires 0.0 <= u < 1.0
    ensures |s| == 6 && AllDigits(s)
    ensures DecimalValue(s) == GenerateCode(u)
  {
    var n := GenerateCode(u);
    assert Pow10(5) == 100000 && Pow10(6) == 1000000;
    DecimalLength(n, 5);
    DecimalRoundTrip(n);
    DecimalString(n)
  }

  /** `text.replace(/[^0-9]/g, '').slice(0, 6)`. */
  function Sanitize(text: string): (r: string)
    ensures AllDigits(r) && |r| <= 6
    ensures r <= Filter(text, IsDigit)
    ensures |Filter(text, IsDigit)| >= 6 ==> |r| == 6
    ensures |Filter(text, IsDigit)| < 6 ==> r == Filter(text, IsDigit)
  {
    Take(Filter(text, IsDigit), 6)
  }

  /** Sanitising a sanitised input changes nothing. */
  lemma SanitizeIdempotent(text: string)
    ensures Sanitize(Sanitize(text)) == Sanitize(text)
  {
    var r := Sanitize(text);
    FilterAll(r, IsDigit);
  }

  /** `slice(0, -4)` then `****`: all but the last four characters, then four stars. */
  function MaskedPhone(phone: string): (r: string)
    ensures var keep := if |phone| < 4 then 0 else |phone| - 4;
      && |r| == keep + 4
      && r[..keep] == phone[..keep]
      && r[keep..] == "****"
  {
    var keep := if |phone| < 4 then 0 else |phone| - 4;
    phone[..keep] + "****"
  }

  datatype ErrorKey = NoError | EnterOtpError | InvalidOtp

  /** The modal's fields; `error` is held as its translation key. */
  class VerificationModal {
    var otp: string
    var generatedOtp: string
    var isLoading: bool
    var error: ErrorKey

    /** The input is what sanitising can produce: digits, at most six. */
    ghost predicate Valid()
      reads this
    {
      AllDigits(otp) && |otp| <= 6
    }

    constructor ()
      ensures Valid() && otp == "" && generatedOtp == "" && !isLoading && error == NoError
    {
      otp := "";
      generatedOtp := "";
      isLoading := false;
      error := NoError;
    }

    /** The effect on becoming visible: a fresh code, an empty input, no error. */
    method Open(u: real)
      requires 0.0 <= u < 1.0
      modifies this
      ensures Valid()
      ensures generatedOtp == CodeString(u) && |generatedOtp| == 6
      ensures otp == "" && error == NoError && isLoading == old(isLoading)
    {
      generatedOtp := CodeString(u);
      otp := "";
      error := NoError;
    }

    /** `onChangeText`: the sanitised text, and any error cleared. */
    method OnChangeText(text: string)
      modifies this
      ensures Valid()
      ensures otp == Sanitize(text) && error == NoError
      ensures generatedOtp == old(generatedOtp) && isLoading == old(isLoading)
    {
      otp := Sanitize(text);
      error := NoError;
    }

    /** `handleVerify`: a blank input sets `enterOtpError`; the generated code starts the loading
        state and hands the input to `onVerify` (when the 500 ms timer fires); anything else
        sets `invalidOtp`. `onVerify` never sees a wrong code. */
    method HandleVerify() returns (verified: Option<string>)
      modifies this
      ensures otp == old(otp) && generatedOtp == old(generatedOtp)
      ensures IsBlank(otp) ==> verified == None && error == EnterOtpError && isLoading == old(isLoading)
      ensures !IsBlank(otp) && otp == generatedOtp ==> verified == Some(otp) && isLoading && error == old(error)
      ensures !IsBlank(otp) && otp != generatedOtp ==> verified == None && error == InvalidOtp && isLoading == old(isLoading)
      ensures verified.Some? ==> verified.value == generatedOtp
    {
      if IsBlank(otp) {
        error := EnterOtpError;
        return None;
      }
      if otp == generatedOtp {
        isLoading := true;
        verified := Some(otp);
      } else {
        error := InvalidOtp;
        verified := None;
      }
    }

    /** The delayed callback clears the loading state. */
    method FinishLoading()
      modifies this
      ensures !isLoading && otp == old(otp) && generatedOtp == old(generatedOtp) && error == old(error)
    {
      isLoading := false;
    }

    /** `disabled={otp.length !== 6}`. */
    predicate VerifyEnabled()
      reads this
    {
      |otp| == 6
    }

    /** A sanitised input is blank only when empty, so the enabled button never meets the
        blank-input error. */
    lemma BlankMeansEmpty()
      requires Valid()
      ensures IsBlank(otp) <==> otp == ""
      ensures VerifyEnabled() ==> !IsBlank(otp)
    {
      if otp != "" {
        assert IsDigit(otp[0]);
      }
    }
  }
}
