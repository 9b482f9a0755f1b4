/**
 * The one-time-code form (src/Entry/Otp-verify.jsx): the field accepts digits
 * only, at most six of them, and the form goes on once all six are entered.
 */
module OtpEntry {
  const CodeLength := 6

  predicate IsDigit(c: char) {
    '0' <= c <= '9'
  }

  predicate AllDigits(s: string) {
    forall k :: 0 <= k < |s| ==> IsDigit(s[k])
  }

  /** `value.replace(/\D/g, '')`: the digits of `s`, in order. */
  function DigitsOf(s: string): (r: string)
    ensures AllDigits(r)
    ensures |r| <= |s|
    ensures forall c :: c in r <==> c in s && IsDigit(c)
  {
    if s == [] then []
    else
      var rest := DigitsOf(s[1..]);
      assert forall c :: c in s <==> c == s[0] || c in s[1..];
      if IsDigit(s[0]) then [s[0]] + rest else rest
  }

  /** Cleaning commutes with concatenation, so the digits keep their order. */
  lemma {:induction false} DigitsOfConcat(a: string, b: string)
    ensures DigitsOf(a + b) == DigitsOf(a) + DigitsOf(b)
  {
    if a == [] {
      assert a + b == b;
    } else {
      assert (a + b)[1..] == a[1..] + b;
      DigitsOfConcat(a[1..], b);
    }
  }

  /** A string of digits is left as it is; in particular cleaning twice is cleaning once. */
  lemma {:induction false} DigitsOfDigits(s: string)
    requires AllDigits(s)
    ensures DigitsOf(s) == s
  {
    if s != [] {
      DigitsOfDigits(s[1..]);
    }
  }

  /** Where submitting leads: on to profile completion, or an alert. */
  datatype SubmitResult = GoCompleteProfile | AlertInvalid

  /** The form's state: the code typed so far. */
  class OtpForm {
    var otp: string

    /** What the field can hold: digits only, at most six. */
    ghost predicate Valid()
      reads this
    {
      AllDigits(otp) && |otp| <= CodeLength
    }

    constructor ()
      ensures otp == "" && Valid()
    {
      otp := "";
    }

    /** `handleOtpChange`: keep the cleaned input if it fits, else keep the old code. */
    method Change(input: string)
      modifies this
      ensures |DigitsOf(input)| <= CodeLength ==> otp == DigitsOf(input)
      ensures |DigitsOf(input)| > CodeLength ==> otp == old(otp)
      ensures old(Valid()) ==> Valid()
    {
      var value := DigitsOf(input);
      if |value| <= CodeLength {
        otp := value;
      }
    }

    /** `handleSubmit`: six digits go on to profile completion; anything shorter raises an alert. */
    method Submit() returns (r: SubmitResult)
      ensures r == GoCompleteProfile <==> |otp| == CodeLength
    {
      if |otp| == CodeLength {
        r := GoCompleteProfile;
      } else {
        r := AlertInvalid;
      }
    }

    /** `handleResendOtp`: only logs; the code typed so far stays. */
    method Resend()
      ensures unchanged(this)
    {
    }
  }
}
