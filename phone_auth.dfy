/**
 * Phone-number sign-in (src/components/auth/PhoneAuth.tsx): the number is normalised to
 * start with `+`, checked against the international format (a `+`, a non-zero first digit
 * and at most 15 digits, the limit of clause 6 of ITU-T E.164), and then a one-time code is
 * requested and verified. The authentication service is not modelled: what it answers is a
 * parameter of the handler that awaits it.
 */
module PhoneAuth {
  import opened Options
  import opened Text

  /** formatPhoneNumber: a non-empty number without a leading `+` gets one. */
  function FormatPhoneNumber(value: string): (r: string)
    ensures value != "" && !StartsWith(value, "+") ==> r == "+" + value
    ensures value == "" || StartsWith(value, "+") ==> r == value
  {
    if value != "" && !StartsWith(value, "+") then "+" + value else value
  }

  /** Normalising twice is normalising once, and a non-empty result always starts with `+`. */
  lemma FormatPhoneNumberIdempotent(value: string)
    ensures FormatPhoneNumber(FormatPhoneNumber(value)) == FormatPhoneNumber(value)
    ensures FormatPhoneNumber(value) != "" ==> StartsWith(FormatPhoneNumber(value), "+")
    ensures FormatPhoneNumber(value) == "" <==> value == ""
  {
    var r := FormatPhoneNumber(value);
    if value != "" && !StartsWith(value, "+") {
      assert r[..1] == "+";
    }
  }

  predicate AllDigits(s: string) {
    forall k | 0 <= k < |s| :: IsDigit(s[k])
  }

  /** `/^\+[1-9]\d{1,14}$/.test(s)`: `+`, a digit 1-9, then one to fourteen digits. */
  predicate InternationalShape(s: string) {
    && 3 <= |s| <= 16
    && s[0] == '+'
    && '1' <= s[1] <= '9'
    && AllDigits(s[2..])
  }

  /** An accepted number carries 2 to 15 digits after the `+`, the first of them not zero. */
  lemma InternationalDigits(s: string)
    requires InternationalShape(s)
    ensures 2 <= |s[1..]| <= 15 && AllDigits(s[1..]) && s[1] != '0'
  {
    assert forall k | 1 <= k < |s[1..]| :: s[1..][k] == s[2..][k - 1];
  }

  /** The other way round: `+` followed by 2 to 15 digits with a non-zero first digit is accepted. */
  lemma DigitsAreInternational(digits: string)
    requires 2 <= |digits| <= 15 && AllDigits(digits) && digits[0] != '0'
    ensures InternationalShape("+" + digits)
  {
    var s := "+" + digits;
    assert s[2..] == digits[1..];
  }

  /** Typing the number without its `+` is accepted exactly as typing it with the `+`. */
  lemma SignOptional(digits: string)
    requires |digits| > 0 && digits[0] != '+'
    ensures FormatPhoneNumber(digits) == FormatPhoneNumber("+" + digits) == "+" + digits
  {
    assert ("+" + digits)[..1] == "+";
  }

  /** Sixteen digits are one too many, and a leading zero is refused. */
  lemma InternationalExamples()
    ensures InternationalShape(FormatPhoneNumber("912345678900"))
    ensures !InternationalShape(FormatPhoneNumber("1234567890123456"))
    ensures !InternationalShape(FormatPhoneNumber("+0123"))
  {
    SignOptional("912345678900");
    DigitsAreInternational("912345678900");
    SignOptional("1234567890123456");
    assert ("+0123")[..1] == "+";
  }

  const ShapeError := "Please enter a valid phone number with country code (e.g., +91 for IND)"
  const SendFallback := "Failed to send verification code. Please try again."
  const MissingConfirmation := "Missing confirmation result. Please restart the verification process."
  const VerifyFallback := "Failed to verify code. Please try again."

  /** `error.message || fallback`: an empty or absent message (written "") gives the fallback. */
  function MessageOr(message: string, fallback: string): (shown: string)
    ensures message != "" ==> shown == message
    ensures message == "" ==> shown == fallback
  {
    if message != "" then message else fallback
  }

  datatype Step = PhoneStep | OtpStep

  /** The handle `phoneSignIn` resolves with, used later to confirm the code. */
  datatype Confirmation = Confirmation(verificationId: string)

  datatype SendOutcome = Sent(confirmation: Confirmation) | SendFailed(message: string)
  datatype VerifyOutcome = Verified | VerifyFailed(message: string)

  /** The component's state between two handlers. */
  class SignIn {
    var phoneNumber: string
    var otp: string
    var step: Step
    var error: string
    var confirmation: Option<Confirmation>
    var loading: bool

    /** No handler is running, and the code step is only reached with a confirmation handle. */
    ghost predicate Valid()
      reads this
    {
      !loading && (step == OtpStep ==> confirmation.Some?) && |otp| <= 6
    }

    constructor ()
      ensures Valid()
      ensures phoneNumber == "" && otp == "" && step == PhoneStep && error == "" && confirmation == None
    {
      phoneNumber, otp, step, error, confirmation, loading := "", "", PhoneStep, "", None, false;
    }

    /** `disabled={loading || !phoneNumber}` on the Send button, negated. */
    predicate SendEnabled()
      reads this
    {
      !loading && phoneNumber != ""
    }

    /** `disabled={loading || otp.length !== 6}` on the Verify button, negated. */
    predicate VerifyEnabled()
      reads this
    {
      !loading && |otp| == 6
    }

    /** `disabled={loading}` on the Back button, negated. */
    predicate BackEnabled()
      reads this
    {
      !loading
    }

    /** handlePhoneChange. */
    method SetPhone(value: string)
      requires Valid()
      modifies this
      ensures Valid()
      ensures phoneNumber == value && SendEnabled() == (value != "")
      ensures otp == old(otp) && step == old(step) && error == old(error) && confirmation == old(confirmation)
    {
      phoneNumber := value;
    }

    /** The code input: `maxLength={6}` keeps at most its first six characters. */
    method SetOtp(value: string)
      requires Valid()
      modifies this
      ensures Valid()
      ensures otp == if |value| <= 6 then value else value[..6]
      ensures VerifyEnabled() <==> |value| >= 6
      ensures phoneNumber == old(phoneNumber) && step == old(step) && error == old(error)
      ensures confirmation == old(confirmation)
    {
      otp := if |value| <= 6 then value else value[..6];
    }

    /**
     * handleSendOtp. `outcome` is what `phoneSignIn` does when it is called; the result names
     * the number it was called with, or None when the shape check stopped the request.
     */
    method SendOtp(outcome: SendOutcome) returns (requested: Option<string>)
      requires Valid()
      modifies this
      ensures Valid() && !loading
      ensures phoneNumber == old(phoneNumber) && otp == old(otp)
      ensures !InternationalShape(FormatPhoneNumber(phoneNumber)) ==>
        && requested == None && error == ShapeError
        && step == old(step) && confirmation == old(confirmation)
      ensures InternationalShape(FormatPhoneNumber(phoneNumber)) ==>
        requested == Some(FormatPhoneNumber(phoneNumber))
      ensures InternationalShape(FormatPhoneNumber(phoneNumber)) && outcome.Sent? ==>
        error == "" && step == OtpStep && confirmation == Some(outcome.confirmation)
      ensures InternationalShape(FormatPhoneNumber(phoneNumber)) && outcome.SendFailed? ==>
        && error == MessageOr(outcome.message, SendFallback)
        && step == old(step) && confirmation == old(confirmation)
    {
      error := "";
      loading := true;
      var formatted := FormatPhoneNumber(phoneNumber);
      if !InternationalShape(formatted) {
        requested := None;
        error := ShapeError;
      } else {
        requested := Some(formatted);
        match outcome {
          case Sent(c) =>
            confirmation := Some(c);
            step := OtpStep;
          case SendFailed(m) =>
            error := MessageOr(m, SendFallback);
        }
      }
      loading := false;
    }

    /**
     * handleVerifyOtp. `outcome` is what `confirmOtp` does when it is called; the result
     * names the handle and code it was called with, or None when there was no handle.
     */
    method VerifyOtp(outcome: VerifyOutcome) returns (confirmed: Option<(Confirmation, string)>)
      requires Valid()
      modifies this
      ensures Valid() && !loading
      ensures phoneNumber == old(phoneNumber) && otp == old(otp) && step == old(step)
      ensures confirmation == old(confirmation)
      ensures confirmation.None? ==> confirmed == None && error == MissingConfirmation
      ensures confirmation.Some? ==> confirmed == Some((confirmation.value, otp))
      ensures confirmation.Some? && outcome.Verified? ==> error == ""
      ensures confirmation.Some? && outcome.VerifyFailed? ==> error == MessageOr(outcome.message, VerifyFallback)
    {
      error := "";
      loading := true;
      if confirmation.None? {
        error := MissingConfirmation;
        loading := false;
        return None;
      }
      confirmed := Some((confirmation.value, otp));
      if outcome.VerifyFailed? {
        error := MessageOr(outcome.message, VerifyFallback);
      }
      loading := false;
    }

    /** The "Back to Phone Number" button. */
    method BackToPhone()
      requires Valid()
      modifies this
      ensures Valid()
      ensures step == PhoneStep
      ensures phoneNumber == old(phoneNumber) && otp == old(otp) && error == old(error)
      ensures confirmation == old(confirmation)
    {
      step := PhoneStep;
    }
  }
}
