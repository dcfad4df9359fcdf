/** The phone number screen: a length check before the OTP is requested. */
module PhoneInputScreen {
  datatype SendOutcome = Rejected(title: string, message: string) | Sent(phone: string)

  /** `handleSendOtp`: anything but ten characters is refused with an alert; ten characters, of
      whatever kind, are passed on unchanged. */
  function HandleSendOtp(phone: string): (r: SendOutcome)
    ensures r.Sent? <==> |phone| == 10
    ensures r.Sent? ==> r.phone == phone
    ensures r.Rejected? ==> r == Rejected("Invalid Number", "Please enter a valid 10-digit mobile number")
  {
    if |phone| != 10 then Rejected("Invalid Number", "Please enter a valid 10-digit mobile number")
    else Sent(phone)
  }

  /** The send button's `disabled` rule. */
  predicate ButtonDisabled(phone: string) {
    |phone| != 10
  }

  /** The button is enabled exactly when the handler would send; no character check is made. */
  lemma ButtonMatchesGuard(phone: string)
    ensures !ButtonDisabled(phone) <==> HandleSendOtp(phone).Sent?
    ensures HandleSendOtp("98x6543210").Sent?
  {
  }
}
