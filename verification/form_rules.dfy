/**
 * The rules the two quote forms share: the required-field test, the phone
 * sanitising and its error flag, the address line, and the contact channel
 * opened after a successful request.
 */
module FormRules {
  import opened Text

  const REQUIRED_FIELDS_MESSAGE: string := "Please fill in all required fields highlighted in red."
  const GENERIC_FAILURE_MESSAGE: string := "An error occurred. Please try again."

  /** A required field left empty or filled with whitespace only. */
  predicate Missing(value: string) {
    AllWhitespace(value)
  }

  /** The forms' `!value.trim()` test is exactly `Missing`. */
  lemma MissingIffTrimEmpty(value: string)
    ensures Missing(value) <==> Trim(value) == []
  {
    BlankIffAllWhitespace(value);
  }

  /** The address line sent with a quote request: `${unit} ${street}, ${state}`. */
  function FullAddress(unit: string, street: string, state: string): string {
    unit + " " + street + ", " + state
  }

  /**
   * The phone error flag after an edit whose sanitised value is `numeric`:
   * a raised flag drops once the value is non-blank, and is never raised here.
   */
  function PhoneFlagAfterEdit(flag: bool, numeric: string): (f: bool)
    requires AllDigits(numeric)
    ensures f <==> flag && numeric == []
  {
    DigitsBlankOnlyWhenEmpty(numeric);
    flag && Missing(numeric)
  }

  /** A string of digits is blank only when it is empty: no digit is whitespace. */
  lemma DigitsBlankOnlyWhenEmpty(s: string)
    requires AllDigits(s)
    ensures AllWhitespace(s) <==> s == []
  {
    if s != [] {
      assert IsAsciiDigit(s[0]) && !IsWhitespace(s[0]);
    }
  }

  /** The sanitised phone: exactly the digits of the input, and sanitising it again changes nothing. */
  lemma PhoneSanitising(raw: string)
    ensures AllDigits(KeepDigits(raw))
    ensures KeepDigits(KeepDigits(raw)) == KeepDigits(raw)
    ensures forall c | IsAsciiDigit(c) :: multiset(KeepDigits(raw))[c] == multiset(raw)[c]
  {
    KeepDigitsIdempotent(raw);
  }

  datatype ContactMethod = Sms | WhatsApp

  /** Where the visitor is sent after a successful request: the WhatsApp link or the SMS URL. */
  datatype Channel = WhatsAppLink | SmsUrl

  /** The width below which the forms treat the viewport as a phone. */
  const MOBILE_BREAKPOINT: int := 768

  function IsMobileWidth(width: int): bool {
    width < MOBILE_BREAKPOINT
  }

  /** The SMS URL is used exactly on a mobile viewport with SMS chosen; otherwise WhatsApp. */
  function ChooseChannel(isMobile: bool, choice: ContactMethod): (ch: Channel)
    ensures ch == SmsUrl <==> isMobile && choice == Sms
    ensures !isMobile ==> ch == WhatsAppLink
  {
    if isMobile then
      match choice
      case WhatsApp => WhatsAppLink
      case Sms => SmsUrl
    else
      WhatsAppLink
  }
}
