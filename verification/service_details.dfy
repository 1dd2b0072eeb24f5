/**
 * The service detail page: how it reads the service's `details` into a list
 * of key points and shows each one, and the quote form at its foot.
 */
module ServiceDetails {
  import opened Wrappers
  import opened Text
  import opened Types
  import opened FormRules
  import Api

  const SUCCESS_MESSAGE: string := "Your quote request has been sent! We will contact you shortly."
  const NOT_FOUND_MESSAGE: string := "Service could not be found."

  // ---------------------------------------------------------------------------
  // Key points
  // ---------------------------------------------------------------------------

  /** The `details` value of a fetched service: a string, an array of strings, or anything else (missing, null, a number). */
  datatype DetailsField = DText(text: string) | DList(items: seq<string>) | DOther

  /**
   * The key-point list. A non-empty string is split on commas, each piece
   * trimmed and empty pieces dropped; an array is used as it is; anything
   * else, and the empty string, gives no key points.
   */
  function ParseDetails(d: DetailsField): (r: seq<string>)
    ensures d.DText? ==> forall k :: 0 <= k < |r| ==> ListItem(r[k])
    ensures d.DList? ==> r == d.items
    ensures d.DOther? ==> r == []
  {
    match d
    case DText(s) => if s == [] then [] else ParseCommaList(s)
    case DList(items) => items
    case DOther => []
  }

  /** The truthiness test in front of the split changes nothing for strings: the empty string splits into nothing anyway. */
  lemma EmptyTextParsesEmpty()
    ensures ParseCommaList([]) == []
    ensures forall s :: ParseDetails(DText(s)) == ParseCommaList(s)
  {
    assert Split([], ',') == [[]];
  }

  /** Key points joined with `", "` in the admin form come back as the same list. */
  lemma DetailsRoundTrip(ds: seq<string>)
    requires forall k :: 0 <= k < |ds| ==> ListItem(ds[k])
    ensures ParseDetails(DText(Join(ds, ", "))) == ds
  {
    EmptyTextParsesEmpty();
    ParseJoinedList(ds);
  }

  /** A key point as shown: with a full stop added unless it already ends with one. */
  function DisplayItem(item: string): (r: string)
    ensures EndsWith(r, ".")
    ensures EndsWith(item, ".") ==> r == item
    ensures !EndsWith(item, ".") ==> r == item + "."
  {
    if EndsWith(item, ".") then item
    else
      var r := item + ".";
      assert r[|r| - 1..] == ".";
      r
  }

  /** Showing a shown key point again adds nothing. */
  lemma DisplayItemIdempotent(item: string)
    ensures DisplayItem(DisplayItem(item)) == DisplayItem(item)
  {
  }

  /**
   * The service's image: its stored path with backslashes turned into
   * slashes, or none when the path is empty, where the page shows the
   * "No image available" placeholder instead.
   */
  function ImageSource(imageUrl: string): (r: Option<string>)
    ensures r.None? <==> imageUrl == []
    ensures r.Some? ==>
              |r.value| == |imageUrl| && '\\' !in r.value
              && forall i :: 0 <= i < |imageUrl| ==> r.value[i] == (if imageUrl[i] == '\\' then '/' else imageUrl[i])
  {
    if imageUrl == [] then None
    else
      ReplaceCharRemoves(imageUrl, '\\', '/');
      Some(ReplaceChar(imageUrl, '\\', '/'))
  }

  /** The page's own fetch of one service, with its loading and error state and the parsed key points. */
  class ServicePage {
    var service: Option<Service>
    var loading: bool
    var error: Option<string>
    var detailsList: seq<string>

    constructor ()
      ensures service == None && loading && error == None && detailsList == []
    {
      service := None;
      loading := true;
      error := None;
      detailsList := [];
    }

    /**
     * One fetch, given whether the response was ok and what its body held
     * (a parse failure carries the thrown message). A response that is not
     * ok shows a fixed message; the key points are parsed from `details`.
     */
    method LoadService(responseOk: bool, data: Result<(Service, DetailsField), string>)
      modifies this
      ensures !loading
      ensures !responseOk ==>
                error == Some(NOT_FOUND_MESSAGE) && service == old(service) && detailsList == old(detailsList)
      ensures responseOk && data.Err? ==>
                error == Some(data.error) && service == old(service) && detailsList == old(detailsList)
      ensures responseOk && data.Ok? ==>
                error == None && service == Some(data.value.0) && detailsList == ParseDetails(data.value.1)
    {
      loading := true;
      error := None;
      if !responseOk {
        error := Some(NOT_FOUND_MESSAGE);
      } else {
        match data {
          case Ok(fetched) =>
            service := Some(fetched.0);
            detailsList := ParseDetails(fetched.1);
          case Err(message) =>
            error := Some(message);
        }
      }
      loading := false;
    }
  }

  // ---------------------------------------------------------------------------
  // The quote form
  // ---------------------------------------------------------------------------

  datatype QuoteFields = QuoteFields(
    name: string,
    phone: string,
    unitHouseNumber: string,
    streetName: string,
    state: string,
    notes: string)

  const EmptyQuote: QuoteFields := QuoteFields([], [], [], [], [], [])

  datatype QuoteFlags = QuoteFlags(
    name: bool,
    phone: bool,
    unitHouseNumber: bool,
    streetName: bool,
    state: bool)

  const NoQuoteFlags: QuoteFlags := QuoteFlags(false, false, false, false, false)

  predicate AnyQuoteFlag(v: QuoteFlags) {
    v.name || v.phone || v.unitHouseNumber || v.streetName || v.state
  }

  function ValidateQuote(f: QuoteFields): QuoteFlags
  {
    QuoteFlags(
      Missing(f.name),
      Missing(f.phone),
      Missing(f.unitHouseNumber),
      Missing(f.streetName),
      Missing(f.state))
  }

  /**
   * Each of the five required fields is flagged exactly when trimming leaves
   * nothing; the notes never raise a flag.
   */
  lemma QuoteValidationFlags(f: QuoteFields, notes: string)
    ensures var v := ValidateQuote(f);
            (v.name <==> Trim(f.name) == [])
            && (v.phone <==> Trim(f.phone) == [])
            && (v.unitHouseNumber <==> Trim(f.unitHouseNumber) == [])
            && (v.streetName <==> Trim(f.streetName) == [])
            && (v.state <==> Trim(f.state) == [])
    ensures ValidateQuote(f.(notes := notes)) == ValidateQuote(f)
  {
    MissingIffTrimEmpty(f.name);
    MissingIffTrimEmpty(f.phone);
    MissingIffTrimEmpty(f.unitHouseNumber);
    MissingIffTrimEmpty(f.streetName);
    MissingIffTrimEmpty(f.state);
  }

  /** The booking record the form sends: the service is the page's own. */
  function QuoteData(f: QuoteFields, serviceName: string, now: string): Api.Json {
    Api.JObj([
      ("name", Api.JStr(f.name)),
      ("phone", Api.JStr(f.phone)),
      ("address", Api.JStr(FullAddress(f.unitHouseNumber, f.streetName, f.state))),
      ("notes", Api.JStr(f.notes)),
      ("serviceType", Api.JStr(serviceName)),
      ("preferredDateTime", Api.JStr(now))])
  }

  datatype QuoteField = Name | UnitHouseNumber | StreetName | State | Notes

  function WithQuoteText(f: QuoteFields, field: QuoteField, value: string): QuoteFields {
    match field
    case Name => f.(name := value)
    case UnitHouseNumber => f.(unitHouseNumber := value)
    case StreetName => f.(streetName := value)
    case State => f.(state := value)
    case Notes => f.(notes := value)
  }

  function ClearQuoteFlag(v: QuoteFlags, field: QuoteField): QuoteFlags {
    match field
    case Name => v.(name := false)
    case UnitHouseNumber => v.(unitHouseNumber := false)
    case StreetName => v.(streetName := false)
    case State => v.(state := false)
    case Notes => v
  }

  class QuoteForm {
    const serviceName: string
    var fields: QuoteFields
    var errors: QuoteFlags
    var loading: bool
    var error: string
    var success: string
    var contactMethod: ContactMethod
    var isMobile: bool

    constructor (serviceName: string)
      ensures this.serviceName == serviceName
      ensures fields == EmptyQuote && errors == NoQuoteFlags
      ensures !loading && error == [] && success == [] && contactMethod == WhatsApp && !isMobile
    {
      this.serviceName := serviceName;
      fields := EmptyQuote;
      errors := NoQuoteFlags;
      loading := false;
      error := [];
      success := [];
      contactMethod := WhatsApp;
      isMobile := false;
    }

    method CheckViewport(width: int)
      modifies this
      ensures isMobile == IsMobileWidth(width)
      ensures fields == old(fields) && errors == old(errors) && contactMethod == old(contactMethod)
      ensures loading == old(loading) && error == old(error) && success == old(success)
    {
      isMobile := IsMobileWidth(width);
    }

    method ChooseContactMethod(choice: ContactMethod)
      modifies this
      ensures contactMethod == choice
      ensures fields == old(fields) && errors == old(errors) && isMobile == old(isMobile)
      ensures loading == old(loading) && error == old(error) && success == old(success)
    {
      contactMethod := choice;
    }

    /** Typing into a free-text input keeps the value as typed and drops that input's flag. */
    method Type(field: QuoteField, value: string)
      modifies this
      ensures fields == WithQuoteText(old(fields), field, value)
      ensures errors == ClearQuoteFlag(old(errors), field)
      ensures contactMethod == old(contactMethod) && isMobile == old(isMobile)
      ensures loading == old(loading) && error == old(error) && success == old(success)
    {
      fields := WithQuoteText(fields, field, value);
      errors := ClearQuoteFlag(errors, field);
    }

    /** Typing a phone number keeps its digits only; a raised flag drops once some digit is left. */
    method HandlePhoneChange(raw: string)
      modifies this
      ensures fields == old(fields).(phone := KeepDigits(raw))
      ensures AllDigits(fields.phone)
      ensures errors == old(errors).(phone := old(errors.phone) && KeepDigits(raw) == [])
      ensures contactMethod == old(contactMethod) && isMobile == old(isMobile)
      ensures loading == old(loading) && error == old(error) && success == old(success)
    {
      var numeric := KeepDigits(raw);
      fields := fields.(phone := numeric);
      errors := errors.(phone := PhoneFlagAfterEdit(errors.phone, numeric));
    }

    /**
     * Submitting the form, given the clock's ISO timestamp and how the
     * `createBooking` call came out. A form with a flag raised makes no
     * request. Success clears all six fields and the flags, puts WhatsApp
     * back and opens the chosen channel; failure shows the error's message,
     * or a fixed text when it has none, and keeps what was typed.
     */
    method HandleSubmit(now: string, outcome: Result<Api.Json, Api.ApiError>)
      returns (request: Option<Api.Call>, channel: Option<Channel>)
      modifies this
      ensures AnyQuoteFlag(ValidateQuote(old(fields))) ==>
                request == None && channel == None
                && fields == old(fields) && errors == ValidateQuote(old(fields))
                && error == REQUIRED_FIELDS_MESSAGE && success == []
                && loading == old(loading) && contactMethod == old(contactMethod)
      ensures !AnyQuoteFlag(ValidateQuote(old(fields))) ==>
                request == Some(Api.CallFor(Api.CreateBooking(QuoteData(old(fields), serviceName, now)))) && !loading
      ensures !AnyQuoteFlag(ValidateQuote(old(fields))) && outcome.Ok? ==>
                fields == EmptyQuote && errors == NoQuoteFlags && contactMethod == WhatsApp
                && success == SUCCESS_MESSAGE && error == []
                && channel == Some(ChooseChannel(old(isMobile), old(contactMethod)))
      ensures !AnyQuoteFlag(ValidateQuote(old(fields))) && outcome.Err? ==>
                fields == old(fields) && errors == NoQuoteFlags && contactMethod == old(contactMethod)
                && success == [] && error == Api.MessageOr(outcome.error, GENERIC_FAILURE_MESSAGE)
                && error != [] && channel == None
      ensures isMobile == old(isMobile)
    {
      error := [];
      success := [];
      var newErrors := ValidateQuote(fields);
      errors := newErrors;
      if AnyQuoteFlag(newErrors) {
        error := REQUIRED_FIELDS_MESSAGE;
        request, channel := None, None;
        return;
      }
      loading := true;
      var submission := QuoteData(fields, serviceName, now);
      request := Some(Api.CallFor(Api.CreateBooking(submission)));
      match outcome {
        case Ok(_) =>
          success := SUCCESS_MESSAGE;
          channel := Some(ChooseChannel(isMobile, contactMethod));
          fields := EmptyQuote;
          errors := NoQuoteFlags;
          contactMethod := WhatsApp;
        case Err(e) =>
          error := Api.MessageOr(e, GENERIC_FAILURE_MESSAGE);
          channel := None;
      }
      loading := false;
    }
  }
}
