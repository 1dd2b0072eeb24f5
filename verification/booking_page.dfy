/**
 * The quote request page: the form's fields and error flags, the service
 * checklist, phone sanitising, validation, the booking payload, and what a
 * submission leaves behind.
 */
module BookingPage {
  import opened Wrappers
  import opened Text
  import opened Types
  import opened FormRules
  import Api

  const SUCCESS_MESSAGE: string := "Your quote request has been sent!"
  const SERVICES_LOAD_FAILURE: string := "Could not load services. Please refresh."

  /** What the visitor has typed and ticked. */
  datatype Fields = Fields(
    name: string,
    phone: string,
    email: string,
    unitHouseNumber: string,
    streetName: string,
    state: string,
    selectedServices: seq<string>,
    notes: string)

  const EmptyFields: Fields := Fields([], [], [], [], [], [], [], [])

  /** One error flag per required input; a raised flag paints the input red. */
  datatype Flags = Flags(
    name: bool,
    phone: bool,
    email: bool,
    unitHouseNumber: bool,
    streetName: bool,
    state: bool,
    services: bool)

  const NoFlags: Flags := Flags(false, false, false, false, false, false, false)

  predicate AnyFlag(v: Flags) {
    v.name || v.phone || v.email || v.unitHouseNumber || v.streetName || v.state || v.services
  }

  /**
   * The flags a submission computes: a text field is flagged exactly when it
   * is whitespace only, the email also when it has no `@`, and the checklist
   * when nothing is ticked. The notes are never checked.
   */
  function Validate(f: Fields): Flags
  {
    Flags(
      Missing(f.name),
      Missing(f.phone),
      Missing(f.email) || '@' !in f.email,
      Missing(f.unitHouseNumber),
      Missing(f.streetName),
      Missing(f.state),
      |f.selectedServices| == 0)
  }

  /**
   * What each flag means, in the page's own `!value.trim()` terms: a text
   * field is flagged exactly when trimming leaves nothing, the email also
   * when it has no `@`, and the checklist when nothing is ticked.
   */
  lemma ValidationFlags(f: Fields)
    ensures var v := Validate(f);
            (v.name <==> Trim(f.name) == [])
            && (v.phone <==> Trim(f.phone) == [])
            && (v.email <==> Trim(f.email) == [] || '@' !in f.email)
            && (v.unitHouseNumber <==> Trim(f.unitHouseNumber) == [])
            && (v.streetName <==> Trim(f.streetName) == [])
            && (v.state <==> Trim(f.state) == [])
            && (v.services <==> f.selectedServices == [])
  {
    MissingIffTrimEmpty(f.name);
    MissingIffTrimEmpty(f.phone);
    MissingIffTrimEmpty(f.email);
    MissingIffTrimEmpty(f.unitHouseNumber);
    MissingIffTrimEmpty(f.streetName);
    MissingIffTrimEmpty(f.state);
  }

  /** A form whose required fields hold something passes validation whatever the notes say. */
  lemma NotesNeverChecked(f: Fields, notes: string)
    ensures Validate(f.(notes := notes)) == Validate(f)
  {
  }

  /** Ticking a checklist entry: an entry already ticked is removed, any other is appended at the end. */
  function ToggleService(selected: seq<string>, name: string): (r: seq<string>)
    ensures name in selected ==> name !in r
    ensures name in selected ==> forall x | x != name :: multiset(r)[x] == multiset(selected)[x]
    ensures name !in selected ==> r == selected + [name]
  {
    if name in selected then
      Without(selected, {name})
    else
      selected + [name]
  }

  /** Unticking cuts the entry out where it stood: the entries before and after it keep their order. */
  lemma ToggleRemovesInPlace(before: seq<string>, name: string, after: seq<string>)
    requires name !in before && name !in after
    ensures ToggleService(before + [name] + after, name) == before + after
  {
    assert (before + [name] + after)[|before|] == name;
    WithoutCutsOut(before, name, after, {name});
  }

  /** Ticking an entry that was not ticked and then ticking it again restores the selection. */
  lemma ToggleTwice(selected: seq<string>, name: string)
    requires name !in selected
    ensures ToggleService(ToggleService(selected, name), name) == selected
  {
    assert forall i :: 0 <= i < |selected| ==> selected[i] !in {name};
    WithoutConcat(selected, [name], {name});
    WithoutNoop(selected, {name});
    assert Without([name], {name}) == [];
    assert selected + [] == selected;
  }

  /** Toggling keeps the selection free of duplicates. */
  lemma ToggleKeepsDistinct(selected: seq<string>, name: string)
    requires Distinct(selected)
    ensures Distinct(ToggleService(selected, name))
  {
    if name in selected {
      WithoutDistinct(selected, {name});
    } else {
      var r := selected + [name];
      forall i, j | 0 <= i < j < |r| ensures r[i] != r[j] {
        if j == |selected| {
          assert r[i] == selected[i];
        }
      }
    }
  }

  /** The free-text inputs; each required one drops its own flag when edited. */
  datatype TextField = Name | Email | UnitHouseNumber | StreetName | State | Notes

  function WithText(f: Fields, field: TextField, value: string): Fields {
    match field
    case Name => f.(name := value)
    case Email => f.(email := value)
    case UnitHouseNumber => f.(unitHouseNumber := value)
    case StreetName => f.(streetName := value)
    case State => f.(state := value)
    case Notes => f.(notes := value)
  }

  function ClearFlag(v: Flags, field: TextField): Flags {
    match field
    case Name => v.(name := false)
    case Email => v.(email := false)
    case UnitHouseNumber => v.(unitHouseNumber := false)
    case StreetName => v.(streetName := false)
    case State => v.(state := false)
    case Notes => v
  }

  /** The booking record sent to the backend, in the order the page builds it. */
  function SubmissionData(f: Fields, now: string): Api.Json {
    Api.JObj([
      ("name", Api.JStr(f.name)),
      ("phone", Api.JStr(f.phone)),
      ("email", Api.JStr(f.email)),
      ("address", Api.JStr(FullAddress(f.unitHouseNumber, f.streetName, f.state))),
      ("serviceType", Api.JStr(Join(f.selectedServices, ", "))),
      ("preferredDateTime", Api.JStr(now)),
      ("notes", Api.JStr(f.notes))])
  }

  /**
   * The `serviceType` text lists the ticked services in the order they were
   * ticked: read back as a comma-separated list it gives the selection again,
   * as long as no service name is padded, empty or holds a comma.
   */
  lemma ServiceTypeListsSelection(f: Fields, now: string)
    requires forall k :: 0 <= k < |f.selectedServices| ==> ListItem(f.selectedServices[k])
    ensures SubmissionData(f, now).fields[4].0 == "serviceType"
    ensures ParseCommaList(SubmissionData(f, now).fields[4].1.s) == f.selectedServices
  {
    var joined := Join(f.selectedServices, ", ");
    assert SubmissionData(f, now).fields[4] == ("serviceType", Api.JStr(joined));
    ParseJoinedList(f.selectedServices);
  }

  /** The address starts with the unit and a space and ends with a comma, a space and the state. */
  lemma AddressLayout(f: Fields, now: string)
    ensures SubmissionData(f, now).fields[3].0 == "address"
    ensures var a := SubmissionData(f, now).fields[3].1.s;
            StartsWith(a, f.unitHouseNumber + " ") && EndsWith(a, ", " + f.state)
  {
    var a := FullAddress(f.unitHouseNumber, f.streetName, f.state);
    assert a == (f.unitHouseNumber + " ") + (f.streetName + ", " + f.state);
    assert a == (f.unitHouseNumber + " " + f.streetName) + (", " + f.state);
  }

  class BookingForm {
    var fields: Fields
    var errors: Flags
    var allServices: seq<Service>
    var loading: bool
    var error: string
    var success: string
    var contactMethod: ContactMethod
    var formSubmitted: bool
    var isMobile: bool

    /** The checklist never holds a service twice. */
    predicate Valid()
      reads this
    {
      Distinct(fields.selectedServices)
    }

    constructor ()
      ensures fields == EmptyFields && errors == NoFlags && allServices == []
      ensures !loading && error == [] && success == []
      ensures contactMethod == WhatsApp && !formSubmitted && !isMobile
      ensures Valid()
    {
      fields := EmptyFields;
      errors := NoFlags;
      allServices := [];
      loading := false;
      error := [];
      success := [];
      contactMethod := WhatsApp;
      formSubmitted := false;
      isMobile := false;
    }

    /** The viewport check run on mount and on every resize. */
    method CheckViewport(width: int)
      modifies this
      ensures isMobile == IsMobileWidth(width)
      ensures fields == old(fields) && errors == old(errors) && allServices == old(allServices)
      ensures loading == old(loading) && error == old(error) && success == old(success)
      ensures contactMethod == old(contactMethod) && formSubmitted == old(formSubmitted)
    {
      isMobile := IsMobileWidth(width);
    }

    /** Loading the checklist: the services on success, a fixed message on failure. */
    method LoadServices(outcome: Result<seq<Service>, Api.ApiError>)
      modifies this
      ensures outcome.Ok? ==> allServices == outcome.value && error == old(error)
      ensures outcome.Err? ==> allServices == old(allServices) && error == SERVICES_LOAD_FAILURE
      ensures fields == old(fields) && errors == old(errors) && isMobile == old(isMobile)
      ensures loading == old(loading) && success == old(success)
      ensures contactMethod == old(contactMethod) && formSubmitted == old(formSubmitted)
    {
      match outcome
      case Ok(data) => allServices := data;
      case Err(_) => error := SERVICES_LOAD_FAILURE;
    }

    /** Typing into a free-text input: the value is kept as typed and the input's own flag drops. */
    method Type(field: TextField, value: string)
      modifies this
      ensures fields == WithText(old(fields), field, value)
      ensures errors == ClearFlag(old(errors), field)
      ensures allServices == old(allServices) && isMobile == old(isMobile)
      ensures loading == old(loading) && error == old(error) && success == old(success)
      ensures contactMethod == old(contactMethod) && formSubmitted == old(formSubmitted)
      ensures old(Valid()) ==> Valid()
    {
      fields := WithText(fields, field, value);
      errors := ClearFlag(errors, field);
    }

    method ChooseContactMethod(choice: ContactMethod)
      modifies this
      ensures contactMethod == choice
      ensures fields == old(fields) && errors == old(errors) && allServices == old(allServices)
      ensures loading == old(loading) && error == old(error) && success == old(success)
      ensures formSubmitted == old(formSubmitted) && isMobile == old(isMobile)
    {
      contactMethod := choice;
    }

    /** Ticking a checklist entry toggles it and drops the checklist's flag. */
    method HandleServiceChange(serviceName: string)
      requires Valid()
      modifies this
      ensures Valid()
      ensures fields == old(fields).(selectedServices := ToggleService(old(fields.selectedServices), serviceName))
      ensures errors == old(errors).(services := false)
      ensures allServices == old(allServices) && isMobile == old(isMobile)
      ensures loading == old(loading) && error == old(error) && success == old(success)
      ensures contactMethod == old(contactMethod) && formSubmitted == old(formSubmitted)
    {
      if errors.services {
        errors := errors.(services := false);
      }
      ToggleKeepsDistinct(fields.selectedServices, serviceName);
      fields := fields.(selectedServices := ToggleService(fields.selectedServices, serviceName));
    }

    /** Typing a phone number keeps its digits only; a raised flag drops once some digit is left. */
    method HandlePhoneChange(raw: string)
      modifies this
      ensures fields == old(fields).(phone := KeepDigits(raw))
      ensures AllDigits(fields.phone)
      ensures errors == old(errors).(phone := old(errors.phone) && KeepDigits(raw) == [])
      ensures allServices == old(allServices) && isMobile == old(isMobile)
      ensures loading == old(loading) && error == old(error) && success == old(success)
      ensures contactMethod == old(contactMethod) && formSubmitted == old(formSubmitted)
      ensures old(Valid()) ==> Valid()
    {
      var numeric := KeepDigits(raw);
      fields := fields.(phone := numeric);
      errors := errors.(phone := PhoneFlagAfterEdit(errors.phone, numeric));
    }

    /**
     * Submitting the form, given the clock's ISO timestamp and how the
     * `createBooking` call came out. A form with a flag raised makes no
     * request. Otherwise the booking is sent; success clears the form and
     * opens the chosen channel, failure keeps what was typed.
     */
    method HandleSubmit(now: string, outcome: Result<Api.Json, Api.ApiError>)
      returns (request: Option<Api.Call>, channel: Option<Channel>)
      requires Valid()
      modifies this
      ensures Valid()
      ensures AnyFlag(Validate(old(fields))) ==>
                request == None && channel == None
                && fields == old(fields) && errors == Validate(old(fields))
                && error == REQUIRED_FIELDS_MESSAGE && success == [] && formSubmitted
                && loading == old(loading) && contactMethod == old(contactMethod)
      ensures !AnyFlag(Validate(old(fields))) ==>
                request == Some(Api.CallFor(Api.CreateBooking(SubmissionData(old(fields), now)))) && !loading
      ensures !AnyFlag(Validate(old(fields))) && outcome.Ok? ==>
                fields == EmptyFields && errors == NoFlags && !formSubmitted && contactMethod == WhatsApp
                && success == SUCCESS_MESSAGE && error == []
                && channel == Some(ChooseChannel(old(isMobile), old(contactMethod)))
      ensures !AnyFlag(Validate(old(fields))) && outcome.Err? ==>
                fields == old(fields) && errors == NoFlags && formSubmitted && contactMethod == old(contactMethod)
                && success == [] && error == GENERIC_FAILURE_MESSAGE && channel == None
      ensures allServices == old(allServices) && isMobile == old(isMobile)
    {
      formSubmitted := true;
      error := [];
      success := [];
      var newErrors := Validate(fields);
      errors := newErrors;
      if AnyFlag(newErrors) {
        error := REQUIRED_FIELDS_MESSAGE;
        request, channel := None, None;
        return;
      }
      loading := true;
      error := [];
      var submission := SubmissionData(fields, now);
      request := Some(Api.CallFor(Api.CreateBooking(submission)));
      match outcome {
        case Ok(_) =>
          success := SUCCESS_MESSAGE;
          channel := Some(ChooseChannel(isMobile, contactMethod));
          fields := EmptyFields;
          errors := NoFlags;
          formSubmitted := false;
          contactMethod := WhatsApp;
        case Err(_) =>
          error := GENERIC_FAILURE_MESSAGE;
          channel := None;
      }
      loading := false;
    }
  }
}
