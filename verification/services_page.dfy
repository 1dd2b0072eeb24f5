/**
 * The public services page: the first three services or all of them, the
 * View More toggle, and for each row its two-digit number, the side its
 * image takes, the description preview and the image address.
 */
module ServicesPage {
  import opened Wrappers
  import opened Text
  import opened Types
  import Api

  const COLLAPSED_COUNT: nat := 3
  const PREVIEW_LENGTH: nat := 150
  const ELLIPSIS: string := "..."
  const IMAGE_PREFIX: string := "backend/"
  const LOAD_FAILURE: string := "Failed to load services. Please try again later."

  function Min(a: nat, b: nat): nat {
    if a < b then a else b
  }

  /** `servicesToShow`: all services when expanded, otherwise the first three (fewer when there are fewer). */
  function ServicesToShow(services: seq<Service>, showAll: bool): (r: seq<Service>)
    ensures |r| == if showAll then |services| else Min(COLLAPSED_COUNT, |services|)
    ensures r == services[..|r|]
  {
    if showAll then services else services[..Min(COLLAPSED_COUNT, |services|)]
  }

  /** The View More button is offered only when there are more than three services. */
  predicate ShowsToggle(services: seq<Service>) {
    |services| > COLLAPSED_COUNT
  }

  /** The button's updater. */
  function Toggle(showAll: bool): bool {
    !showAll
  }

  /**
   * The toggle matters exactly when it is offered: with more than three
   * services the two states show different lists, with three or fewer they
   * show the same (complete) list; and two clicks restore the state.
   */
  lemma ToggleMattersIffShown(services: seq<Service>, showAll: bool)
    ensures ShowsToggle(services) <==> ServicesToShow(services, showAll) != ServicesToShow(services, Toggle(showAll))
    ensures !ShowsToggle(services) ==> ServicesToShow(services, showAll) == services
    ensures Toggle(Toggle(showAll)) == showAll
  {
    if !ShowsToggle(services) {
      assert services[..|services|] == services;
    }
  }

  datatype Position = Left | Right

  /** The image takes the left side on even rows, the right side on odd ones. */
  function ImagePosition(index: nat): (p: Position)
    ensures p == Left <==> index % 2 == 0
  {
    if index % 2 == 0 then Left else Right
  }

  /** Neighbouring rows alternate, and rows two apart match. */
  lemma PositionsAlternate(index: nat)
    ensures ImagePosition(index + 1) != ImagePosition(index)
    ensures ImagePosition(index + 2) == ImagePosition(index)
  {
  }

  /** `String(index + 1).padStart(2, "0")`. */
  function RowLabel(index: nat): string {
    PadStart(NatToString(index + 1), 2, '0')
  }

  /**
   * The row number is the one-based position written in decimal, at least
   * two digits long, with a leading zero exactly for rows one to nine.
   */
  lemma RowLabelDenotesPosition(index: nat)
    ensures AllDigits(RowLabel(index)) && DecimalValue(RowLabel(index)) == index + 1
    ensures |RowLabel(index)| >= 2
    ensures RowLabel(index)[0] == '0' <==> index + 1 < 10
  {
    var digits := NatToString(index + 1);
    var text := RowLabel(index);
    var z := if |digits| < 2 then 2 - |digits| else 0;
    assert text == Repeat('0', z) + digits by {
      assert text[z..] == digits;
      assert forall i :: 0 <= i < z ==> text[i] == '0';
    }
    LeadingZeros(z, digits);
    NatToStringValue(index + 1);
  }

  /** The description preview: its first 150 characters, always followed by an ellipsis. */
  function Preview(description: string): (r: string)
    ensures |r| == Min(PREVIEW_LENGTH, |description|) + |ELLIPSIS|
    ensures StartsWith(description, r[..|r| - |ELLIPSIS|])
    ensures EndsWith(r, ELLIPSIS)
  {
    var r := Take(description, PREVIEW_LENGTH) + ELLIPSIS;
    assert r[..|r| - |ELLIPSIS|] == Take(description, PREVIEW_LENGTH);
    assert r[|r| - |ELLIPSIS|..] == ELLIPSIS;
    r
  }

  /** The image address: the stored path under `backend/`, otherwise untouched. */
  function ImageSrc(imageUrl: string): (r: string)
    ensures StartsWith(r, IMAGE_PREFIX) && r[|IMAGE_PREFIX|..] == imageUrl
  {
    var r := IMAGE_PREFIX + imageUrl;
    assert r[..|IMAGE_PREFIX|] == IMAGE_PREFIX;
    r
  }

  /** One `ServiceRow`. */
  datatype Row = Row(service: Service, number: string, imagePosition: Position, preview: string, imageSrc: string)

  function RowAt(service: Service, index: nat): Row {
    Row(service, RowLabel(index), ImagePosition(index), Preview(service.description), ImageSrc(service.imageUrl))
  }

  /** What the page shows: the spinner, the error line, or the rows and, when offered, the toggle's caption. */
  datatype View = Spinner | ErrorLine(message: string) | Listing(rows: seq<Row>, toggle: Option<string>)

  function Render(loading: bool, error: string, services: seq<Service>, showAll: bool): (v: View)
    ensures loading <==> v.Spinner?
    ensures v.ErrorLine? <==> !loading && error != []
    ensures v.ErrorLine? ==> v.message == error
    ensures v.Listing? ==>
              |v.rows| == |ServicesToShow(services, showAll)|
              && (forall i :: 0 <= i < |v.rows| ==> v.rows[i] == RowAt(services[i], i))
              && (v.toggle.Some? <==> ShowsToggle(services))
              && (v.toggle.Some? ==> v.toggle.value == if showAll then "View Less" else "View More")
  {
    if loading then Spinner
    else if error != [] then ErrorLine(error)
    else
      var shown := ServicesToShow(services, showAll);
      Listing(seq(|shown|, i requires 0 <= i < |shown| => RowAt(shown[i], i)),
              if ShowsToggle(services) then Some(if showAll then "View Less" else "View More") else None)
  }

  /** The fetch effect: the services on success, the fixed message on failure; loading ends either way. */
  function AfterFetch(services: seq<Service>, outcome: Result<seq<Service>, Api.ApiError>): (r: (seq<Service>, string))
    ensures outcome.Ok? ==> r == (outcome.value, [])
    ensures outcome.Err? ==> r == (services, LOAD_FAILURE)
  {
    match outcome
    case Ok(data) => (data, [])
    case Err(_) => (services, LOAD_FAILURE)
  }

  /**
   * A successful load of more than three services shows three rows
   * numbered 01, 02, 03 and the View More button.
   */
  lemma CollapsedAfterLoad(data: seq<Service>, i: nat)
    requires |data| > COLLAPSED_COUNT && i < COLLAPSED_COUNT
    ensures var (services, error) := AfterFetch([], Ok(data));
            var v := Render(false, error, services, false);
            v.Listing? && |v.rows| == COLLAPSED_COUNT && v.toggle == Some("View More")
            && DecimalValue(v.rows[i].number) == i + 1 && v.rows[i].service == data[i]
  {
    RowLabelDenotesPosition(i);
  }
}
