/**
 * The bookings tab of the admin dashboard: one tab per status with its
 * count, the list filtered to the active tab, status updates, deletes, and
 * the session ending when the backend refuses the token.
 */
module BookingManager {
  import opened Wrappers
  import opened Text
  import opened Types
  import Api
  import Auth
  import Guard

  const FETCH_FAILURE: string := "Could not fetch bookings."
  const NOT_AUTHORIZED: string := "Not authorized"

  /** The badge colour classes of each status; every status has one, and no two share it. */
  function StatusColor(s: BookingStatus): (c: string)
    ensures c != []
  {
    match s
    case Pending => "bg-yellow-100 text-yellow-800"
    case Approved => "bg-blue-100 text-blue-800"
    case InProgress => "bg-indigo-100 text-indigo-800"
    case Completed => "bg-green-100 text-green-800"
    case Canceled => "bg-red-100 text-red-800"
  }

  lemma StatusColorsDistinct(s: BookingStatus, t: BookingStatus)
    ensures StatusColor(s) == StatusColor(t) ==> s == t
  {
    if s != t {
      assert StatusColor(s)[3] != StatusColor(t)[3] || StatusColor(s)[4] != StatusColor(t)[4];
    }
  }

  /** `bookings.filter(b => b.status === status)`. */
  function FilterByStatus(bookings: seq<Booking>, status: BookingStatus): (r: seq<Booking>)
    ensures |r| <= |bookings|
    ensures forall i :: 0 <= i < |r| ==> r[i].status == status
    ensures forall b: Booking | b.status == status :: multiset(r)[b] == multiset(bookings)[b]
    ensures forall b: Booking | b.status != status :: multiset(r)[b] == 0
  {
    if bookings == [] then []
    else
      assert bookings == [bookings[0]] + bookings[1..];
      var rest := FilterByStatus(bookings[1..], status);
      if bookings[0].status == status then [bookings[0]] + rest else rest
  }

  /** Filtering keeps the original order: it distributes over concatenation. */
  lemma {:induction false} FilterConcat(a: seq<Booking>, b: seq<Booking>, status: BookingStatus)
    ensures FilterByStatus(a + b, status) == FilterByStatus(a, status) + FilterByStatus(b, status)
    decreases |a|
  {
    if a == [] {
      assert a + b == b;
    } else {
      assert (a + b)[0] == a[0];
      assert (a + b)[1..] == a[1..] + b;
      FilterConcat(a[1..], b, status);
    }
  }

  /** The count shown on a status tab. */
  function Count(bookings: seq<Booking>, status: BookingStatus): nat {
    |FilterByStatus(bookings, status)|
  }

  /** The sum of the five tab counts. */
  function TotalOverTabs(bookings: seq<Booking>): nat {
    Count(bookings, Pending) + Count(bookings, Approved) + Count(bookings, InProgress)
    + Count(bookings, Completed) + Count(bookings, Canceled)
  }

  /** Every booking is counted on exactly one tab: the five counts add up to the number of bookings. */
  lemma {:induction false} CountsSumToTotal(bookings: seq<Booking>)
    ensures TotalOverTabs(bookings) == |bookings|
    decreases |bookings|
  {
    if bookings != [] {
      CountsSumToTotal(bookings[1..]);
    }
  }

  /** A booking appears on its own tab as often as it appears in the list, and on no other tab. */
  lemma OnItsOwnTab(bookings: seq<Booking>, b: Booking, status: BookingStatus)
    ensures b in FilterByStatus(bookings, status) <==> b in bookings && b.status == status
  {
    var r := FilterByStatus(bookings, status);
    assert b in r <==> multiset(r)[b] > 0;
    assert b in bookings <==> multiset(bookings)[b] > 0;
  }

  class BookingManager {
    var bookings: seq<Booking>
    var loading: bool
    var activeTab: BookingStatus
    var selected: Option<Booking>
    var error: Option<string>
    const auth: Auth.AuthStore

    constructor (auth: Auth.AuthStore)
      ensures this.auth == auth
      ensures bookings == [] && loading && activeTab == Pending && selected == None && error == None
    {
      this.auth := auth;
      bookings := [];
      loading := true;
      activeTab := Pending;
      selected := None;
      error := None;
    }

    /** The rows of the table: the bookings of the active tab, in list order. */
    function Shown(): (r: seq<Booking>)
      reads this
      ensures forall i :: 0 <= i < |r| ==> r[i].status == activeTab
    {
      FilterByStatus(bookings, activeTab)
    }

    method SelectTab(status: BookingStatus)
      modifies this
      ensures activeTab == status && Shown() == FilterByStatus(bookings, status)
      ensures bookings == old(bookings) && selected == old(selected) && error == old(error) && loading == old(loading)
    {
      activeTab := status;
    }

    method Select(booking: Option<Booking>)
      modifies this
      ensures selected == booking
      ensures bookings == old(bookings) && activeTab == old(activeTab) && error == old(error) && loading == old(loading)
    {
      selected := booking;
    }

    /**
     * `fetchBookings`, given how `getBookings` came out. A failure shows its
     * message, or a fixed text when it has none; a message naming a refused
     * token also logs out and sends the admin back to the login route.
     */
    method FetchBookings(outcome: Result<seq<Booking>, Api.ApiError>) returns (navigateTo: Option<string>)
      modifies this, auth
      ensures !loading && activeTab == old(activeTab) && selected == old(selected)
      ensures outcome.Ok? ==>
                bookings == outcome.value && error == None && navigateTo == None
                && auth.user == old(auth.user) && auth.storage == old(auth.storage)
      ensures outcome.Err? ==>
                bookings == old(bookings) && error == Some(Api.MessageOr(outcome.error, FETCH_FAILURE))
      ensures outcome.Err? && Contains(outcome.error.message, NOT_AUTHORIZED) ==>
                navigateTo == Some(Guard.LOGIN_ROUTE) && auth.user == None
                && auth.storage == old(auth.storage) - {Auth.TOKEN_KEY, Auth.USER_KEY}
      ensures outcome.Err? && !Contains(outcome.error.message, NOT_AUTHORIZED) ==>
                navigateTo == None && auth.user == old(auth.user) && auth.storage == old(auth.storage)
      ensures auth.isLoading == old(auth.isLoading)
    {
      loading := true;
      error := None;
      navigateTo := None;
      match outcome {
        case Ok(data) =>
          bookings := data;
        case Err(e) =>
          error := Some(Api.MessageOr(e, FETCH_FAILURE));
          if Contains(e.message, NOT_AUTHORIZED) {
            auth.Logout();
            navigateTo := Some(Guard.LOGIN_ROUTE);
          }
      }
      loading := false;
    }

    /**
     * `handleStatusUpdate`, given how the update and the refetch came out.
     * A failed update escapes before anything changes; otherwise the list is
     * refetched and the open booking, if any, takes the new status with
     * every other field as it was.
     */
    method HandleStatusUpdate(id: string, status: BookingStatus, outcome: Result<Api.Json, Api.ApiError>,
                              refetch: Result<seq<Booking>, Api.ApiError>)
      returns (request: Api.Call, thrown: Option<Api.ApiError>, navigateTo: Option<string>)
      modifies this, auth
      ensures request == Api.CallFor(Api.UpdateBookingStatus(id, status))
      ensures outcome.Err? ==>
                thrown == Some(outcome.error) && navigateTo == None
                && bookings == old(bookings) && selected == old(selected) && error == old(error)
                && loading == old(loading) && auth.user == old(auth.user) && auth.storage == old(auth.storage)
      ensures outcome.Ok? ==> thrown == None && !loading
      ensures outcome.Ok? && old(selected).Some? ==> selected == Some(old(selected).value.(status := status))
      ensures outcome.Ok? && old(selected).None? ==> selected == None
      ensures outcome.Ok? && refetch.Ok? ==>
                bookings == refetch.value && error == None && navigateTo == None
                && auth.user == old(auth.user) && auth.storage == old(auth.storage)
      ensures outcome.Ok? && refetch.Err? ==>
                bookings == old(bookings) && error == Some(Api.MessageOr(refetch.error, FETCH_FAILURE))
      ensures outcome.Ok? && refetch.Err? && Contains(refetch.error.message, NOT_AUTHORIZED) ==>
                navigateTo == Some(Guard.LOGIN_ROUTE) && auth.user == None
                && auth.storage == old(auth.storage) - {Auth.TOKEN_KEY, Auth.USER_KEY}
      ensures outcome.Ok? && refetch.Err? && !Contains(refetch.error.message, NOT_AUTHORIZED) ==>
                navigateTo == None && auth.user == old(auth.user) && auth.storage == old(auth.storage)
      ensures activeTab == old(activeTab) && auth.isLoading == old(auth.isLoading)
    {
      request := Api.CallFor(Api.UpdateBookingStatus(id, status));
      navigateTo := None;
      if outcome.Err? {
        thrown := Some(outcome.error);
        return;
      }
      thrown := None;
      navigateTo := FetchBookings(refetch);
      if selected.Some? {
        selected := Some(selected.value.(status := status));
      }
    }

    /**
     * `handleDelete`, given the admin's answer to the confirmation and how
     * the delete and the refetch came out. Nothing is sent without
     * confirmation; a completed delete closes the open booking.
     */
    method HandleDelete(id: string, confirmed: bool, outcome: Result<bool, Api.ApiError>,
                        refetch: Result<seq<Booking>, Api.ApiError>)
      returns (request: Option<Api.Call>, thrown: Option<Api.ApiError>, navigateTo: Option<string>)
      modifies this, auth
      ensures !confirmed ==>
                request == None && thrown == None && navigateTo == None
                && bookings == old(bookings) && selected == old(selected) && error == old(error)
                && loading == old(loading) && auth.user == old(auth.user) && auth.storage == old(auth.storage)
      ensures confirmed ==> request == Some(Api.CallFor(Api.DeleteBooking(id)))
      ensures confirmed && outcome.Err? ==>
                thrown == Some(outcome.error) && navigateTo == None
                && selected == old(selected) && bookings == old(bookings) && error == old(error)
                && loading == old(loading) && auth.user == old(auth.user) && auth.storage == old(auth.storage)
      ensures confirmed && outcome.Ok? ==> thrown == None && selected == None && !loading
      ensures confirmed && outcome.Ok? && refetch.Ok? ==>
                bookings == refetch.value && error == None && navigateTo == None
                && auth.user == old(auth.user) && auth.storage == old(auth.storage)
      ensures confirmed && outcome.Ok? && refetch.Err? ==>
                bookings == old(bookings) && error == Some(Api.MessageOr(refetch.error, FETCH_FAILURE))
      ensures confirmed && outcome.Ok? && refetch.Err? && Contains(refetch.error.message, NOT_AUTHORIZED) ==>
                navigateTo == Some(Guard.LOGIN_ROUTE) && auth.user == None
                && auth.storage == old(auth.storage) - {Auth.TOKEN_KEY, Auth.USER_KEY}
      ensures confirmed && outcome.Ok? && refetch.Err? && !Contains(refetch.error.message, NOT_AUTHORIZED) ==>
                navigateTo == None && auth.user == old(auth.user) && auth.storage == old(auth.storage)
      ensures activeTab == old(activeTab) && auth.isLoading == old(auth.isLoading)
    {
      request, thrown, navigateTo := None, None, None;
      if !confirmed {
        return;
      }
      request := Some(Api.CallFor(Api.DeleteBooking(id)));
      if outcome.Err? {
        thrown := Some(outcome.error);
        return;
      }
      navigateTo := FetchBookings(refetch);
      selected := None;
    }
  }

  /** A refused token during a fetch ends the session: the guard then sends the admin to the login route. */
  method RefusedTokenLogsOut(manager: BookingManager, message: string, hasChildren: bool)
    returns (navigateTo: Option<string>, decision: Guard.Decision)
    requires Contains(message, NOT_AUTHORIZED) && !manager.auth.isLoading
    modifies manager, manager.auth
    ensures navigateTo == Some(Guard.LOGIN_ROUTE)
    ensures decision == Guard.Redirect(Guard.LOGIN_ROUTE, true)
    ensures manager.error == Some(message)
  {
    navigateTo := manager.FetchBookings(Err(Api.ApiError(message)));
    assert message != [] by {
      var i :| 0 <= i <= |message| - |NOT_AUTHORIZED| && OccursAt(message, NOT_AUTHORIZED, i);
    }
    decision := Guard.DecideFor(manager.auth, hasChildren);
  }
}
