/**
 * The typed request client: how `request` turns its arguments and the stored
 * token into fetch options, how it turns a response into a value or an error,
 * and which arguments each exported wrapper passes it.
 */
module Api {
  import opened Wrappers
  import opened Text
  import opened Types
  import opened FormData

  const API_URL: string := "https://trueline.onrender.com/api"
  const AUTHORIZATION: string := "Authorization"
  const CONTENT_TYPE: string := "Content-Type"
  const JSON_MEDIA_TYPE: string := "application/json"

  datatype Verb = GET | POST | PUT | DELETE

  /** A JSON value: what `JSON.stringify` receives and `response.json()` yields. */
  datatype Json =
    | JNull
    | JBool(b: bool)
    | JNum(n: int)
    | JStr(s: string)
    | JArr(items: seq<Json>)
    | JObj(fields: seq<(string, Json)>)

  /** A request body: a structured record, or a multipart form for uploads. */
  datatype Payload = Structured(value: Json) | Multipart(entries: seq<Entry>)

  /** The arguments of one `request(endpoint, method?, body?, hasFile?, headers?)` call. */
  datatype Call = Call(
    endpoint: string,
    verb: Option<Verb>,
    body: Option<Payload>,
    hasFile: bool,
    headers: map<string, string>)

  /** The body field of the fetch options: absent, `JSON.stringify(payload)`, or the payload as it is. */
  datatype Body = NoBody | Stringified(payload: Payload) | Raw(payload: Payload)

  datatype RequestOptions = RequestOptions(
    url: string,
    verb: Verb,
    headers: map<string, string>,
    body: Body)

  /** `localStorage.getItem('authToken')` is truthy: present and not the empty string. */
  predicate TokenPresent(token: Option<string>) {
    token.Some? && token.value != []
  }

  /**
   * The JavaScript truthiness of a body argument: `null`, `false`, `0` and
   * `""` are falsy; every object, array and form is truthy.
   */
  predicate Truthy(p: Payload) {
    !(p.Structured? && (p.value.JNull? || p.value == JBool(false) || p.value == JNum(0) || p.value == JStr([])))
  }

  /**
   * The fetch options `request` builds. The caller's headers are spread last,
   * so a caller key replaces the computed `Authorization` or `Content-Type`.
   */
  function BuildRequest(token: Option<string>, call: Call): (r: RequestOptions)
    ensures r.url == API_URL + "/" + call.endpoint
    ensures r.verb == call.verb.GetOr(GET)
    ensures r.headers.Keys == call.headers.Keys
                              + (if TokenPresent(token) then {AUTHORIZATION} else {})
                              + (if call.hasFile then {} else {CONTENT_TYPE})
    ensures forall k :: k in call.headers ==> r.headers[k] == call.headers[k]
    ensures AUTHORIZATION !in call.headers && TokenPresent(token) ==>
              r.headers[AUTHORIZATION] == "Bearer " + token.value
    ensures CONTENT_TYPE !in call.headers && !call.hasFile ==>
              r.headers[CONTENT_TYPE] == JSON_MEDIA_TYPE
    ensures r.body.Stringified? <==> call.body.Some? && Truthy(call.body.value) && !call.hasFile
    ensures r.body.Raw? <==> call.body.Some? && Truthy(call.body.value) && call.hasFile
    ensures !r.body.NoBody? ==> r.body.payload == call.body.value
  {
    var auth: map<string, string> :=
      if TokenPresent(token) then map[AUTHORIZATION := "Bearer " + token.value] else map[];
    var contentType: map<string, string> :=
      if call.hasFile then map[] else map[CONTENT_TYPE := JSON_MEDIA_TYPE];
    var body :=
      match call.body
      case None => NoBody
      case Some(p) => if !Truthy(p) then NoBody else if call.hasFile then Raw(p) else Stringified(p);
    RequestOptions(API_URL + "/" + call.endpoint, call.verb.GetOr(GET), auth + contentType + call.headers, body)
  }

  /** With no caller override, the bearer header is there exactly when a token is stored. */
  lemma CredentialAttachment(token: Option<string>, call: Call)
    requires AUTHORIZATION !in call.headers
    ensures var r := BuildRequest(token, call);
            (AUTHORIZATION in r.headers <==> TokenPresent(token))
            && (TokenPresent(token) ==> r.headers[AUTHORIZATION] == "Bearer " + token.value)
  {
  }

  // ---------------------------------------------------------------------------
  // Responses
  // ---------------------------------------------------------------------------

  /**
   * What `request` reads of a response: the status, the `msg` string of the
   * JSON error body when it has one, and the JSON body of a success.
   */
  datatype Response = Response(status: nat, msg: Option<string>, body: Json)

  /** The `Error` thrown for a failed request; only its message is read by callers. */
  datatype ApiError = ApiError(message: string)

  predicate IsOk(status: nat) {
    200 <= status <= 299
  }

  const HTTP_ERROR_PREFIX: string := "HTTP error! status: "

  function HttpErrorMessage(status: nat): string {
    HTTP_ERROR_PREFIX + NatToString(status)
  }

  /** The fallback message names the status code in decimal. */
  lemma HttpErrorNamesStatus(status: nat)
    ensures StartsWith(HttpErrorMessage(status), HTTP_ERROR_PREFIX)
    ensures var digits := HttpErrorMessage(status)[|HTTP_ERROR_PREFIX|..];
            AllDigits(digits) && DecimalValue(digits) == status
  {
    var m := HttpErrorMessage(status);
    assert m[|HTTP_ERROR_PREFIX|..] == NatToString(status);
    NatToStringValue(status);
  }

  /**
   * The value `request` resolves to, or the error it throws. A failure always
   * carries a non-empty message, so a caller's `err.message || fallback`
   * shows the server's or the status text for every failed response.
   */
  function Settle(resp: Response): (res: Result<Json, ApiError>)
    ensures res.Err? <==> !IsOk(resp.status)
    ensures res.Err? ==> res.error.message != []
    ensures res.Err? && resp.msg.Some? && resp.msg.value != [] ==> res.error.message == resp.msg.value
    ensures res.Err? && (resp.msg.None? || resp.msg.value == []) ==>
              res.error.message == HttpErrorMessage(resp.status)
    ensures res.Ok? && resp.status == 204 ==> res.value == JObj([])
    ensures res.Ok? && resp.status != 204 ==> res.value == resp.body
  {
    if !IsOk(resp.status) then
      Err(ApiError(if resp.msg.Some? && resp.msg.value != [] then resp.msg.value else HttpErrorMessage(resp.status)))
    else if resp.status == 204 then
      Ok(JObj([]))
    else
      Ok(resp.body)
  }

  /** A caller's `err.message || fallback`. */
  function MessageOr(e: ApiError, fallback: string): string {
    if e.message != [] then e.message else fallback
  }

  /**
   * For an error `request` itself threw, a caller's fallback text is never
   * shown: the message is the server's `msg` or the status text.
   */
  lemma SettledErrorShown(resp: Response, fallback: string)
    requires !IsOk(resp.status)
    ensures Settle(resp).Err?
    ensures MessageOr(Settle(resp).error, fallback) == Settle(resp).error.message
  {
  }

  // ---------------------------------------------------------------------------
  // The exported wrappers
  // ---------------------------------------------------------------------------

  datatype PhotoKind = Before | After

  function PhotoKindName(k: PhotoKind): string {
    match k
    case Before => "before"
    case After => "after"
  }

  /** One exported wrapper of the client, with the arguments it is given. */
  datatype Operation =
    | GetGalleryWorks
    | GetBookings
    | CreateBooking(data: Json)
    | UpdateBookingStatus(id: string, status: BookingStatus)
    | UploadPhotos(id: string, form: seq<Entry>)
    | DeleteBooking(id: string)
    | LoginUser(email: string, password: string)
    | GetServices
    | CreateService(form: seq<Entry>)
    | UpdateService(id: string, form: seq<Entry>)
    | DeleteService(id: string)
    | GetManagedGalleryItems
    | CreateGalleryItem(form: seq<Entry>)
    | DeleteGalleryItem(id: string)
    | GetBlogPosts
    | CreateBlogPost(form: seq<Entry>)
    | DeleteBlogPost(id: string)

  predicate IsUpload(op: Operation) {
    op.UploadPhotos? || op.CreateService? || op.UpdateService? || op.CreateGalleryItem? || op.CreateBlogPost?
  }

  predicate IsDelete(op: Operation) {
    op.DeleteBooking? || op.DeleteService? || op.DeleteGalleryItem? || op.DeleteBlogPost?
  }

  /** A call whose `hasFile` flag agrees with its body: set exactly for a multipart form. */
  predicate Consistent(c: Call) {
    c.hasFile <==> (c.body.Some? && c.body.value.Multipart?)
  }

  /**
   * The `request` call each wrapper makes. Uploads, creates and updates of
   * services, gallery items and blog posts pass `hasFile`; deletes use DELETE
   * without a body; no wrapper passes extra headers.
   */
  function CallFor(op: Operation): (c: Call)
    ensures Consistent(c)
    ensures c.hasFile <==> IsUpload(op)
    ensures c.headers == map[]
    ensures IsDelete(op) ==> c.verb == Some(DELETE) && c.body.None?
    ensures c.verb.None? ==> c.body.None?
    ensures c.body.Some? && !op.CreateBooking? ==> Truthy(c.body.value)
  {
    match op
    case GetGalleryWorks => Call("gallery", None, None, false, map[])
    case GetBookings => Call("bookings", None, None, false, map[])
    case CreateBooking(data) => Call("bookings", Some(POST), Some(Structured(data)), false, map[])
    case UpdateBookingStatus(id, status) =>
      Call("bookings/" + id + "/status", Some(PUT),
           Some(Structured(JObj([("status", JStr(StatusName(status)))]))), false, map[])
    case UploadPhotos(id, form) => Call("bookings/" + id + "/photos", Some(POST), Some(Multipart(form)), true, map[])
    case DeleteBooking(id) => Call("bookings/" + id, Some(DELETE), None, false, map[])
    case LoginUser(email, password) =>
      Call("users/login", Some(POST),
           Some(Structured(JObj([("email", JStr(email)), ("password", JStr(password))]))), false, map[])
    case GetServices => Call("services", None, None, false, map[])
    case CreateService(form) => Call("services", Some(POST), Some(Multipart(form)), true, map[])
    case UpdateService(id, form) => Call("services/" + id, Some(PUT), Some(Multipart(form)), true, map[])
    case DeleteService(id) => Call("services/" + id, Some(DELETE), None, false, map[])
    case GetManagedGalleryItems => Call("gallery/manage", None, None, false, map[])
    case CreateGalleryItem(form) => Call("gallery/manage", Some(POST), Some(Multipart(form)), true, map[])
    case DeleteGalleryItem(id) => Call("gallery/manage/" + id, Some(DELETE), None, false, map[])
    case GetBlogPosts => Call("blog", None, None, false, map[])
    case CreateBlogPost(form) => Call("blog", Some(POST), Some(Multipart(form)), true, map[])
    case DeleteBlogPost(id) => Call("blog/" + id, Some(DELETE), None, false, map[])
  }

  /**
   * For every wrapper: a multipart form is never JSON-encoded and never
   * gets a JSON content type; a structured body is always JSON-encoded and
   * sent as `application/json`.
   */
  lemma MultipartExclusive(token: Option<string>, op: Operation)
    ensures var r := BuildRequest(token, CallFor(op));
            (r.body.Stringified? ==> r.body.payload.Structured?)
            && (r.body.Raw? ==> r.body.payload.Multipart?)
            && (IsUpload(op) <==> CONTENT_TYPE !in r.headers)
            && (!IsUpload(op) ==> r.headers[CONTENT_TYPE] == JSON_MEDIA_TYPE)
  {
  }

  /** `uploadPhotos`: a form with the photo kind, then one `photos` entry per file in order. */
  method UploadPhotosCall(id: string, kind: PhotoKind, photos: seq<File>) returns (c: Call)
    ensures c.body.Some? && c.body.value.Multipart?
    ensures c == CallFor(UploadPhotos(id, c.body.value.entries))
    ensures c.endpoint == "bookings/" + id + "/photos" && c.verb == Some(POST) && c.hasFile
    ensures var fd := c.body.value.entries;
            |fd| == 1 + |photos|
            && fd[0] == Entry("type", Text(PhotoKindName(kind)))
            && forall i :: 0 <= i < |photos| ==> fd[1 + i] == Entry("photos", Blob(photos[i]))
  {
    var fd := [Entry("type", Text(PhotoKindName(kind)))];
    fd := AppendFiles(fd, "photos", photos);
    c := CallFor(UploadPhotos(id, fd));
  }

  /** A delete wrapper resolves to `{success: true}` only once the DELETE request itself resolved. */
  function DeleteSettled(r: Result<Json, ApiError>): (d: Result<bool, ApiError>)
    ensures d.Ok? <==> r.Ok?
    ensures d.Ok? ==> d.value
    ensures d.Err? ==> d.error == r.error
  {
    match r
    case Ok(_) => Ok(true)
    case Err(e) => Err(e)
  }
}
