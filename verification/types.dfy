/**
 * The records the site exchanges with its REST backend. The backend's `_id`
 * becomes the field `id`; the optional duplicate `id` aliases are not kept.
 */
module Types {

  /** The five states of a booking, in the order the admin tabs list them. */
  datatype BookingStatus = Pending | Approved | InProgress | Completed | Canceled

  /** The string value each status carries on the wire. */
  function StatusName(s: BookingStatus): string {
    match s
    case Pending => "Pending"
    case Approved => "Approved"
    case InProgress => "In Progress"
    case Completed => "Completed"
    case Canceled => "Canceled"
  }

  /** `Object.values(BookingStatus)`: every status once, in declaration order. */
  const AllStatuses: seq<BookingStatus> := [Pending, Approved, InProgress, Completed, Canceled]

  /** Every status appears in the tab list exactly once, and no two statuses share a wire name. */
  lemma StatusesEnumerated(s: BookingStatus, t: BookingStatus)
    ensures s in AllStatuses && multiset(AllStatuses)[s] == 1
    ensures StatusName(s) == StatusName(t) <==> s == t
  {
  }

  datatype Booking = Booking(
    id: string,
    name: string,
    phone: string,
    address: string,
    serviceType: string,
    preferredDateTime: string,
    notes: string,
    status: BookingStatus,
    beforePhotos: seq<string>,
    afterPhotos: seq<string>,
    createdAt: string)

  datatype Service = Service(
    id: string,
    name: string,
    description: string,
    price: string,
    imageUrl: string,
    details: seq<string>)

  /** The logged-in administrator, with the bearer token the backend issued. */
  datatype User = User(id: string, token: string, name: string, email: string)

  datatype Testimonial = Testimonial(
    id: string,
    name: string,
    location: string,
    rating: int,
    reviewText: string,
    createdAt: string)

  datatype GalleryItem = GalleryItem(
    id: string,
    serviceType: string,
    description: string,
    beforePhotos: seq<string>,
    afterPhotos: seq<string>,
    createdAt: string)

  datatype BlogPost = BlogPost(
    id: string,
    title: string,
    content: string,
    imageUrl: string,
    createdAt: string)
}
