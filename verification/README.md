# TrueLine site logic in Dafny

A Dafny model of the logic behind the TrueLine marketing site and its admin
area, with proofs about it. Each source file gets its own module:

- the API client's request builder and response settlement (`Api`);
- the session store (`Auth`) and the route guard in front of the admin pages (`Guard`);
- the public booking form (`BookingPage`), and the quote form and key-point list on a service's page (`ServiceDetails`);
- the blog post page (`BlogDetail`);
- the five admin managers (`BookingManager`, `ServiceManager`, `GalleryManager`, `BlogManager`, `TestimonialManager`);
- the public services, gallery and home pages (`ServicesPage`, `GalleryPage`, `HomeCarousel`);
- the featured-services and testimonials sections (`FeaturedServices`, `TestimonialsSection`).

Shared modules hold the rest:

- `Wrappers`: `Option` and `Result`;
- `Text`: the fixed whitespace set behind `trim`, the ASCII digit set behind `\D`, `split`/`join`, `padStart`, and decimal digits;
- `Types`: the records of `types.ts`;
- `FormData`: ordered form entries;
- `FormRules`: the blank test, the address line, and the WhatsApp/SMS channel choice shared by the two request forms.

**How the code is modelled**

- **Components that keep state** are classes. Their `useState` fields become class fields, and each handler is a method with `modifies this` that states the whole new state.
- **Pure parts** are functions with lemmas. These are the `newErrors` records, `filter`/`slice`/`replace` expressions, `padStart`, and the object spreads in `request`.
- **Awaited results are inputs.** The result of an awaited API call is a `Result<T, Api.ApiError>` parameter of the handler. A handler that refetches takes the refetch's outcome too.
- **Requests are outputs.** A handler that issues a request returns it as an `Api.Call`, built by `Api.CallFor`, which holds the endpoint, verb, body and `hasFile` flag that `services/api.ts` uses for that wrapper.
- **`err.message || fallback`** is `Api.MessageOr`.
- **`window.confirm`** is a `confirmed: bool` parameter.
- **`new Date().toISOString()`** is a `now: string` parameter.
- **`localStorage`** is a `map<string, string>` field of the session store.
- **`JSON.parse`/`JSON.stringify`** of the stored profile are an abstract codec: a pair of functions, of which only the round-trip lemma assumes anything (`Auth.Faithful`).

## Model

| member | source | states |
|---|---|---|
| Types.StatusesEnumerated | types.ts:5-11 | The five booking statuses each appear once in the tab list, and their display names are pairwise different. |
| Api.BuildRequest | services/api.ts:11-31 | The URL is the API root, a slash and the endpoint. The method defaults to GET. The header keys are the caller's keys, plus Authorization exactly when a non-empty token is stored, plus Content-Type exactly when there is no file. A caller's header always wins. Otherwise Authorization is "Bearer " and the token, and Content-Type is application/json. A body is stringified exactly when a truthy one is given without a file and passed raw exactly when a truthy one is given with a file, never both. A falsy body (null, false, 0 or the empty string) is not sent. |
| Api.CredentialAttachment | services/api.ts:18-26 | When the caller sets no Authorization, the request carries one exactly when a non-empty token is stored, and it is the bearer form of that token. |
| Api.Settle | services/api.ts:33-42 | A response fails exactly when its status is outside 200-299. The failure message is the server's non-empty msg if there is one, else a non-empty HTTP error text. A 204 yields the empty object; any other success yields the body unchanged. |
| Api.HttpErrorNamesStatus | services/api.ts:35 | The fallback error text is "HTTP error! status: " followed by the decimal digits of the status code, and those digits read back as the code. |
| Api.SettledErrorShown | services/api.ts:33-36 | A failed response's message is never empty, so wherever a page shows the error's message or a fallback (`Api.MessageOr`), it shows the server's message. |
| Api.CallFor | services/api.ts:55-164 | Each wrapper's request: `hasFile` is set exactly for the five upload, create and update wrappers that send FormData. No wrapper adds headers. Every delete is a DELETE with no body. A call without an explicit method carries no body. Every body a wrapper builds itself (a status record, the login credentials, a form) is truthy, so `request` sends it. |
| Api.MultipartExclusive | services/api.ts:24-28 | For every wrapper, Content-Type is left for the browser to set exactly when the body is multipart form data, and is application/json otherwise. A raw body is always form data. |
| Api.UploadPhotosCall | services/api.ts:75-80 | The upload request is a POST with a file to bookings/ID/photos. Its form data is the photo kind followed by one "photos" entry per file, in order. |
| Api.DeleteSettled | services/api.ts:82-164 | A delete wrapper succeeds, with success true, exactly when its DELETE request settles successfully, and otherwise fails with that request's error. |
| FormData.AppendFiles | pages/admin/GalleryManager.tsx:61-62 | The `forEach` append loop leaves the earlier entries as they were and adds one entry per file under the key, in file order. |
| Auth.RestoreFrom | context/AuthContext.tsx:27-38 | Nothing is restored unless both storage keys hold non-empty text. When both do, the profile is restored exactly when it parses, and then the user is the parsed profile with the stored token. A parse failure is reported as corruption. |
| Auth.AuthStore.constructor | context/AuthContext.tsx:21-22 | A new store has no user, is loading, and holds the given storage. |
| Auth.AuthStore.Rehydrate | context/AuthContext.tsx:25-42 | The user becomes the restored user or none. Storage loses both keys only when the profile was corrupted. Loading ends on every path. |
| Auth.AuthStore.Login | context/AuthContext.tsx:45-57 | On success the user is the response, and storage holds its token and a profile without the token. On failure the error is rethrown, and the user and storage are unchanged. Loading is untouched. |
| Auth.AuthStore.Logout | context/AuthContext.tsx:60-64 | There is no user afterwards, the store is not authenticated, and exactly the two session keys are removed from storage. |
| Auth.LoginThenRestore | context/AuthContext.tsx:27-51 | With a faithful codec and a non-empty token, rehydrating what a login stored restores exactly the logged-in user, and touches no storage. |
| Auth.EmptyTokenNotRestored | context/AuthContext.tsx:27-33 | A login whose token is empty stores a falsy token, so rehydration restores nothing. |
| Auth.CorruptedStorageCleared | context/AuthContext.tsx:34-38 | After a corrupted profile both keys are gone, so the next rehydration finds nothing stored. |
| Auth.RestartAfterLogin | context/AuthContext.tsx:25-57 | A login followed by a fresh store and its rehydration yields the same user with loading ended. |
| Auth.RequestsFollowSession | context/AuthContext.tsx:45-64 | After a login every request carries the bearer form of the user's token. After a logout no request carries Authorization. |
| Guard.Decide | components/PrivateRoute.tsx:7-20 | Exactly one outcome. Loading shows the placeholder whatever the session. Otherwise authenticated renders the children, or the Outlet when there are none. Unauthenticated redirects to /admin with replace. |
| Guard.GuardAroundStartup | components/PrivateRoute.tsx:7-20 | Before rehydration the guard shows the placeholder. Afterwards it renders exactly when a session was restored, and redirects otherwise. |
| Guard.GuardAfterLogout | components/PrivateRoute.tsx:17-18 | Once logged out, a guard that is not loading redirects to /admin. |
| FormRules.MissingIffTrimEmpty | pages/BookingPage.tsx:91-99 | The blank test used by the model holds exactly when the trimmed value is empty. |
| FormRules.PhoneFlagAfterEdit | pages/BookingPage.tsx:79-82 | After a phone edit the flag stays up exactly when it was up and the sanitised value is empty. An edit never raises it. |
| FormRules.PhoneSanitising | pages/BookingPage.tsx:77 | The sanitised phone consists of digits only, keeps every ASCII digit of the input the same number of times, and is unchanged by sanitising again. |
| FormRules.ChooseChannel | pages/BookingPage.tsx:137-147 | The SMS URL is used exactly on a mobile viewport with SMS chosen. On desktop WhatsApp is always used. |
| BookingPage.ValidationFlags | pages/BookingPage.tsx:91-99 | Each text field is flagged exactly when its trimmed value is empty. The email is flagged exactly when it is trimmed-empty or has no "@". The services are flagged exactly when none is selected. |
| BookingPage.NotesNeverChecked | pages/BookingPage.tsx:91-99 | The notes never influence validation. |
| BookingPage.ToggleService | pages/BookingPage.tsx:66-73 | A selected name is removed, with every other selection kept. An unselected name is appended at the end. |
| BookingPage.ToggleRemovesInPlace | pages/BookingPage.tsx:66-73 | Unticking an entry that occurs once cuts it out where it stood: the entries before it and after it stay in their order. |
| BookingPage.ToggleTwice | pages/BookingPage.tsx:70-72 | Toggling an unselected service twice restores the selection. |
| BookingPage.ToggleKeepsDistinct | pages/BookingPage.tsx:70-72 | Toggling keeps a duplicate-free selection duplicate-free. |
| BookingPage.ServiceTypeListsSelection | pages/BookingPage.tsx:110-116 | The payload's serviceType is the selection joined with ", ", and splitting it back as the details parser does gives the selection in order. |
| BookingPage.AddressLayout | pages/BookingPage.tsx:110-114 | The address starts with the unit and a space, and ends with ", " and the state. |
| BookingPage.BookingForm.constructor | pages/BookingPage.tsx:20-39 | Empty fields, no flags, no messages, WhatsApp chosen, not submitted, desktop. |
| BookingPage.BookingForm.CheckViewport | pages/BookingPage.tsx:42-52 | The mobile flag is width below 768. Nothing else changes. |
| BookingPage.BookingForm.LoadServices | pages/BookingPage.tsx:54-64 | Success replaces the service list. Failure shows the fixed load message and keeps the list. |
| BookingPage.BookingForm.Type | pages/BookingPage.tsx:223-335 | Typing sets that one field and lowers that field's flag, and nothing else. |
| BookingPage.BookingForm.ChooseContactMethod | pages/BookingPage.tsx:405-417 | The contact method is the choice. Nothing else changes. |
| BookingPage.BookingForm.HandleServiceChange | pages/BookingPage.tsx:66-73 | The selection is toggled, and the services flag is lowered. |
| BookingPage.BookingForm.HandlePhoneChange | pages/BookingPage.tsx:76-83 | The phone becomes the digits of the input, and its flag drops once they are non-empty. |
| BookingPage.BookingForm.HandleSubmit | pages/BookingPage.tsx:85-176 | Any flag: the flags are shown with the fixed message, and no request is made. Otherwise a createBooking request carries the payload, and loading ends. Success empties every field and the selection, lowers all flags and the submitted mark, puts back WhatsApp, and opens the chosen channel. Failure shows the fixed message and keeps what was typed. |
| ServiceDetails.ParseDetails | pages/ServiceDetails.tsx:340-347 | A text value gives items that are non-empty, trimmed and comma-free. An array value is used as it is. Anything else gives the empty list. |
| Text.ParseCommaList | pages/ServiceDetails.tsx:343 | Split on commas, trimmed, empties dropped: no item is empty, untrimmed or holds a comma. |
| ServiceDetails.EmptyTextParsesEmpty | pages/ServiceDetails.tsx:341-343 | Empty text gives no items, and any text is parsed by the comma list rule. |
| ServiceDetails.DetailsRoundTrip | pages/ServiceDetails.tsx:343 | A list of trimmed, non-empty, comma-free items joined with ", " parses back to the same list. |
| ServiceDetails.DisplayItem | pages/ServiceDetails.tsx:442-444 | A shown item always ends with a period. An item already ending with one is shown as it is, and any other gets exactly one period appended. |
| ServiceDetails.DisplayItemIdempotent | pages/ServiceDetails.tsx:444 | Adding the period a second time changes nothing. |
| ServiceDetails.ImageSource | pages/ServiceDetails.tsx:401-412 | No image, so the "No image available" placeholder, exactly when the stored path is empty. Otherwise the image address keeps the path's length and every character, except that each backslash becomes a slash, so it holds none. |
| ServiceDetails.ServicePage.constructor | pages/ServiceDetails.tsx:320-324 | No service, loading, no error, empty key points. |
| ServiceDetails.ServicePage.LoadService | pages/ServiceDetails.tsx:326-357 | A response that is not ok shows "Service could not be found.". A failed read shows its message. Success stores the service and its parsed key points. Loading ends on every path. |
| ServiceDetails.QuoteValidationFlags | pages/ServiceDetails.tsx:68-74 | Name, phone, unit, street and state are each flagged exactly when trimmed-empty. The notes never influence validation. |
| ServiceDetails.QuoteForm.constructor | pages/ServiceDetails.tsx:21-42 | The form starts empty with no flags or messages, WhatsApp chosen, desktop, for the given service. |
| ServiceDetails.QuoteForm.CheckViewport | pages/ServiceDetails.tsx:44-53 | The mobile flag is width below 768. Nothing else changes. |
| ServiceDetails.QuoteForm.ChooseContactMethod | pages/ServiceDetails.tsx:278-289 | The contact method is the choice. Nothing else changes. |
| ServiceDetails.QuoteForm.Type | pages/ServiceDetails.tsx:180-246 | Typing sets that one field and lowers its flag. |
| ServiceDetails.QuoteForm.HandlePhoneChange | pages/ServiceDetails.tsx:55-61 | The phone becomes the digits of the input, and its flag drops once they are non-empty. |
| ServiceDetails.QuoteForm.HandleSubmit | pages/ServiceDetails.tsx:63-140 | Any flag: the fixed message, and no request. Otherwise createBooking carries the address and the page's service name. Success empties all six fields, lowers the flags, puts back WhatsApp, and opens the chosen channel. Failure shows the error's message, or the fixed text, and keeps the fields. |
| BlogDetail.DropSeparators | pages/BlogDetailPage.tsx:56 | Removes exactly the leading run of "/" and "\\": what remains is a suffix that starts with neither. |
| BlogDetail.StripBackendPrefix | pages/BlogDetailPage.tsx:56 | A path starting with "backend" and a separator loses that prefix and the whole separator run. Any other path is left as it is. |
| BlogDetail.NormalizePath | pages/BlogDetailPage.tsx:55-57 | The normalised path holds no backslash and is never longer than the stored one. |
| BlogDetail.NormalizeWithoutPrefix | pages/BlogDetailPage.tsx:55-57 | Without the prefix, normalising only turns backslashes into slashes. |
| BlogDetail.NormalizeWithPrefix | pages/BlogDetailPage.tsx:56-57 | "backend", any run of separators, then the rest, normalises to the rest with backslashes made slashes. |
| BlogDetail.DropSeparatorRun | pages/BlogDetailPage.tsx:56 | A separator run is removed as a whole, and only up to the first other character. |
| BlogDetail.ImageUrl | pages/BlogDetailPage.tsx:59 | The image URL is the API base, a slash, and the normalised path, with no backslash. |
| BlogDetail.FirstWithId | pages/BlogDetailPage.tsx:23 | The index found is the first post with the id. None means no post has it. |
| BlogDetail.FindPost | pages/BlogDetailPage.tsx:23-24 | The post found has the id. Otherwise the error is "Post not found" and no post has the id. |
| BlogDetail.BlogDetailPage.constructor | pages/BlogDetailPage.tsx:15-17 | No post, loading, no error. |
| BlogDetail.BlogDetailPage.FetchPost | pages/BlogDetailPage.tsx:19-34 | The post found is shown. A missing post or a failed fetch sets the error's message. Loading ends on every path. |
| BlogDetail.BlogDetailPage.Render | pages/BlogDetailPage.tsx:38-59 | The spinner exactly while loading. Then the error, with its own text, exactly when it is non-empty. Otherwise the post, with its normalised image URL, exactly when one is loaded. |
| BlogDetail.OpenPost | pages/BlogDetailPage.tsx:19-59 | Opening a loaded post's id shows the first post with that id and its image URL. |
| BookingManager.StatusColor | pages/admin/BookingManager.tsx:10-16 | Every status has a non-empty colour entry. |
| BookingManager.StatusColorsDistinct | pages/admin/BookingManager.tsx:10-16 | Different statuses have different colours. |
| BookingManager.FilterByStatus | pages/admin/BookingManager.tsx:63 | The tab's list holds only bookings of that status, each as often as in the full list, and none of any other status. |
| BookingManager.FilterConcat | pages/admin/BookingManager.tsx:63 | Filtering keeps the original order: filtering a concatenation concatenates the filtered parts. |
| BookingManager.CountsSumToTotal | pages/admin/BookingManager.tsx:72-78 | The five tab counts add up to the number of bookings. |
| BookingManager.OnItsOwnTab | pages/admin/BookingManager.tsx:63 | A booking is listed on a tab exactly when it is a booking of that status. |
| BookingManager.BookingManager.constructor | pages/admin/BookingManager.tsx:21-25 | No bookings, loading, the Pending tab, no selection, no error. |
| BookingManager.BookingManager.Shown | pages/admin/BookingManager.tsx:63 | Every booking shown has the active tab's status. |
| BookingManager.BookingManager.SelectTab | pages/admin/BookingManager.tsx:75 | The tab changes, and the list shown is that status's bookings. Nothing else changes. |
| BookingManager.BookingManager.Select | pages/admin/BookingManager.tsx:24 | The selection is the given booking. Nothing else changes. |
| BookingManager.BookingManager.FetchBookings | pages/admin/BookingManager.tsx:27-43 | Success replaces the bookings and clears the error. Failure shows the error's message or the fixed text. A message containing "Not authorized" logs out, removing both session keys, and navigates to /admin. Any other failure leaves the session alone. |
| BookingManager.BookingManager.HandleStatusUpdate | pages/admin/BookingManager.tsx:49-53 | The request updates that booking's status. A failure is rethrown, and nothing changes. Success refetches, and gives the selected booking the new status while keeping everything else about it; no selection stays none. A refetch that fails keeps the list and shows its message or the fixed text. If that message names a refused token, the admin is also logged out (user cleared, token and user removed from storage) and sent to the login route; otherwise the session stays. |
| BookingManager.BookingManager.HandleDelete | pages/admin/BookingManager.tsx:55-61 | Nothing happens unless confirmed. A confirmed delete requests the DELETE. On success it clears the selection and refetches. A failure is rethrown with the list, selection, error, loading flag and session unchanged. A refetch that fails after a delete behaves as in the status update: the list stays, the message or the fixed text is shown, and a refused token logs out and goes to the login route. |
| BookingManager.RefusedTokenLogsOut | pages/admin/BookingManager.tsx:35-39 | A "Not authorized" failure leaves the message shown, navigates to /admin, and the guard then redirects. |
| ServiceManager.ServiceManager.constructor | pages/admin/ServiceManager.tsx:94-97 | No services, loading, no error, not editing. |
| ServiceManager.ServiceForm.constructor | pages/admin/ServiceManager.tsx:7-10 | All four form fields start empty. |
| ServiceManager.ServiceForm.Prefill | pages/admin/ServiceManager.tsx:12-24 | An edited service fills the name and description, or empty when absent, and the details joined with ", ". No service empties all four fields. The image is always cleared. |
| ServiceManager.ServiceForm.Type | pages/admin/ServiceManager.tsx:41-47 | Typing sets that one field. |
| ServiceManager.ServiceForm.ChooseImage | pages/admin/ServiceManager.tsx:57 | The image is the chosen file or none. The text fields are unchanged. |
| ServiceManager.ServiceForm.Submit | pages/admin/ServiceManager.tsx:26-36 | The form data is name, description and details in that order, with the image appended only when one was chosen. |
| ServiceManager.ResubmitDetails | pages/admin/ServiceManager.tsx:16 | Prefilling a stored service and saving it sends details text that the details parser reads back as the same list. |
| ServiceManager.ServiceManager.FetchServices | pages/admin/ServiceManager.tsx:99-109 | Success replaces the services. Failure shows the message or the fixed text. Loading ends either way. |
| ServiceManager.ServiceManager.AddNew | pages/admin/ServiceManager.tsx:147 | Editing an empty service, which has no id. |
| ServiceManager.ServiceManager.Edit | pages/admin/ServiceManager.tsx:176 | Editing the chosen service. |
| ServiceManager.ServiceManager.Cancel | pages/admin/ServiceManager.tsx:152 | No longer editing. |
| ServiceManager.ServiceManager.HandleSave | pages/admin/ServiceManager.tsx:115-127 | A service with a stored id is updated, and any other is created. Success stops editing and refetches. A failed refetch keeps the list and shows its message or the fixed fetch text. Failure shows the message or "Failed to save service" and keeps editing. |
| ServiceManager.ServiceManager.HandleDelete | pages/admin/ServiceManager.tsx:129-138 | Nothing unless confirmed. Otherwise a DELETE of that id. Success refetches; a failed refetch keeps the list and shows its message or the fixed fetch text. Failure shows the message or the fixed text. |
| ServiceManager.AddThenSave | pages/admin/ServiceManager.tsx:115-147 | "Add New Service" followed by a save always takes the create path, a POST to services. |
| GalleryManager.WorkFormLayout | pages/admin/GalleryManager.tsx:58-62 | The form data is serviceType, description, one beforePhotos entry per before file in order, then one afterPhotos entry per after file in order. |
| GalleryManager.GalleryManager.constructor | pages/admin/GalleryManager.tsx:11-21 | No items, loading, no error, form hidden and empty, not submitting. |
| GalleryManager.GalleryManager.FetchItems | pages/admin/GalleryManager.tsx:23-34 | The error is cleared first. Success replaces the items. Failure shows the message or the fixed text. Loading ends. The form is untouched. |
| GalleryManager.GalleryManager.ResetForm | pages/admin/GalleryManager.tsx:40-47 | Both text fields and both file lists are empty, the form is hidden, and submitting is off. |
| GalleryManager.GalleryManager.ToggleForm | pages/admin/GalleryManager.tsx:92 | Form visibility flips. Nothing else changes. |
| GalleryManager.GalleryManager.Type | pages/admin/GalleryManager.tsx:108-112 | Typing sets that one text field. |
| GalleryManager.GalleryManager.ChoosePhotos | pages/admin/GalleryManager.tsx:117-121 | The chosen files replace that one file list. |
| GalleryManager.GalleryManager.HandleSubmit | pages/admin/GalleryManager.tsx:49-73 | An empty text field or photo list gets the fixed message, and no request. Otherwise the create request carries the form data in entry order. Success resets the form and refetches; a failed refetch keeps the list and shows its message or the fixed fetch text. Failure shows the message or the fixed text and keeps the form and the list. The loading flag moves only through the refetch. Submitting is off afterwards. |
| GalleryManager.GalleryManager.HandleDelete | pages/admin/GalleryManager.tsx:75-85 | Nothing unless confirmed. Otherwise the error is cleared, then a DELETE of that id. Success refetches; a failed refetch keeps the list and shows its message or the fixed fetch text. Failure shows the message or the fixed text. The form is untouched. |
| BlogManager.PostFormData | pages/admin/BlogManager.tsx:55-58 | The form data is exactly title, content and image, in that order, with the typed values and the chosen file. |
| BlogManager.BlogManager.constructor | pages/admin/BlogManager.tsx:10-19 | No posts, loading, no error, form hidden and empty, not submitting. |
| BlogManager.BlogManager.FetchPosts | pages/admin/BlogManager.tsx:21-32 | The error is cleared first. Success replaces the posts. Failure shows the message or the fixed text. Loading ends. |
| BlogManager.BlogManager.ResetForm | pages/admin/BlogManager.tsx:38-44 | Title, content and image are cleared, the form is hidden, and submitting is off. |
| BlogManager.BlogManager.ToggleForm | pages/admin/BlogManager.tsx:87 | Form visibility flips. Nothing else changes. |
| BlogManager.BlogManager.Type | pages/admin/BlogManager.tsx:100-101 | Typing sets that one text field. |
| BlogManager.BlogManager.ChooseImage | pages/admin/BlogManager.tsx:104 | The image is the first chosen file, or none when none was chosen. |
| BlogManager.BlogManager.HandleSubmit | pages/admin/BlogManager.tsx:46-69 | An empty title or content, or no image, gets the fixed message and no request. Otherwise the create request carries the three entries. Success resets and refetches; a failed refetch keeps the list and shows its message or the fixed fetch text. Failure shows the message or "Failed to create post." and keeps the form and the list. The loading flag moves only through the refetch. |
| BlogManager.BlogManager.HandleDelete | pages/admin/BlogManager.tsx:71-80 | Nothing unless confirmed. Otherwise a DELETE of that id. Success refetches; a failed refetch keeps the list and shows its message or the fixed fetch text. Failure shows the message or the fixed text. |
| BlogManager.RefusedWithoutImage | pages/admin/BlogManager.tsx:48-51 | Without an image no request is made, whatever was typed, and the typed text is kept. |
| TestimonialManager.RatingOptionsRange | pages/admin/TestimonialManager.tsx:90-96 | The selectable ratings are exactly 1 to 5. |
| TestimonialManager.Payload | pages/admin/TestimonialManager.tsx:40 | The request body is exactly name, location, rating and reviewText, with the form's values. |
| TestimonialManager.CardStars | pages/admin/TestimonialManager.tsx:118 | A card draws exactly `rating` stars. A negative rating, or one beyond the largest array length, is the error `Array(n)` raises. |
| TestimonialManager.TestimonialManager.constructor | pages/admin/TestimonialManager.tsx:8-18 | No testimonials, loading, no error, form hidden and empty, rating 5. |
| TestimonialManager.TestimonialManager.FetchTestimonials | pages/admin/TestimonialManager.tsx:20-30 | Success replaces the list, and an earlier error stays. Failure shows the fixed message. Loading ends. |
| TestimonialManager.TestimonialManager.ToggleForm | pages/admin/TestimonialManager.tsx:70 | Form visibility flips. Nothing else changes. |
| TestimonialManager.TestimonialManager.Type | pages/admin/TestimonialManager.tsx:84-99 | Typing sets that one text field. |
| TestimonialManager.TestimonialManager.ChooseRating | pages/admin/TestimonialManager.tsx:90-96 | The rating is the option chosen, and stays in 1 to 5. |
| TestimonialManager.TestimonialManager.HandleSubmit | pages/admin/TestimonialManager.tsx:36-52 | The payload sent is the form's four values. Success resets the text fields, sets the rating back to 5, hides the form and refetches; a failed refetch keeps the list and shows the fixed fetch text. Failure shows "Failed to create testimonial." and keeps the form. Submitting is off afterwards, and the rating stays in 1 to 5. |
| TestimonialManager.TestimonialManager.HandleDelete | pages/admin/TestimonialManager.tsx:54-63 | Nothing unless confirmed. Otherwise that id is deleted. Success refetches; a failed refetch keeps the list and shows the fixed fetch text. Failure shows "Failed to delete review.". |
| TestimonialManager.RatingAlwaysOffered | pages/admin/TestimonialManager.tsx:17-46 | The rating sent is the option chosen. After a submit, the next one still sends one of the offered ratings. |
| ServicesPage.ServicesToShow | pages/ServicesPage.tsx:126 | Collapsed, the first min(3, n) services in order. Expanded, all of them. |
| ServicesPage.ToggleMattersIffShown | pages/ServicesPage.tsx:164-172 | The button is offered exactly when the two states show different lists. Without it every service is already shown. Two clicks restore the state. |
| ServicesPage.ImagePosition | pages/ServicesPage.tsx:159 | Row i's image is on the left exactly when i is even. |
| ServicesPage.PositionsAlternate | pages/ServicesPage.tsx:159 | Neighbouring rows take opposite sides, and rows two apart take the same side. |
| ServicesPage.RowLabelDenotesPosition | pages/ServicesPage.tsx:34 | The row number is made of digits, reads as i+1, is at least two characters long, and starts with "0" exactly for rows 1 to 9. |
| ServicesPage.Preview | pages/ServicesPage.tsx:63 | The preview is a prefix of the description of length min(150, length), followed by "...". |
| ServicesPage.ImageSrc | pages/ServicesPage.tsx:20 | The image source is "backend/" followed by the stored path, untouched. |
| ServicesPage.Render | pages/ServicesPage.tsx:145-176 | The spinner exactly while loading. Then the error, with its own text, exactly when it is non-empty. Otherwise one row per shown service, numbered and placed by its index, and the toggle, captioned View Less or View More, exactly when there are more than three services. |
| ServicesPage.AfterFetch | pages/ServicesPage.tsx:112-124 | Success gives the services and no error. Failure keeps the list and shows the fixed message. |
| ServicesPage.CollapsedAfterLoad | pages/ServicesPage.tsx:112-176 | After loading more than three services, the page shows three rows numbered 1 to 3 holding the first three services, and View More. |
| FeaturedServices.FirstRow | components/FeaturedServicesSection.tsx:83 | The first row is the first min(3, n) services in order. |
| FeaturedServices.SecondRow | components/FeaturedServicesSection.tsx:87-89 | A second row exists exactly when there are more than three services. It holds one or two services, taken from position 3 on. |
| FeaturedServices.RowsShowFirstFive | components/FeaturedServicesSection.tsx:83-90 | The two rows together are the first min(5, n) services, each once, in order. |
| FeaturedServices.ImageSrc | components/FeaturedServicesSection.tsx:20 | "backend/" followed by the stored path with every backslash made a slash, and no backslash left. |
| FeaturedServices.Cards | components/FeaturedServicesSection.tsx:83-90 | Each first-row card has its own index. Second-row cards are indexed from 3 on. |
| FeaturedServices.CardsNumberedInOrder | components/FeaturedServicesSection.tsx:16-90 | Read row after row, the cards show the first five services numbered 0, 1, 2, and so on, with delays rising by 100 ms. |
| GalleryPage.StripQuotes | pages/GalleryPage.tsx:97 | No single or double quote remains. Every other character is kept as often as before. |
| GalleryPage.StripQuotesInOrder | pages/GalleryPage.tsx:97 | Stripping works one character at a time: a quote is removed, any other character stays, and the stripped pieces of a path stay in their order. |
| GalleryPage.StripQuotesNoop | pages/GalleryPage.tsx:95-98 | A path without quotes is unchanged, and stripping twice is stripping once. |
| GalleryPage.TimelineImage | pages/GalleryPage.tsx:94-98 | No image exactly when there are no after photos. Otherwise the first after photo, with quotes stripped. |
| GalleryPage.AlignAt | pages/GalleryPage.tsx:216 | Entry i is on the left exactly when i is even. |
| GalleryPage.AlignsAlternate | pages/GalleryPage.tsx:216 | Neighbouring timeline entries take opposite sides, and entries two apart take the same side. |
| GalleryPage.FirstOrFallback | pages/GalleryPage.tsx:255-264 | The first photo with backslashes made slashes, or the fallback when there is none. |
| GalleryPage.ModalImagesUseSlashes | pages/GalleryPage.tsx:255-264 | Neither slider image holds a backslash. An empty photo list shows /fallback-before.jpg or /fallback-after.jpg. |
| GalleryPage.GalleryPage.constructor | pages/GalleryPage.tsx:147-150 | No works, loading, no error, nothing selected. |
| GalleryPage.GalleryPage.FetchWorks | pages/GalleryPage.tsx:163-176 | Success replaces the works. Failure shows the message or "Failed to load gallery.". Loading ends. |
| GalleryPage.GalleryPage.Open | pages/GalleryPage.tsx:215 | The clicked work is selected. Nothing else changes. |
| GalleryPage.GalleryPage.Close | pages/GalleryPage.tsx:232-239 | Nothing is selected. Nothing else changes. |
| GalleryPage.GalleryPage.Render | pages/GalleryPage.tsx:178-264 | The spinner exactly while loading. Then the error, with its own text, exactly when it is non-empty. Otherwise the empty-gallery message exactly when there are no works, or every work aligned by index; plus the modal of the selected work exactly when one is selected. |
| GalleryPage.OpenLoadedWork | pages/GalleryPage.tsx:163-264 | Opening a loaded work shows its modal, with slider images free of backslashes. |
| HomeCarousel.NextIndex | pages/HomePage.tsx:71-73 | The last index goes to 0, and any other index to the next. |
| HomeCarousel.NextIndexInRange | pages/HomePage.tsx:71-73 | A step from an index in range stays in range. |
| HomeCarousel.StepsCompose | pages/HomePage.tsx:70-74 | a ticks followed by b ticks are a+b ticks. |
| HomeCarousel.StepsCountUp | pages/HomePage.tsx:71-73 | Before the last image the index counts up one per tick, and the next tick wraps it to 0. |
| HomeCarousel.FullCycle | pages/HomePage.tsx:70-74 | As many ticks as there are images bring the index back to where it started. |
| HomeCarousel.StepsInRange | pages/HomePage.tsx:70-74 | Any number of ticks keeps the index in range. |
| HomeCarousel.OpaqueLayers | pages/HomePage.tsx:87-92 | One layer per image, opaque exactly at the current index. |
| HomeCarousel.ExactlyOneOpaque | pages/HomePage.tsx:87-92 | With the index in range exactly one layer is opaque, and none otherwise. |
| HomeCarousel.Carousel.constructor | pages/HomePage.tsx:35-38 | The carousel starts at the first image. |
| HomeCarousel.Carousel.Tick | pages/HomePage.tsx:70-74 | One firing of the interval takes the index one step, and keeps it in range. |
| HomeCarousel.Carousel.Layers | pages/HomePage.tsx:87-92 | The current image is opaque, and it is the only one. |
| HomeCarousel.TwoBannersAlternate | pages/HomePage.tsx:38-74 | With the page's two banners the index runs 0, 1, 0. |
| TestimonialsSection.StarFlags | components/TestimonialsSection.tsx:39-52 | Always five stars. Star i is highlighted exactly when i is below the rating. |
| TestimonialsSection.HighlightedIsClampedRating | components/TestimonialsSection.tsx:42-45 | For a whole-number rating, the highlighted stars number the rating clamped to 0 to 5. |
| TestimonialsSection.ShowArrows | components/TestimonialsSection.tsx:109 | The arrows show exactly when the slider instance exists and there is more than one testimonial. |
| TestimonialsSection.BuiltInShowsArrows | components/TestimonialsSection.tsx:8-37 | With the four built-in testimonials, the arrows show as soon as the slider exists. |

## Left out

- **The browser's network and storage.** `fetch`, `response.json()` and `localStorage` as browser APIs are not modelled. Responses are an `Api.Response` value with a status, an optional `msg` and a body. Storage is a map.
- **ServiceDetails' direct fetch.** The service page's own fetch is modelled only by what it yields: whether the response was ok, and the parsed data or the read's error message.
- **A non-string `msg` in an error body.** Only a string or no `msg` at all is modelled.
- **Header names.** Headers are matched by exact name. `fetch`'s case-insensitive header merging is not modelled.
- **JSON parse and stringify** are an abstract codec, with no shape validation of API data (the site does none either).
- **The loose value in `details`.** The three shapes the page distinguishes are a text, an array, and anything else.
- **Timers.** The home page's `setInterval` period is not modelled: one `Carousel.Tick` stands for one firing. The booking page's `setTimeout` redirect is left out as well.
- **Timestamps.** `new Date().toISOString()` is a `now` parameter.
- **Browser side effects.** `window.open`, `location.href`, `window.print` and `scrollTo` are not modelled; a handler returns the chosen `Channel` instead. `window.confirm` is a boolean parameter.
- **WhatsApp and SMS message text.** The `encodeURIComponent` message text is not built.
- **Presentation.** JSX, CSS class builders, AOS, keen-slider, FsLightbox, portals and the floating-point image-compare slider are out of scope. So are the EmailJS contact form, the login, dashboard and booking-modal pages, and `useAuth`'s outside-provider error.
- **Concurrency.** Every handler runs to completion before the next event, and an un-awaited refetch is taken to finish inside its handler. Login/logout races are not modelled.
- **HomePage data.** The home page's `Promise.all` fetch of services and gallery items, and its error text, are not modelled. The carousel is.
- **HTML `required` attributes.** The `required` attributes on the admin forms are not modelled: a form is submitted with whatever it holds.
- **Testimonial API wrappers.** `getTestimonials`, `createTestimonial` and `deleteTestimonial`, imported by the testimonial manager, are not part of `services/api.ts` as given, so their endpoints are not modelled. `TestimonialManager.TestimonialManager.HandleSubmit` returns the payload it sends, and `HandleDelete` returns the id it deletes.
- **The `trim`-based blank test.** In the stateful classes this test is computed as "every character is whitespace", which `FormRules.MissingIffTrimEmpty` proves equivalent to an empty trim.
- **Strings.** Strings are sequences of characters. `slice(0, 150)` counts UTF-16 code units in the browser, and the model counts characters.
- TestimonialManager.CardStars: takes a whole-number rating. A fractional rating, for which `Array(n)` also throws, is not representable.
- TestimonialsSection.HighlightedIsClampedRating: is stated for whole-number ratings only. Fractional ratings compare the same way star by star (`StarFlags` takes an `int`).
- ServiceDetails.ImageSource: takes the stored path as a string, so the page's `typeof` test is always passed; a stored image URL of another type, which the page also answers with the placeholder, is not representable.
