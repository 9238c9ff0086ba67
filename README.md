# Hotel booking app: a Dafny model

This project models the core of a Next.js hotel booking app: the API route
handlers that store hotels, bookings and payments in the `hotel_management`
database, the stand-in hotels API, and the logic of the pages and components
that search, list and book hotels. Every part of that logic is written as
Dafny functions, methods and classes, and its behaviour is proved as
contracts and lemmas.

- **Store and handlers** (`records.dfy`, `bookings_route.dfy`,
  `payments_route.dfy`, `hotels_route.dfy`, `database.dfy`). The class
  `Database.Db` holds the three collections. Each handler is one of its
  methods, proved against pure functions that give the document inserted and
  the update applied. These handlers check nothing:
  - a booking is stored `pending/pending`, then the first room of the named
    hotel has `guests` taken off its `available` counter, which can go below
    zero;
  - a payment is stored `completed` whatever the amount, then the named booking
    is set `confirmed/completed` whatever its state;
  - when converting a hotel id fails after the booking was inserted, the
    booking stays stored and the response is a 500.

  `Database.BookTwiceAndPayTwice` walks through a sequence of calls the
  handlers allow, though no page of the app makes it. Two bookings overbook
  a room, and one booking is paid twice.
- **Stand-in hotels API** (`hotels_mock_route.dfy`). `GET` returns four fixed
  hotels. `POST` only checks that `name`, `location` and `price` are truthy.
- **Add-hotel form** (`add_hotel_form.dfy`). The class `AddHotelPage` holds the
  form text, the loading flag and the error. Its handlers rely on `validateForm`
  and on the tag parser; a parse of comma-joined tags gives them back
  (`ParseTagsJoin`).
- **Components** (`booking_summary.dfy`, `hotel_list.dfy`,
  `hotel_amenities.dfy`, `room_list.dfy`, `hotel_reviews.dfy`,
  `filter_sidebar.dfy`, `search_page.dfy`). These are pure functions:
  - the price breakdown;
  - the case-insensitive location filter;
  - amenity grouping;
  - the booking link and how it parses back;
  - star rows;
  - checkbox slugs;
  - URL parameter defaults.
- **Image upload** (`image_upload.dfy`). The class `ImageUploader` holds the
  upload card's state. Its handlers are proved against pure functions of the
  request's outcome.
- **Library** (`optional.dfy`, `seqs.dfy`, `text.dfy`, `icons.dfy`). These model
  the JavaScript operations the code uses:
  - `Array.prototype.filter`;
  - MongoDB's first-match `updateOne`;
  - `split`/`join`, `trim` and `toLowerCase`;
  - decimal formatting.

  Their properties are proved once and reused.

The handlers trust their input, and four lemmas state the consequences:
- No capacity is checked, so a room's counter can go below zero (`OverbookingGoesNegative`).
- A booking in any state can be paid (`ConfirmFromAnyState`).
- Paying the same booking again changes nothing further (`ConfirmFirstIdempotent`).
- A user's bookings come back in insertion order (`BookingsOfUserExact`).

The handlers in app/api/bookings/route.ts, app/api/payments/route.ts and app/api/hotels/route.ts validate no field of the request body.

## Model

| member | source | states |
|---|---|---|
| BookingsRoute.NewBooking | app/api/bookings/route.ts:12-17 | The stored booking is `pending/pending` with the server's timestamp and the request's guests; every other key of the body except `_id` is kept with its value, and no other key appears |
| BookingsRoute.ClientStatusIgnored | app/api/bookings/route.ts:13-16 | Two bodies that differ only in `status`, `paymentStatus` or `createdAt` store the same booking: the spread comes first, so the server's values win |
| BookingsRoute.WithFirstRoomIncremented | app/api/bookings/route.ts:22 | `$inc` on `rooms.0.available` changes that counter by exactly `delta` and nothing else of the hotel |
| BookingsRoute.AvailabilityUpdate | app/api/bookings/route.ts:20-23 | The first hotel whose id matches gets the increment, every other hotel is unchanged, and with no match nothing changes |
| BookingsRoute.AvailabilityUpdateOnly | app/api/bookings/route.ts:20-23 | With distinct ids, exactly the named hotel's first room changes |
| BookingsRoute.OverbookingGoesNegative | app/api/bookings/route.ts:20-23 | No availability check: booking more guests than are available leaves the counter negative |
| BookingsRoute.BookingsOfUserExact | app/api/bookings/route.ts:39-41 | A booking is listed exactly when it is stored with `userId` equal to the ObjectId; results keep collection order and are not sorted |
| BookingsRoute.BookingsOfUserAfterInsert | app/api/bookings/route.ts:39-41 | After an insert, the list for a user is the old list, followed by the new booking only if it matches |
| BookingsRoute.PostedBookingNeverListed | app/api/bookings/route.ts:40 | The POST stores `userId` as a JSON string while the GET compares with an ObjectId, so a booking created through the POST is never listed |
| PaymentsRoute.NewPayment | app/api/payments/route.ts:12-18 | The payment stored is `completed` with the body's amount and method, whatever they are |
| PaymentsRoute.Confirm | app/api/payments/route.ts:21-29 | The `$set` makes the booking `confirmed/completed` and changes no other field |
| PaymentsRoute.ConfirmFirst | app/api/payments/route.ts:21-29 | The first booking with the id is confirmed, every other booking is unchanged, and ids and length are kept |
| PaymentsRoute.ConfirmFromAnyState | app/api/payments/route.ts:21-29 | No guard on the prior state: a cancelled or already confirmed booking comes out confirmed and paid |
| PaymentsRoute.ConfirmFirstIdempotent | app/api/payments/route.ts:21-29 | Paying the same booking again changes no booking further |
| HotelsRoute.NewHotel | app/api/hotels/route.ts:22-26 | The stored hotel has both timestamps set by the server and keeps the rooms and every other key of the body except `_id` |
| Database.Db.GetHotels | app/api/hotels/route.ts:5-14 | Returns every stored hotel in collection order |
| Database.Db.PostHotel | app/api/hotels/route.ts:16-32 | A JSON body is appended under a fresh id, which is returned; a body that is not JSON is a 500 with nothing stored |
| Database.Db.PostBooking | app/api/bookings/route.ts:5-29 | Inserts the booking first, then applies the availability update; a failed hotel-id conversion leaves the booking stored and answers 500; the id invariant is kept |
| Database.Db.GetBookings | app/api/bookings/route.ts:31-47 | Returns the user's bookings, or a 500 when the id conversion fails |
| Database.Db.PostPayment | app/api/payments/route.ts:5-35 | A failed id conversion is a 500 with nothing stored; otherwise a completed payment is appended and the booking confirmed |
| Database.BookTwice | app/api/bookings/route.ts:12-23 | Two bookings of two guests on a room with two places both succeed, stay pending and leave -2 places |
| Database.BookTwiceAndPayTwice | app/api/bookings/route.ts:20-23 | Two bookings of two guests on a room with two places both succeed and leave -2 places; paying one booking twice records two payments |
| HotelsMockRoute.Catalog | app/api/hotels/route.js:16-53 | Four hotels with ids 1 to 4, positive prices and ratings within 0 to 5 |
| HotelsMockRoute.Post | app/api/hotels/route.js:62-96 | 400 exactly when `name`, `location` or `price` is falsy; 500 for a body that is not JSON; success otherwise |
| HotelsMockRoute.PostReadsOnlyRequired | app/api/hotels/route.js:67-69 | Only the three required fields decide the outcome |
| HotelsMockRoute.ZeroPriceRejected | app/api/hotels/route.js:67 | A price of 0 is rejected like a missing one |
| AddHotelForm.WithField | app/admin/hotels/add/page.tsx:46-49 | The named field takes the value and every other field is kept |
| AddHotelForm.ValidateAccepts | app/admin/hotels/add/page.tsx:38-44 | The form passes exactly when name and location have non-whitespace text, the price is non-empty and not at most 0, and the rating is not outside 0 to 5 |
| AddHotelForm.ValidateFirstFailure | app/admin/hotels/add/page.tsx:38-44 | Each message is reported exactly when its rule is the first broken, in the order name, location, price, rating |
| AddHotelForm.NotANumberPasses | app/admin/hotels/add/page.tsx:41-42 | A price or rating that is not a number compares false both ways and passes both checks |
| AddHotelForm.InitialFormRejected | app/admin/hotels/add/page.tsx:26-39 | The untouched form is rejected for its empty name |
| AddHotelForm.TrimAll | app/admin/hotels/add/page.tsx:76 | Each piece is trimmed, in a new sequence of the same length |
| AddHotelForm.ParseTagsWellFormed | app/admin/hotels/add/page.tsx:74-77 | Every parsed tag is non-empty, has no comma and no whitespace at either end |
| AddHotelForm.ParseTagsInOrder | app/admin/hotels/add/page.tsx:74-77 | Parsed tags keep the order in which they were written |
| AddHotelForm.ParseTagsJoin | app/admin/hotels/add/page.tsx:74-77 | Well-formed tags joined by commas parse back to themselves |
| AddHotelForm.ParseTagsIdempotent | app/admin/hotels/add/page.tsx:74-77 | Parsing the comma-joined result of a parse gives the same tags |
| AddHotelForm.ToHotelData | app/admin/hotels/add/page.tsx:70-78 | The body sent keeps the text fields, parses price and rating, and carries only well-formed tags |
| AddHotelForm.SubmitError | app/admin/hotels/add/page.tsx:88-98 | No error after a 2xx; the server's error or "Failed to add hotel" after another response; the thrown message otherwise |
| AddHotelForm.AddHotelPage.constructor | app/admin/hotels/add/page.tsx:26-36 | The form starts empty with rating "0" and the placeholder image, not loading, with no error |
| AddHotelForm.AddHotelPage.HandleChange | app/admin/hotels/add/page.tsx:46-49 | Only the named field changes |
| AddHotelForm.AddHotelPage.HandleImageUpload | app/admin/hotels/add/page.tsx:51-53 | The image field takes the uploaded URL |
| AddHotelForm.AddHotelPage.HandleSubmit | app/admin/hotels/add/page.tsx:55-102 | An invalid form shows its first broken rule and sends nothing; a valid one sends the converted form and shows the outcome's error; loading ends false; the form text never changes |
| BookingSummary.DateText | components/booking-summary.tsx:81 | An empty date shows "Not selected" |
| BookingSummary.Summarize | components/booking-summary.tsx:50-55 | Room price is the room's or 199; subtotal is price times nights; the total adds the taxes, and is `NaN` exactly when the `taxes` prop is missing; "night" exactly for one night; "Standard Room" without a room |
| BookingSummary.MissingDateIsOneNight | components/booking-summary.tsx:50 | With a date missing the stay is one night at the room price |
| BookingSummary.BothDatesGiveDifference | components/booking-summary.tsx:50 | With both dates the night count is their day difference |
| BookingSummary.ReversedDatesGoNegative | components/booking-summary.tsx:50-55 | A check-out before the check-in is not clamped: the nights and subtotal are negative and the total falls below the taxes |
| BookingSummary.SameDayIsFree | components/booking-summary.tsx:50-55 | The same day for both dates is zero nights, labelled "nights", with a total of just the taxes |
| BookingSummary.LongerStayCostsMore | components/booking-summary.tsx:50-55 | With a non-negative room price, a later check-out never lowers the total; it adds the room price for each extra night |
| BookingSummary.MissingTaxesGiveNoTotal | components/booking-summary.tsx:55 | Without the `taxes` prop, which the booking page (app/booking/[id]/page.jsx, line 85) never passes, the total is `NaN` whatever the room and dates, while the subtotal is still computed |
| HotelList.FilteredHotelsExact | components/hotel-list.tsx:121-123 | A hotel is kept exactly when its lowercased location contains the lowercased query; order is kept |
| HotelList.EmptyQueryKeepsAll | components/hotel-list.tsx:121-123 | An empty query keeps every hotel |
| HotelList.FilterIgnoresCase | components/hotel-list.tsx:121-123 | Queries differing only in letter case give the same hotels |
| HotelList.FilterTwice | components/hotel-list.tsx:121-123 | Filtering the result again changes nothing |
| HotelList.AmenityIcon | components/hotel-list.tsx:94-107 | Four names get an icon, compared after lowercasing; every other name gets none |
| HotelList.AmenityIconIgnoresCase | components/hotel-list.tsx:95 | Names differing only in case get the same icon |
| HotelList.Savings | components/hotel-list.tsx:174-177 | The badge shows exactly when the original price is higher, for the difference |
| HotelList.MockHotelsAllDiscounted | components/hotel-list.tsx:31-92 | Every listed hotel shows a savings badge |
| HotelList.View | components/hotel-list.tsx:141-152 | "No hotels found" exactly when the filtered list is empty; otherwise the count is its length |
| HotelList.NoHotelsFoundExactly | components/hotel-list.tsx:141-147 | "No hotels found" exactly when no location contains the query |
| HotelAmenities.AllGroups | components/hotel-amenities.tsx:57-59 | Each category, in declaration order, with its own list filtered by the hotel's amenities |
| HotelAmenities.GroupedExact | components/hotel-amenities.tsx:57-61 | A group is shown exactly when it is a category with a non-empty filtered list; groups keep declaration order |
| HotelAmenities.AvailableExact | components/hotel-amenities.tsx:59 | A category lists exactly its own names the hotel has, in the category's order |
| HotelAmenities.ShownUnderEveryCategory | components/hotel-amenities.tsx:57-59 | An amenity the hotel has is shown under every category that lists it |
| HotelAmenities.MinibarShownTwice | components/hotel-amenities.tsx:42-46 | "Minibar" appears under both "Food & Drink" and "Room Features" |
| HotelAmenities.UncategorisedNeverShown | components/hotel-amenities.tsx:50-59 | An amenity no category lists is never shown |
| HotelAmenities.CategoriesWithoutRepeats | components/hotel-amenities.tsx:40-47 | No category lists a name twice |
| HotelAmenities.GroupsWithoutRepeats | components/hotel-amenities.tsx:50-59 | Duplicates in the hotel's list never duplicate a shown amenity |
| HotelAmenities.GroupedDependsOnSet | components/hotel-amenities.tsx:50 | Only which names the hotel has matters, not how often or in which order |
| HotelAmenities.AmenityIcon | components/hotel-amenities.tsx:8-36 | Exact, case-sensitive match; `Ban` exactly for names outside the twelve; both breakfast names share one icon |
| HotelAmenities.UnlistedIconIsBan | components/hotel-amenities.tsx:33-34 | "Spa", "Bar", "Safe" and "free wifi" get `Ban` |
| RoomList.HotelRoomsExact | components/room-list.tsx:80 | Exactly the hotel's rooms are shown, in order, sold-out ones included |
| RoomList.MockRoomsOfHotel | components/room-list.tsx:8-69 | Hotel 101 gets all four rooms; any other hotel gets none |
| RoomList.BookingLinkIsJoin | components/room-list.tsx:132 | The link is the booking path, "?" and the four `key=value` pieces joined by "&" in fixed order |
| RoomList.BookingLinkParses | components/room-list.tsx:132 | Without "&" in the values, splitting the query at "&" gives back the four pieces and the room id reads back |
| RoomList.Action | components/room-list.tsx:130-140 | "Book Now" with the link exactly for an available room; "Sold Out" otherwise |
| RoomList.LinkUsesPageHotel | components/room-list.tsx:132 | The link's path names the page's hotel id |
| RoomList.AmenityIcon | components/room-list.tsx:112-118 | Wifi for "Free WiFi", Coffee for "Breakfast Included", Check for everything else |
| RoomList.ImageSource | components/room-list.tsx:91 | The room's image, or the placeholder when it is empty |
| HotelReviews.HotelReviewsExact | components/hotel-reviews.tsx:75 | Exactly the hotel's reviews are shown, in order |
| HotelReviews.OverallStars | components/hotel-reviews.tsx:87-91 | Overall star i is filled exactly when i is below the rating's floor |
| HotelReviews.ReviewStars | components/hotel-reviews.tsx:133-137 | Review star i is filled exactly when i is below the review's rating |
| HotelReviews.OverallFilledCount | components/hotel-reviews.tsx:87-91 | The overall row has floor(rating) filled stars, kept within 0 to 5 |
| HotelReviews.ReviewFilledCount | components/hotel-reviews.tsx:133-137 | A review row has ceil(rating) filled stars, kept within 0 to 5 |
| HotelReviews.HalfStarRoundsBothWays | components/hotel-reviews.tsx:133-137 | A rating of 4.5 fills four overall stars but five review stars |
| HotelReviews.DistributionRows | components/hotel-reviews.tsx:100-110 | Rows for 5 down to 1 stars with the fixed percentages; the last reads "1 stars" |
| HotelReviews.DistributionSumsTo100 | components/hotel-reviews.tsx:59-65 | The fixed percentages add up to 100 |
| HotelReviews.AvatarSource | components/hotel-reviews.tsx:121 | The avatar, or the placeholder when it is empty |
| HotelReviews.AvatarFallback | components/hotel-reviews.tsx:122 | The name's first character, or "" for an empty name |
| HotelReviews.View | components/hotel-reviews.tsx:75-150 | One card per shown review in order; the overall row and distribution as above |
| HotelReviews.OverallFromProps | components/hotel-reviews.tsx:85-94 | The overall rating and review count are the props, whatever reviews are shown |
| FilterSidebar.InitialRangeOnSlider | components/filter-sidebar.tsx:11-23 | The initial range [50, 500] lies within [0, 1000] and on the step 10 |
| FilterSidebar.RatingIdInjective | components/filter-sidebar.tsx:39 | The rating reads back from its checkbox id, so different ratings get different ids |
| FilterSidebar.RatingIdsDistinct | components/filter-sidebar.tsx:37-40 | The five rating checkboxes have pairwise different ids |
| FilterSidebar.RatingUnit | components/filter-sidebar.tsx:41 | "Star" exactly for 1, "Stars" otherwise |
| FilterSidebar.Dashed | components/filter-sidebar.tsx:65 | The result has no whitespace |
| FilterSidebar.AmenitySlug | components/filter-sidebar.tsx:65 | The slug has no whitespace and no upper-case letter |
| FilterSidebar.DashedOfNoSpace | components/filter-sidebar.tsx:65 | Text without whitespace is left as it is |
| FilterSidebar.DashedWordThenRun | components/filter-sidebar.tsx:65 | A whole run of whitespace after a word becomes a single "-" |
| FilterSidebar.DashedTwoWords | components/filter-sidebar.tsx:65 | Two words without whitespace, separated by one space, are joined by a single "-" |
| FilterSidebar.AmenitySlugIdempotent | components/filter-sidebar.tsx:65 | Slugging a slug changes nothing |
| FilterSidebar.FreeWifiId | components/filter-sidebar.tsx:65 | "Free WiFi" gets the id "amenity-free-wifi" |
| FilterSidebar.IdsDistinctByInitials | components/filter-sidebar.tsx:65 | Names whose first two characters are not whitespace, and differ once lowercased, get different amenity ids |
| FilterSidebar.AmenityIdsDistinct | components/filter-sidebar.tsx:54-66 | The eight amenity checkboxes have pairwise different ids |
| FilterSidebar.TypeId | components/filter-sidebar.tsx:80 | "type-" followed by each character of the type lowercased, whitespace kept |
| FilterSidebar.GuestHouseId | components/filter-sidebar.tsx:78-80 | "Guest House" gets the id "type-guest house" |
| FilterSidebar.TypeIdsDistinct | components/filter-sidebar.tsx:78-80 | The six property-type checkboxes have pairwise different ids |
| SearchPage.StringParam | app/search/page.jsx:9-12 | The parameter when it is one string; the default when it is missing or repeated |
| SearchPage.ReadSearch | app/search/page.jsx:9-12 | Location, check-in and check-out default to "", guests to "2" |
| SearchPage.NoParamsDefaults | app/search/page.jsx:9-12 | Without parameters the search is ("", "", "", "2") |
| SearchPage.RepeatedIsAbsent | app/search/page.jsx:9-12 | A repeated parameter reads as if it were missing |
| SearchPage.Title | app/search/page.jsx:20 | "Search Results" exactly when the location is empty, else "Hotels in" and the location |
| SearchPage.Render | app/search/page.jsx:20-36 | The title and the hotel list come from the values read, passed on unchanged |
| SearchPage.NoLocationListsAll | app/search/page.jsx:9-36 | Without a location every hotel is listed under "Search Results" |
| ImageUpload.FormHotelId | components/image-upload.tsx:54-56 | The hotel id is sent exactly when it is given and not 0 |
| ImageUpload.OutcomeStatus | components/image-upload.tsx:63-78 | Success exactly for an ok response; error otherwise; never idle |
| ImageUpload.OutcomeError | components/image-upload.tsx:63-78 | No message after an ok response; the server's error or the default after another response; the thrown message otherwise |
| ImageUpload.CallbackUrl | components/image-upload.tsx:72-74 | The callback fires exactly when it is given and an ok response has an image URL, with that URL |
| ImageUpload.ErrorBanner | components/image-upload.tsx:134-139 | The banner shows exactly in the error status, never with empty text |
| ImageUpload.BannerAfterUpload | components/image-upload.tsx:134-137 | After an upload the banner shows exactly when the upload did not succeed |
| ImageUpload.ImageUploader.constructor | components/image-upload.tsx:16-21 | No file, no preview, not uploading, idle, no message |
| ImageUpload.ImageUploader.HandleFileChange | components/image-upload.tsx:24-42 | The selection is replaced and the status reset; clearing it clears the preview |
| ImageUpload.ImageUploader.PreviewLoaded | components/image-upload.tsx:35-37 | The read data URL becomes the preview |
| ImageUpload.ImageUploader.BeginUpload | components/image-upload.tsx:45-56 | Uploading, idle, no message; the request carries the file and the hotel id when truthy |
| ImageUpload.ImageUploader.FinishUpload | components/image-upload.tsx:58-81 | Status and message follow the outcome; uploading ends false; the callback URL as above |
| ImageUpload.ImageUploader.HandleUpload | components/image-upload.tsx:44-82 | With no file nothing changes; otherwise the upload ends with the outcome's status and message and the button enabled again |

## Left out

- The MongoDB driver and connection are not modelled. Ids come from a counter in `Database.Db`. `new ObjectId(s)` is passed to each handler as its outcome: `None` when it throws, otherwise the id.
- BookingsRoute.NewBooking: a client-supplied `_id` is dropped and the counter's id is used. MongoDB would keep the client's `_id`, or reject a duplicate one.
- HotelsRoute.NewHotel: a client-supplied `_id` is dropped in the same way.
- BookingsRoute.ClientStatusIgnored covers only `status`, `paymentStatus` and `createdAt`. Two bodies that differ in `_id` store different documents in MongoDB, and the lemma does not claim otherwise.
- BookingSummary.Summarize models a missing `taxes` prop as an absent total, standing for `NaN`. How `NaN` and `undefined` print ("$NaN", "$undefined") is not modelled. Two more props that app/booking/[id]/page.jsx:85 omits, `hotelName` and `address`, are only rendered (components/booking-summary.tsx:68-69), and rendering is not modelled. The omitted `roomType` and `price` are never read.
- Database.Db.PostBooking requires every stored hotel to have a first room. `$inc` on `rooms.0` of a hotel without rooms is not modelled.
- Database.Db.PostBooking takes `guests` as an integer. JavaScript's negation of a string or missing `guests` is not modelled.
- Database.Db.PostBooking, Database.Db.PostPayment and Database.Db.GetBookings do not model store failures other than a failed id conversion.
- Database.Db.constructor does not state the counter's starting value. Nothing depends on it.
- `new Date()` is a `now` parameter. One value is used for both `createdAt` and `updatedAt`, although the source calls `new Date()` twice.
- JSON values are modelled as null, booleans, integers, strings, ObjectIds and opaque compound values. Fractional numbers are not modelled.
- HotelsMockRoute.Post treats a JSON `null` body like a body that is not JSON: `body.name` throws and the answer is 500.
- `Number`, `Number.parseFloat`, and the date parsing behind `differenceInDays` are parameters of the functions that use them. A number that does not parse is `None`, and every comparison with it is false.
- `toFixed` and date formatting are not modelled.
- `toLowerCase`, `trim` and `\s` are modelled over ASCII letters and ASCII whitespace. Unicode case mapping and Unicode spaces are not.
- `charAt(0)` is modelled as the first character, not the first UTF-16 code unit.
- JSX rendering, CSS classes, `Image`, `Link`, `router.push`/`refresh` and Next.js routing are not modelled. Which of app/api/hotels/route.js and app/api/hotels/route.ts serves the path is not decided: each is modelled on its own.
- `fetch`, `FileReader` and `FormData` are not modelled. Each request or file read is passed in as its outcome, or is its own step (`PreviewLoaded`).
- Concurrency is not modelled. Interleaved requests, and a file chosen again while an upload is in flight, are left out; the model is one handler call at a time.
- HotelList: the one-second loading timer and the `error` state, which nothing sets, are not modelled.
- HotelList.View does not model the "View Details" link.
- HotelReviews.HotelReviews takes the review list as a parameter. The fixed reviews, whose text has no behaviour, are not reproduced.
- components/booking-form.tsx is not part of this model: it only builds a request and awaits `fetch`. It reads `bookingId` from the response, while the bookings POST answers `{ id }`.
- These files are not part of this model, because they hold only fixed data, fixed text or I/O:
  - app/page.tsx, app/layout.tsx, app/booking/confirmation/page.tsx;
  - app/booking/[id]/page.jsx, apart from its call to the booking summary (`MissingTaxesGiveNoTotal`);
  - components/featured-hotels.tsx, components/featured-hotels-client.tsx, components/popular-destinations.tsx;
  - components/hotel-offers.tsx, components/city-plan.tsx, components/hotel-location.tsx;
  - components/hotel-card.tsx, components/hotel-image.tsx, components/background-image.tsx, components/search-box.tsx;
  - app/hotel/[id]/page.tsx;
  - app/api/upload/route.ts, a stub returning a constant URL;
  - next.config.mjs and scripts/download-images.js.
- models/Hotel.ts and models/User.ts declare types only. They shape the datatypes.
