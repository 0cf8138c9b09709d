# LocalHostel core, modelled in Dafny

LocalHostel is a hostel-booking web application. Students browse hostels,
book a seat in a room type and review hostels. Owners list hostels, manage
their rooms and accept or cancel bookings.

This project models its core:

- The Express/Mongoose **backend**:
  - the Hostel, Booking and User schemas;
  - the hostel, booking, review and profile controllers;
  - the `protect`/`ownerOnly` middleware;
  - the multer upload configuration.
- The React **pages** that hold logic:
  - the route guards and the login session in `App.jsx`;
  - the hostel listing and top-rated filters;
  - the hostel details page with its booking modal;
  - the owner dashboard (room generation, row editing, totals, hostel plan);
  - the profile page (owner statistics and form validation).
- The older mock pages under `backend/src/pages`:
  - a booking page on fixed room categories, with bookings kept in local storage;
  - a profile page on seed data.

Each core source file becomes one Dafny module:

| module | file |
|---|---|
| `HostelSchema` | `backend/models/Hostel.js` |
| `BookingSchema` | `backend/models/Booking.js` |
| `UserSchema` | `backend/models/User.js` |
| `Store` | the MongoDB collections, as one `Database` class |
| `HostelController` | `backend/controllers/hostelController.js` |
| `BookingController` | `backend/controllers/bookingController.js` |
| `ReviewController` | `backend/controllers/reviewController.js` |
| `ProfileController` | `backend/controllers/profileController.js` |
| `AuthMiddleware` | `backend/middleware/authMiddleware.js` |
| `Upload` | `backend/middleware/upload.js` |
| `App` | `frontend/src/App.jsx` |
| `HomePage` | `frontend/src/pages/Home.jsx` |
| `HostelsPage` | `frontend/src/pages/Hostels.jsx` |
| `HostelDetailsPage` | `frontend/src/pages/HostelDetails.jsx` |
| `OwnerDashboard` | `frontend/src/pages/OwnerDashboard.jsx` |
| `ProfilePage` | `frontend/src/pages/Profile.jsx` |
| `MockHostelDetailsPage` | `backend/src/pages/HostelDetails.jsx` |
| `MockProfilePage` | `backend/src/pages/Profile.jsx` |

`Validation` holds the form validators, which two pages share. `Text`
models the JavaScript string operations the source relies on:

- `toLowerCase`;
- `trim`;
- `replace`;
- `includes`;
- `split(' ')[1]`;
- `\s` removal;
- number formatting.

`Seqs` holds filter, sum and count over sequences. `Wrappers` holds
`Option` and `Result`.

State that the source changes in place becomes a class with the same
fields:

- the database collections;
- the React component state of each page;
- the login session;
- the browser's stored bookings.

Pure computations are functions:

- schema casting and validation;
- filters, sorting and seat totals.

Every operation that can fail returns a `Result` or an outcome datatype,
with one case per response the source sends:

- 400 when there are no images, the room type is not found or the room has no free seat;
- 403 when access is denied;
- 404 when the hostel or booking is missing;
- 500 when a schema cast fails (a price or seat total that `Number` makes
  NaN, a type outside its enum), when `JSON.parse` throws on a list field,
  or when `hostel.owner` is read on a missing hostel.

Each controller method states the new value of every collection and of
both id counters. Where the source keeps it, each also preserves the seat
ledger of every hostel: `availableSeats` equals the sum of free seats over
its rooms.

### Behaviour followed as written

- `updateBookingStatus` changes only the status. Cancelling a booking
  returns no seat to its room. The model reproduces this:
  `BookingController.UpdateBookingStatus` leaves `db.hostels` unchanged.
- `createBooking` on a hostel with two rooms of the same type books the
  first such room (`Array.prototype.find`).
- `createReview` on a hostel id that does not exist stores the review and
  changes no hostel, because `findByIdAndUpdate` returns null silently.
- `createBooking` without a check-in date fails with 500 before any seat
  is taken.
- `updateBookingStatus` on a booking whose hostel has been deleted fails
  with 500. The cause is reading `owner` of null.
- `updateBookingStatus` without a status succeeds: the enum validator
  accepts an absent value, so the stored booking loses its status, and the
  reply shows none. Mongoose applies the schema default when it loads a
  document, so the booking reads back as Pending in every later listing.
  The save stamps `updatedAt` only when the stored status changes: a second
  request without a status saves nothing, while a request with "Pending"
  stores it and stamps the time.
- `createHostel` with an empty price field stores price 0, because
  `Number("")` is 0 and `required` accepts 0.

## Model

| member | source | states |
|---|---|---|
| HostelSchema.ParseHostelType | backend/models/Hostel.js:6 | a hostel type is accepted exactly when it is "Boys Hostel" or "Girls Hostel", and its label is the input |
| HostelSchema.ParseRoomType | backend/models/Hostel.js:14 | a room type is accepted exactly when it is one of the four enum values, and its label is the input |
| HostelSchema.RoomTypeLabelInjective | backend/models/Hostel.js:14 | two room types have the same label exactly when they are the same type |
| HostelSchema.StoreRoom | backend/models/Hostel.js:13-18 | a stored room keeps its type, seats and price; a missing `occupied` defaults to 0 |
| HostelSchema.StoreRooms | backend/models/Hostel.js:13-18 | the room array is cast element by element, with the same length |
| HostelSchema.StoredFreeSeats | backend/models/Hostel.js:13-18 | casting the rooms keeps the total of free seats |
| HostelSchema.NewHostel | backend/models/Hostel.js:3-19 | a new hostel document is created exactly when the required fields are present, the price and any seat total are numbers (not NaN), the enums match and every room gives its seats; it copies every field, `availableSeats` defaults to 0 and `rating` is 0 |
| BookingSchema.ParseStatus | backend/models/Booking.js:8 | a status is accepted exactly when it is Pending, Confirmed or Cancelled, and its label is the input |
| BookingSchema.NewBooking | backend/models/Booking.js:3-10 | a booking is created exactly when roomType and checkInDate are present; its status starts as Pending and both timestamps are the creation time |
| BookingSchema.Loaded | backend/models/Booking.js:8 | a loaded booking always has a status: a stored status is kept, and a missing one reads as the default Pending; nothing else differs |
| BookingSchema.LoadAllAppend | backend/models/Booking.js:8 | loading two results joined is joining the two loaded results |
| BookingSchema.SetStatus | backend/models/Booking.js:8-10 | a status change succeeds exactly when the new status is absent or in the enum; the stored status is then the given label, or absent; `updatedAt` becomes the save time exactly when the stored status changed; nothing else changes |
| BookingSchema.SetStatusIdempotent | backend/models/Booking.js:8-10 | a second request with the same status, on the booking the first one stored, changes nothing at any later time |
| BookingSchema.StoredStatusLoadsUnchanged | backend/models/Booking.js:8-10 | for a booking stored with a status, saving against the loaded document and against the stored one give the same result |
| BookingSchema.ClearedStatusReadsPending | backend/controllers/bookingController.js:80-91 | a request without a status clears the stored status, stamping `updatedAt` when there was one; the booking then reads back as Pending, yet a second request without a status saves nothing, and a request with "Pending" stores it and stamps its own time |
| UserSchema.ParseRole | backend/models/User.js:24-28 | a missing role defaults to user; a given role is accepted exactly when it is "user" or "owner" |
| UserSchema.View | backend/models/User.js:22 | the public view of a user carries every field except the password |
| UserSchema.NormalizeEmail | backend/models/User.js:15-16 | a stored email is the lower-cased input with only its leading and trailing white space removed; it has no upper-case letter and no white space at either end |
| UserSchema.NormalizeEmailIdempotent | backend/models/User.js:15-16 | normalising an email twice equals normalising it once |
| UserSchema.PreSave | backend/models/User.js:45-55 | the save hook hashes the password exactly when it was modified and changes nothing else |
| UserSchema.NewUser | backend/models/User.js:6-42 | a user is created exactly when the name is present, the email is non-empty after normalising, the password has at least 6 characters and the role is valid; the stored password is the hash and the email is normalised |
| UserSchema.NewEmailKeepsUnique | backend/models/User.js:14 | storing a user with an email nobody has, under a fresh id, keeps emails unique |
| Store.Database.InsertUser | backend/models/User.js:11-17 | registration stores the new user under the next user id when the input is valid and the email is not yet taken; otherwise it fails with the schema error or a duplicate-email error and nothing changes |
| HostelController.BuildFilter | backend/controllers/hostelController.js:6-10 | the query filter sets the location and type conditions exactly when those parameters are non-empty, and admits a hostel exactly when the query matches it |
| HostelController.Listing | backend/controllers/hostelController.js:4-17 | the listing holds exactly the stored hostels that match the query |
| HostelController.EmptyQueryListsAll | backend/controllers/hostelController.js:6-12 | a query without parameters lists every hostel |
| HostelController.HostelById | backend/controllers/hostelController.js:19-27 | a hostel is found exactly when its id is stored, and the result is the stored hostel |
| HostelController.CreateInput | backend/controllers/hostelController.js:38-53 | the creation input exists exactly when both list fields parse as JSON; it takes the uploaded file names as images, the requester as owner, the parsed lists (empty when not sent) and the price through `Number`; `availableSeats` is the free seats of the submitted rooms, or NaN when a room lacks its seats |
| HostelController.Created | backend/controllers/hostelController.js:40-53 | a hostel is created exactly when the input parses and the schema accepts it, and it is the schema's document |
| HostelController.CreatedSeatsConsistent | backend/controllers/hostelController.js:49-52 | a created hostel's `availableSeats` equals the free seats of its rooms |
| HostelController.CreatedPrice | backend/controllers/hostelController.js:44 | a created hostel's price is what `Number` reads from the submitted text, so the field was sent; an empty field gives 0 |
| HostelController.EmptyPriceCreates | backend/controllers/hostelController.js:40-53 | a form with name, location and a valid type, an empty price and no lists creates a hostel priced 0 with no rooms and no seats |
| HostelController.CreateHostel | backend/controllers/hostelController.js:29-60 | creation fails with 400 exactly when no file was uploaded, and with 500 exactly when a list field does not parse or the schema rejects the input; otherwise the new hostel is stored under the next hostel id, the counter advances and nothing else changes |
| HostelController.Updated | backend/controllers/hostelController.js:71-88 | non-empty form fields replace the stored ones, a price through `Number`; new images are appended; new rooms are cast and the seat ledger is recomputed; owner and rating are kept |
| HostelController.UpdateHostel | backend/controllers/hostelController.js:62-96 | an update fails with 403 exactly when the hostel is missing or the requester is not its owner, and with 500 exactly when a list does not parse, the price is NaN, an enum cast fails or a new room lacks its seats; otherwise it stores `Updated` and nothing else changes |
| HostelController.DeleteHostel | backend/controllers/hostelController.js:98-109 | deletion succeeds exactly when the requester owns the stored hostel; it removes only that hostel and changes nothing else |
| BookingController.RoomOfType | backend/controllers/bookingController.js:15-18 | the chosen room is the first room whose type label equals the requested type; none is chosen when no room has that type |
| BookingController.Reserve | backend/controllers/bookingController.js:35-36 | a reservation raises the chosen room's `occupied` by one and lowers `availableSeats` by one; nothing else changes |
| BookingController.ReserveKeepsLedger | backend/controllers/bookingController.js:35-36 | a reservation lowers the free-seat total by one and keeps a consistent seat ledger consistent |
| BookingController.ReserveKeepsBounds | backend/controllers/bookingController.js:21-23 | reserving a room that has a free seat keeps every room's occupancy between 0 and its seats |
| BookingController.CreateBooking | backend/controllers/bookingController.js:4-48 | booking fails with 404 exactly when the hostel is missing, with 400 when no room has the type or the room is full, and with 500 when the check-in date is missing; otherwise it appends a Pending booking at the room's price and takes one seat |
| BookingController.UpdateBookingStatus | backend/controllers/bookingController.js:76-100 | the update fails with 404 exactly when the booking is missing, 500 when its hostel is gone, 403 when the requester does not own the hostel and 500 when the status is not in the enum; otherwise the stored booking gets the new status as `SetStatus` saves it, it alone is replaced and no seat is returned |
| BookingController.UserBookings | backend/controllers/bookingController.js:50-59 | a student's bookings are exactly those they made, each as loaded (so with a status), in stored order, with every booking kept as often as it occurs |
| BookingController.OwnedHostelIds | backend/controllers/bookingController.js:63 | the owner's hostel ids are exactly the stored hostels they own |
| BookingController.OwnerBookings | backend/controllers/bookingController.js:61-74 | an owner's bookings are exactly those on hostels they own, each as loaded, in stored order, with every booking kept as often as it occurs |
| BookingController.NewBookingListed | backend/controllers/bookingController.js:26-32 | a new booking appears, as loaded, at the end of both the student's and the hostel owner's booking lists |
| ReviewController.HostelReviews | backend/controllers/reviewController.js:25-32 | a hostel's reviews are exactly the stored reviews for it, in stored order |
| ReviewController.HostelReviewsCounts | backend/controllers/reviewController.js:25-32 | every stored review of the hostel is listed as often as it is stored, and no other review is listed |
| ReviewController.RatingSumBounds | backend/controllers/reviewController.js:16 | the sum of ratings of n reviews on the 1-5 scale lies between n and 5n |
| ReviewController.MeanWithinScale | backend/controllers/reviewController.js:16 | the mean rating of reviews on the 1-5 scale lies between 1 and 5 |
| ReviewController.NewReviewCounted | backend/controllers/reviewController.js:7-15 | a new review is appended to its hostel's reviews |
| ReviewController.MeanRating | backend/controllers/reviewController.js:16 | the mean times the number of reviews is the sum of their ratings |
| ReviewController.MeanAfterReview | backend/controllers/reviewController.js:15-16 | after a review the hostel's mean is the earlier sum plus the new rating, over the earlier count plus one |
| ReviewController.CreateReview | backend/controllers/reviewController.js:4-23 | a review is always stored; a stored hostel's rating becomes the mean over all its reviews, and a missing hostel changes nothing |
| ProfileController.GetProfile | backend/controllers/profileController.js:3-10 | the profile is found exactly when the requester is stored, and it is their public view |
| ProfileController.UpdateProfile | backend/controllers/profileController.js:12-23 | non-empty name and phone replace the stored ones; every other field is kept; a missing user fails with nothing changed |
| ProfileController.UpdateKeepsEmails | backend/controllers/profileController.js:16-18 | changing a user without changing their email keeps emails unique |
| AuthMiddleware.VerifiedId | backend/middleware/authMiddleware.js:9-11 | the second space-separated field of the header is the token; a user id results exactly when that token is non-empty and verifies |
| AuthMiddleware.Protect | backend/middleware/authMiddleware.js:4-22 | the request is refused as having no token exactly when the header is absent or does not start with "Bearer"; it proceeds exactly when the token verifies, carrying the stored user's public view |
| AuthMiddleware.ProtectStatus | backend/middleware/authMiddleware.js:14-20 | every refusal is answered 401 |
| AuthMiddleware.BearerHeaderAccepted | backend/middleware/authMiddleware.js:7-13 | a header "Bearer " followed by a verifiable token proceeds with that token's user |
| AuthMiddleware.BareBearerFails | backend/middleware/authMiddleware.js:7-16 | example: the header "Bearer" alone passes the prefix test but fails as a bad token |
| AuthMiddleware.OwnerOnly | backend/middleware/authMiddleware.js:24-30 | the owner gate passes exactly when a user is present and their role is owner |
| AuthMiddleware.GateStatus | backend/middleware/authMiddleware.js:28 | a refusal at the owner gate is answered 403 |
| Upload.LastIndexOfChar | backend/middleware/upload.js:8 | the index returned is the last occurrence of the character; none is returned exactly when it does not occur |
| Upload.StripTrailingSlashes | backend/middleware/upload.js:8 | the result is a prefix of the input and does not end in a slash |
| Upload.ExtName | backend/middleware/upload.js:14 | `path.extname` of a name is empty or starts with a dot |
| Upload.ExtNameShape | backend/middleware/upload.js:8 | an extension is empty, or a dot followed by text holding no dot and no slash |
| Upload.LowerBasename | backend/middleware/upload.js:14 | lower-casing commutes with taking the base name |
| Upload.LowerExtName | backend/middleware/upload.js:14 | lower-casing commutes with taking the extension |
| Upload.FileFilter | backend/middleware/upload.js:12-22 | an accepted file has an image MIME type; a refusal carries the images-only message |
| Upload.FileFilterAccepts | backend/middleware/upload.js:12-22 | a file is accepted exactly when both its lower-cased extension and its MIME type name jpeg, jpg, png or webp; otherwise it is refused with the images-only message |
| Upload.StoredName | backend/middleware/upload.js:8 | a stored file name starts with the field name and a dash |
| Upload.StoredNameKeepsExt | backend/middleware/upload.js:8 | a stored file name has the same extension as the original name |
| Upload.PartError | backend/middleware/upload.js:24-30 | a part outside the "images" field is refused as unexpected, a seventh image as one too many; a part that passes is among the first 6, within 5 MB and passes the file filter |
| Upload.PartAccepted | backend/middleware/upload.js:24-30 | one part passes exactly when it is in the "images" field, within the first 6 parts, an image by name and type, and at most 5 MB |
| Upload.AcceptParts | backend/middleware/upload.js:24-30 | a request is accepted exactly when every part passes, with one stored name per part |
| Upload.AcceptedRequest | backend/middleware/upload.js:7-9 | an accepted request has at most 6 parts, and each stored name is built from the field, that part's time and its original name |
| Upload.RefusedPartFailsRequest | backend/middleware/upload.js:17-21 | one refused part fails the whole request |
| Upload.TooManyFilesRefused | backend/middleware/upload.js:30 | more than 6 files fail the request |
| App.Resolve | frontend/src/App.jsx:70-93 | the dashboard renders exactly for owners; the profile renders exactly when logged in; login and register render exactly when logged out; every redirect goes to "/" from login or register and to "/login" otherwise |
| App.DashboardImpliesLoggedIn | frontend/src/App.jsx:70-93 | whoever can open the dashboard can open the profile and is sent away from login and register |
| App.Session.constructor | frontend/src/App.jsx:24-30 | the session is logged in exactly when a non-empty role is stored, with that role |
| App.Session.HandleLogin | frontend/src/App.jsx:32-37 | login stores the role, logs in and shows a welcome toast naming the role |
| App.Session.HandleLogout | frontend/src/App.jsx:39-44 | logout removes the stored role, logs out and shows the logout toast |
| App.Reload | frontend/src/App.jsx:24-30 | reloading the page restores the same login state from storage |
| HomePage.InsertPermutes | frontend/src/pages/Home.jsx:33-34 | inserting a hostel into a list adds exactly that hostel |
| HomePage.InsertSorted | frontend/src/pages/Home.jsx:33-34 | inserting into a list sorted by descending rating keeps it sorted |
| HomePage.SortByRating | frontend/src/pages/Home.jsx:33-34 | the sorted list is a permutation of the hostels, in descending rating |
| HomePage.TopRated | frontend/src/pages/Home.jsx:33-35 | the top-rated list has min(4, n) hostels, in descending rating, and is a sub-multiset of the input |
| HomePage.LeftOutRatedNoHigher | frontend/src/pages/Home.jsx:33-35 | a hostel left out of the top list is rated no higher than any hostel in it |
| HostelsPage.FilteredHostels | frontend/src/pages/Hostels.jsx:8-15 | the shown hostels are exactly those passing every set filter, in fixture order, each as often as it occurs |
| HostelsPage.NoFiltersListAll | frontend/src/pages/Hostels.jsx:8-15 | with no filter set every hostel is shown |
| HostelsPage.LocationCaseSensitive | frontend/src/pages/Hostels.jsx:10 | example: the location filter is case-sensitive, so "pune" does not find "Pune" |
| HostelsPage.NarrowingKeepsSublist | frontend/src/pages/Hostels.jsx:12 | adding a price bound only removes hostels, and keeps those at or under the bound |
| HostelDetailsPage.LowerLabelOf | frontend/src/pages/HostelDetails.jsx:40 | the lower-cased label of each room type is the stated literal |
| HostelDetailsPage.RoomKeyOf | frontend/src/pages/HostelDetails.jsx:40 | the select key of a type's label is "single", "2", "3" or "5" |
| HostelDetailsPage.KeyMatchesOwnType | frontend/src/pages/HostelDetails.jsx:92 | a type's select key occurs in a room type's lower-cased label exactly when the two types are equal |
| HostelDetailsPage.InitialKey | frontend/src/pages/HostelDetails.jsx:38-41 | the preselected key is that of the first room with a free seat, and none exists exactly when every room is full |
| HostelDetailsPage.SelectRoom | frontend/src/pages/HostelDetails.jsx:92 | the selected room is the first whose lower-cased type contains the key, and none when no room does |
| HostelDetailsPage.SelectsTheBookedRoom | frontend/src/pages/HostelDetails.jsx:92 | the room the page selects by key is the room the server books for that type |
| HostelDetailsPage.ModalRooms | frontend/src/pages/HostelDetails.jsx:406-413 | the modal offers exactly the rooms with a free seat, in order, each as often as it occurs |
| HostelDetailsPage.OfferedRoomSelected | frontend/src/pages/HostelDetails.jsx:406-413 | when room types are distinct, choosing an offered room's key selects that room |
| HostelDetailsPage.DetailsPage.constructor | frontend/src/pages/HostelDetails.jsx:15-26 | the page starts with no hostel, no selection, no date and the modal closed |
| HostelDetailsPage.DetailsPage.Loaded | frontend/src/pages/HostelDetails.jsx:38-41 | loading a hostel preselects the first available room's key and keeps the selection when no room is free |
| HostelDetailsPage.DetailsPage.HandleBookNow | frontend/src/pages/HostelDetails.jsx:66-77 | a logged-out visitor is sent to login; a loaded hostel with no seats is reported fully booked; otherwise the modal opens |
| HostelDetailsPage.DetailsPage.ConfirmBooking | frontend/src/pages/HostelDetails.jsx:79-113 | without a date or a room type nothing is sent; a booking is posted exactly when the selected room has a free seat, carrying that room's type and price; success closes the modal and clears the date; a failure shows the server message or "Booking failed" |
| OwnerDashboard.StatusOf | frontend/src/pages/OwnerDashboard.jsx:39-40 | a row is Full exactly when no seat is available, and Vacant exactly when some are and all of them are |
| OwnerDashboard.StatusMeaning | frontend/src/pages/OwnerDashboard.jsx:39-40 | a room is Full exactly when every seat is taken, Vacant exactly when none is and it has seats, and Partial otherwise |
| OwnerDashboard.Occupancy | frontend/src/pages/OwnerDashboard.jsx:29 | a generated occupancy is at least 0 and below the room's seats |
| OwnerDashboard.WithDerived | frontend/src/pages/OwnerDashboard.jsx:36-41 | a row's available seats are its seats minus its occupied, and its status follows from them |
| OwnerDashboard.GenerateRooms | frontend/src/pages/OwnerDashboard.jsx:17-34 | one row is generated per planned room, numbered from "Room 101" with ids from 1, with the plan's type and seats and a random occupancy |
| OwnerDashboard.AppendRooms | frontend/src/pages/OwnerDashboard.jsx:23-33 | the inner loop appends one row per room of a sharing type and keeps the room numbers consecutive |
| OwnerDashboard.Dashboard.constructor | frontend/src/pages/OwnerDashboard.jsx:9-42 | the dashboard starts with the initial plan and the generated rows, each with its derived seats and status |
| OwnerDashboard.Dashboard.AddRoom | frontend/src/pages/OwnerDashboard.jsx:74-99 | adding a room fails exactly when the number is empty or occupied exceeds seats; otherwise a row with the next id is appended and nothing else changes |
| OwnerDashboard.Dashboard.EditRoomNumber | frontend/src/pages/OwnerDashboard.jsx:62-71 | a non-empty number renames every row with that id; an empty one changes nothing |
| OwnerDashboard.Dashboard.AddHostel | frontend/src/pages/OwnerDashboard.jsx:126-146 | adding a hostel fails exactly when the plan has no seats; otherwise it reports the plan's seat total and clears the name, images and plan |
| OwnerDashboard.AddedRowClassified | frontend/src/pages/OwnerDashboard.jsx:93-94 | an added row is Full exactly when fully occupied and Vacant exactly when empty |
| OwnerDashboard.GeneratedNeverFull | frontend/src/pages/OwnerDashboard.jsx:29 | no generated room is Full, since its random occupancy is below its seats |
| OwnerDashboard.ClearedPlan | frontend/src/pages/OwnerDashboard.jsx:140-145 | clearing keeps each sharing type and sets its rooms and price to 0 |
| OwnerDashboard.ClearedPlanHasNoSeats | frontend/src/pages/OwnerDashboard.jsx:128-145 | a cleared plan has no seats, so a second submission is refused |
| OwnerDashboard.PlanSeatTotal | frontend/src/pages/OwnerDashboard.jsx:128-132 | the seat total of a plan with no negative room count is not negative |
| OwnerDashboard.PlanSeatsAreSlotSeats | frontend/src/pages/OwnerDashboard.jsx:128-132 | the seat total of the plan equals the seats of the rooms generated from it |
| OwnerDashboard.FilteredRooms | frontend/src/pages/OwnerDashboard.jsx:102-106 | the shown rows are exactly those of the chosen type, or all types, whose lower-cased number contains the lower-cased search, in order and each as often as it occurs |
| OwnerDashboard.ShowAll | frontend/src/pages/OwnerDashboard.jsx:102-106 | example: filter "All" with an empty search shows every row |
| OwnerDashboard.TotalsAgree | frontend/src/pages/OwnerDashboard.jsx:57-59 | the available total equals the seat total minus the occupied total |
| ProfilePage.OwnedAsWritten | frontend/src/pages/Profile.jsx:61 | the as-written owner filter keeps a sub-list of the listing |
| ProfilePage.OwnedAsWrittenIsEmpty | frontend/src/pages/Profile.jsx:61 | with owners populated as objects, the as-written filter keeps no hostel |
| ProfilePage.OwnerFilterCounterexample | frontend/src/pages/Profile.jsx:61 | a one-hostel listing owned by the user yields nothing as written, but the hostel under the intended filter |
| ProfilePage.OwnedHostels | frontend/src/pages/Profile.jsx:61 | the owned hostels are exactly those whose owner id is the user's, in listing order, each kept as often as it occurs |
| ProfilePage.ComputeOwnerStats | frontend/src/pages/Profile.jsx:64-75 | the seat totals are sums over every room of the owned hostels, with missing counts as 0; available is total minus occupied; pending counts the Pending bookings |
| ProfilePage.LoadOwnerStats | frontend/src/pages/Profile.jsx:59-75 | the statistics are computed over the hostels the user owns |
| ProfilePage.SoundStatsInRange | frontend/src/pages/Profile.jsx:64-74 | when every room's counts are sound, occupied seats lie between 0 and the total |
| ProfilePage.OccupancyRate | frontend/src/pages/Profile.jsx:312-314 | the rate is 0 when there are no seats |
| ProfilePage.OccupancyRateInRange | frontend/src/pages/Profile.jsx:312-314 | with sound counts the rate lies between 0 and 100 |
| ProfilePage.ValidateForm | frontend/src/pages/Profile.jsx:97-101 | the form passes exactly when the trimmed name has at least 2 characters and the phone is valid; the name message has priority over the phone message |
| ProfilePage.AcceptedFormSendsBoth | frontend/src/pages/Profile.jsx:97-114 | example of the interplay with the server: an accepted form sends a non-empty name and phone, so the server overwrites both |
| ProfilePage.ProfileEditor.constructor | frontend/src/pages/Profile.jsx:10-19 | the editor starts out of edit mode with no error |
| ProfilePage.ProfileEditor.HandleSave | frontend/src/pages/Profile.jsx:103-122 | a request is sent exactly when the form passes, carrying name and phone; a refused form shows its message; success leaves edit mode and clears the error; a failure shows the server message or "Update failed" |
| Validation.SpacedPhoneAccepted | frontend/src/pages/Profile.jsx:99 | "+91 ddddd ddddd" is a valid phone |
| Validation.OneSpacePhoneAccepted | frontend/src/pages/Profile.jsx:99 | "+91 " followed by ten digits is a valid phone |
| Validation.PrefixedDigitsShape | frontend/src/pages/Profile.jsx:99 | "+91" followed by ten digits matches the phone pattern |
| Validation.LetterInPhoneRefused | frontend/src/pages/Profile.jsx:99 | a 13-character phone ending in a letter does not match the phone pattern |
| Validation.EmailShapeExtends | backend/src/pages/Profile.jsx:65 | the unanchored email pattern still matches with text added before or after |
| Validation.EmailNeedsAt | backend/src/pages/Profile.jsx:65 | text without "@" never matches the email pattern |
| MockHostelDetailsPage.Allocation | backend/src/pages/HostelDetails.jsx:33-38 | there are exactly four categories, priced base+2000, base, base-500 and base-1000, each with seats available |
| MockHostelDetailsPage.TotalAvailable | backend/src/pages/HostelDetails.jsx:40 | the available total is 28 for every hostel |
| MockHostelDetailsPage.MockBookingStore.constructor | backend/src/pages/HostelDetails.jsx:8 | the in-memory list starts as the stored bookings |
| MockHostelDetailsPage.MockBookingStore.Push | backend/src/pages/HostelDetails.jsx:91-92 | a pushed booking is appended and written back, so memory and storage agree |
| MockHostelDetailsPage.MockDetailsPage.constructor | backend/src/pages/HostelDetails.jsx:15-17 | the page starts on the "double" category, with no date and the modal closed |
| MockHostelDetailsPage.MockDetailsPage.HandleBookNow | backend/src/pages/HostelDetails.jsx:53-66 | a logged-out visitor is sent to login; the hostel is never fully booked, so a logged-in visitor opens the modal |
| MockHostelDetailsPage.MockDetailsPage.ConfirmBooking | backend/src/pages/HostelDetails.jsx:68-97 | without a date nothing happens; with a known category a Confirmed booking with that category's label and price is appended and stored, and the modal closes |
| MockProfilePage.ValidateForm | backend/src/pages/Profile.jsx:63-69 | the form passes exactly when name, email, phone and, for owners, the hostel name are valid; the first failing check decides the message |
| MockProfilePage.StudentIgnoresHostelName | backend/src/pages/Profile.jsx:67 | a student's result does not depend on the hostel name |
| MockProfilePage.OwnerRulesStricter | backend/src/pages/Profile.jsx:67 | data accepted for an owner is accepted for a student |
| MockProfilePage.StricterThanClientPage | backend/src/pages/Profile.jsx:63-69 | data accepted here is accepted by the client profile page's validator |
| MockProfilePage.SeedStudentValid | backend/src/pages/Profile.jsx:23-29 | example: the seed student data passes validation |
| MockProfilePage.PendingBookings | backend/src/pages/Profile.jsx:41 | with no bookings the count is the placeholder 3; otherwise it is the number of bookings that are not Completed |
| MockProfilePage.PendingAfterBooking | backend/src/pages/Profile.jsx:41 | a new booking raises a non-empty list's pending count by one unless it is Completed |
| MockProfilePage.AllCompletedNonePending | backend/src/pages/Profile.jsx:41 | when every booking is Completed none is pending |
| MockProfilePage.MockProfile.constructor | backend/src/pages/Profile.jsx:23-42 | the page starts on the seed student and owner data, with 3 pending bookings because the bookings list is still empty |
| MockProfilePage.MockProfile.HandleSaveStudent | backend/src/pages/Profile.jsx:71-80 | saving succeeds exactly when the student data passes; a failure shows the message; success clears the error and leaves edit mode |
| MockProfilePage.MockProfile.HandleSaveOwner | backend/src/pages/Profile.jsx:82-91 | saving succeeds exactly when the owner data passes the owner rules; a failure shows the message; success clears the error and leaves edit mode |
| Text.Trim | frontend/src/pages/Profile.jsx:98 | the result has no white space at either end and is a slice of the input that drops only white space |
| Text.RemoveSpacesAppend | frontend/src/pages/Profile.jsx:99 | removing white space distributes over concatenation |
| Text.SecondFieldOf | backend/middleware/authMiddleware.js:9 | the second space-separated field of "a t..." is t |
| Text.ReplaceFirst | frontend/src/pages/HostelDetails.jsx:40 | the result replaces the first occurrence of the pattern (no earlier position matches), or is the input when the pattern does not occur |
| Text.NatToStringRoundTrip | backend/middleware/upload.js:8 | the decimal digits of a time stamp read back as the same number |
| Text.ToNumber | backend/controllers/hostelController.js:44 | `Number` of a string is a number exactly when the trimmed text is empty or an optionally signed decimal integer; empty or blank text is 0 |
| Text.NumberOfDecimal | backend/controllers/hostelController.js:74 | `Number` reads back a decimal numeral and its negation as their values |
| Text.LeadingZeroValue | backend/controllers/hostelController.js:44 | a leading zero does not change the value of a run of digits |
| Text.NumberIgnoresPlusAndZero | backend/controllers/hostelController.js:44 | `Number` reads a run of digits as its value, and a leading "+" or a leading zero does not change what it reads |
| Text.NumberOfNegated | backend/controllers/hostelController.js:44 | `Number` reads a minus sign before a run of digits as the negated value |
| Text.BlankIsZero | backend/controllers/hostelController.js:44 | `Number` of text made only of white space is 0 |

## Left out

- Network, HTTP plumbing, `fetch`/axios and navigation: pages receive the server's reply as a parameter (`None` for success, the message otherwise), and a redirect is an outcome value.
- Toasts and `setTimeout`: only the toast text is kept in `App.Session`; the other pages' toasts are not modelled.
- `bcrypt`, `jwt.verify`, `Date.now`, `new Date()` and `Math.random` are parameters: a hash function, a token verifier, a clock and a draw in [0, 1).
- `userSchema.methods.matchPassword` (backend/models/User.js:57-59) is a bcrypt comparison with nothing to state beyond the hash function.
- Mongoose `populate` and `select`: a user's public view is `UserSchema.View`; the owner object in a listing appears only on the profile page, where it matters.
- HostelController.Listing: returns the matching ids as a set; MongoDB's result order is not modelled.
- HostelController.BuildFilter: the location parameter is matched as a case-insensitive substring; regular-expression metacharacters in it are not interpreted.
- The `maxPrice` parameter and the Hostels page's price filter are taken as numbers; a non-numeric string, which JavaScript compares as NaN, is not modelled.
- Text.Lower: lower-cases ASCII letters only; Unicode case mapping is not modelled.
- Lengths are counted in characters, not UTF-16 code units.
- Floating point: a mean rating is an exact real quotient; the occupancy rate is not rounded with `Math.round`; the 0.8 earnings factor and its `toLocaleString` formatting are not modelled.
- HomePage.SortByRating: states a permutation in descending order, not the stability of `Array.prototype.sort`.
- The frontend posts a `price` with each booking; the backend ignores it and the model does too.
- `JSON.parse` failures on corrupted local storage, and the `sampleHostels` fixture, which is a parameter.
- MockHostelDetailsPage.MockDetailsPage.ConfirmBooking: a selected key outside the four categories throws in the browser; it is modelled as an `UnknownCategory` outcome that changes nothing.
- The `available <= 0` branch of the mock booking page cannot be reached, because every category has seats; it is not a separate outcome.
- Concurrent requests: each controller call is one atomic step on the database, so the read-then-write race in `createBooking` is not modelled.
- backend/models/Review.js is not part of this model; reviews carry the fields `createReview` stores, and the 1-5 scale appears only as a precondition of `ReviewController.MeanWithinScale`.
- Multer's disk storage, destination directory and stream handling; only naming, filtering and the limits are modelled. Upload.ExtNameShape: `path.extname` is modelled for POSIX paths.
- Rendering (JSX markup, Bootstrap components, skeleton loaders) and the other tabs' fixed mock data on the owner dashboard.
- Text.ToNumber: reads signed decimal integers only; fractions, exponents, hexadecimal and `Infinity`, which `Number` accepts, are read as NaN, because prices and seat counts are whole numbers here.
- HostelSchema.NewHostel: refuses a room without `totalSeats` itself. The schema of backend/models/Hostel.js:15 would accept such a room, but createHostel and updateHostel then compute a NaN seat total, so the save fails with 500 in the source as in the model.
- HostelSchema.RoomTypesValid: a room's type and price are always present in the model. A room sent without a type, which the enum accepts, or without a price is not represented; in the source a later booking of a room without a price fails with 500, because backend/models/Booking.js:9 requires the price.
- HostelController.HostelById, HostelController.UpdateHostel, HostelController.DeleteHostel, BookingController.CreateBooking, BookingController.UpdateBookingStatus, ReviewController.CreateReview and ReviewController.HostelReviews take ids as numbers. A malformed id string, which Mongoose answers with a CastError and 500, is not represented.
- JSON values of the wrong type are not represented: list fields parse to lists of the right element type, and a status is a string or absent (`null` is not distinguished from absent).

## Findings

| source | as written | input that shows it | evidently intended | confidence | as-written member | corrected member |
|---|---|---|---|---|---|---|
| frontend/src/pages/Profile.jsx:61 | the owner filter compares `h.owner === user._id`, but `/hostels` populates `owner` as an object (backend/controllers/hostelController.js:12), so the comparison is never true | a listing with one hostel whose populated owner has the signed-in user's id | keep the hostels whose owner id equals the user's id, so the owner statistics count their rooms | not executed | ProfilePage.OwnedAsWrittenIsEmpty | ProfilePage.LoadOwnerStats |

