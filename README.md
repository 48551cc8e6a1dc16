# Hotel management app — screen logic in Dafny

This project models the screens of a React Native hotel management front end
(`app/`). The app has:

- a login screen and a registration screen, which keep a session record in
  the device's key-value store (AsyncStorage);
- an app root that picks the first screen from what the store holds;
- a home screen with logout;
- a booking screen that keeps its bookings in memory;
- three room screens (create and list, list and delete, edit), which call the
  hotel backend with the stored bearer token.

Each screen that keeps state is a class whose fields are the component's state
variables, and each of its handlers is a method that updates those fields and
acts on a `Platform.Device`. The home screen keeps no state, so its handlers
are module-level methods that act on the device only.
The device holds the key-value store (`storage`, a map from keys to stored
strings) and a `trace` of everything the user or the backend can observe, in
order:

- alerts shown;
- HTTP requests sent;
- store writes and removals;
- navigation actions.

The outcome of an HTTP call is a parameter of the handler that makes it. Either
the server answered with a status and a body, or the client threw, possibly
carrying the server's body. A handler's contract states its new state and the
events it appends for every outcome. The pure functions beside each class
state what those events are. The lemmas prove the properties the handlers
rely on:

- booking ids stay strictly increasing, and therefore unique, under add and
  delete;
- the image part of an update form is present exactly when a new image was
  picked;
- `parseInt` gets back any integer from its decimal text;
- logout always leads to the Login start route and keeps the session record;
- a login, which writes `'userInfo'`, never changes the start route, which is
  read from `'authToken'`;
- every route a handler navigates to is registered with the navigator: Home
  after a login or registration, Login after logout, and the fixed targets of
  the navigation buttons and of the room list's edit action.

Module layout, one file per source file plus shared modules:

- `Js` (`js.dfy`): truthiness, `||`, `trim`, `parseInt(s, 10)`, `String(n)`.
- `Session` (`session.dfy`): the store, the `'userInfo'` record and the start route.
- `Api` (`api.dfy`): requests, bodies, outcomes and how login and registration read an answer.
- `Platform` (`platform.dfy`): the device, its store and its event trace.
- `Bookings`, `Rooms`, `RoomList`, `EditRoom`, `Register`, `Login`, `Home`, `App`: one per screen file.

## Model

| member | source | states |
|---|---|---|
| Js.Truthy | app/EditRoomScreen.js:49 | `!v` is true exactly for undefined, null, false, 0, NaN and the empty string |
| Js.TrimStart | app/RegisterScreen.js:32 | the result is a suffix of the input, everything dropped is whitespace, and it does not start with whitespace |
| Js.TrimEnd | app/RegisterScreen.js:32 | the result is a prefix of the input, everything dropped is whitespace, and it does not end with whitespace |
| Js.Trim | app/RegisterScreen.js:43-45 | `trim()` gives the slice of the input between a whitespace-only prefix and a whitespace-only suffix, and that slice neither starts nor ends with whitespace |
| Js.TrimEmptyIffBlank | app/RegisterScreen.js:32 | `!s.trim()` holds exactly when every character of `s` is whitespace |
| Js.ParseInt10 | app/BookingScreen.js:47 | `parseInt(s, 10)` is a number or NaN, and NaN exactly when no digit follows the leading whitespace and sign |
| Js.ParseIntOfParts | app/BookingScreen.js:47 | for leading whitespace, an optional `+` or `-`, a non-empty digit string and a rest that does not start with a digit, `parseInt` gives the digits' value, negated after `-`; leading zeros and trailing text do not matter |
| Js.ParseIntOfDecimalString | app/BookingScreen.js:47 | `parseInt(String(n), 10) == n` for every integer `n`, negatives included |
| Js.ToStr | app/LoginScreen.js:36 | `${v}` keeps a string as it is, writes a number so that `parseInt` reads it back, and is empty only for the empty string |
| Session.GetItem | app/RoomScreen.js:22 | `getItem` returns the stored string exactly when the key is present, else null |
| Session.LoadUserInfo | app/RoomScreen.js:21-27 | nothing is loaded when the stored value is falsy; a record is loaded exactly when one is stored, and it is the stored one |
| Session.StartupRoute | app/index.jsx:22-41 | the initial route is Home or Login, and Home exactly when a truthy value is stored under `'authToken'` |
| Session.SessionWriteKeepsStartupRoute | app/LoginScreen.js:34 | writing the session record under `'userInfo'` never changes the start route |
| Session.SessionRecordAloneIsLoggedOut | app/index.jsx:24-26 | a store holding only the session record starts at Login |
| Session.LogoutStartsAtLogin | app/HomeScreen.js:7 | after `'authToken'` is removed the app starts at Login |
| Session.LogoutKeepsSessionRecord | app/HomeScreen.js:7 | removing `'authToken'` leaves the session record and every other key as they were |
| Session.SaveThenLoad | app/LoginScreen.js:34 | a session record written to the store is loaded back unchanged by the room screens |
| Api.ThrownMessage | app/EditRoomScreen.js:95 | `error.response?.data?.message` is undefined without a response and the body's message with one |
| Api.ListedRooms | app/RoomListScreen.js:37-41 | a list call yields rooms exactly on a status-200 answer whose body has `rooms`, and yields those rooms |
| Api.SessionReplyOf | app/LoginScreen.js:26-42 | a session is granted exactly on an answer with a truthy token and a user, and it holds that token, id and email; an answer without a truthy token is refused; a throw, or a token with no user, is an error |
| Platform.Device.GetItem | app/index.jsx:24 | reading a key returns what the store holds under it |
| Platform.Device.SetItem | app/LoginScreen.js:34 | `setItem` replaces the value under the key and records the write |
| Platform.Device.RemoveItem | app/HomeScreen.js:7 | `removeItem` drops the key, an absent key included, and records the removal |
| Bookings.SeedBookings | app/BookingScreen.js:5-27 | the screen starts with bookings 1, 2, 3 for rooms 101, 102, 103, with their names, dates and remote pictures |
| Bookings.FormComplete | app/BookingScreen.js:39 | the add handler goes on exactly when room id, customer name and date are all truthy |
| Bookings.ImageFor | app/BookingScreen.js:50 | the entry's picture is `{ uri }` of the picked image exactly when the image is truthy, and the bundled picture otherwise |
| Bookings.NextId | app/BookingScreen.js:44 | the new id is 1 for an empty list and otherwise the last id plus one; on increasing ids it exceeds every id present |
| Bookings.NewEntry | app/BookingScreen.js:45-51 | the new entry has the next id, `parseInt(roomId, 10)`, the typed name and date, and the picked image or the bundled picture |
| Bookings.WithoutId | app/BookingScreen.js:60 | the filter keeps exactly the entries whose id differs, and never lengthens the list |
| Bookings.IncreasingIdsAreUnique | app/BookingScreen.js:44 | strictly increasing ids are pairwise distinct |
| Bookings.AddKeepsIncreasing | app/BookingScreen.js:44-53 | appending the new entry keeps the ids strictly increasing and unique |
| Bookings.WithoutIdConcat | app/BookingScreen.js:60 | filtering distributes over concatenation, so kept entries keep their order |
| Bookings.WithoutAbsentId | app/BookingScreen.js:60 | deleting an id no entry has leaves the list unchanged |
| Bookings.WithoutIdKeepsIncreasing | app/BookingScreen.js:59-61 | deleting keeps the ids strictly increasing |
| Bookings.SeedIsIncreasing | app/BookingScreen.js:5-27 | the initial list has ids 1, 2, 3, strictly increasing |
| Bookings.DeleteTwoThenAdd | app/BookingScreen.js:44-61 | deleting booking 2 from the initial list leaves ids 1 and 3, and the next booking gets id 4 |
| Bookings.BookingScreen.constructor | app/BookingScreen.js:5-34 | the screen starts with the three initial bookings and an empty form |
| Bookings.BookingScreen.HandleAddBooking | app/BookingScreen.js:37-56 | a complete form appends one entry, clears the form and shows success; an incomplete one changes nothing and shows the validation alert; ids stay increasing and unique |
| Bookings.BookingScreen.HandleDeleteBooking | app/BookingScreen.js:59-63 | the list becomes the filtered list, ids stay increasing and unique, and the success alert is shown |
| Rooms.CanAddRoom | app/RoomScreen.js:77 | `addRoom` goes on exactly when name, price and the picked image are all truthy |
| Rooms.AddRoomParts | app/RoomScreen.js:82-92 | the create form has `name`, `type`, `capacity`, `price`, `status` as typed, then the `room_image` file `room.jpg`/`image/jpeg` |
| Rooms.FetchEvents | app/RoomScreen.js:37-58 | without a token only the authentication alert; with one, the list request with that bearer, then nothing, the "No Rooms Found" alert, or the error alert with the server's message or a fixed text |
| Rooms.AddReplyEvents | app/RoomScreen.js:102-113 | status 200 gives the success alert and then a refetch; any other status shows the server's message or a fixed text; a throw shows the fixed error |
| Rooms.NoTokenNoFetch | app/RoomScreen.js:39-43 | without a token the fetch sends no request |
| Rooms.FetchFailureMessage | app/RoomScreen.js:49-53 | a failed list fetch shows the server's message when it is truthy and the fixed text otherwise |
| Rooms.StoredTokenIgnoredAtMount | app/RoomScreen.js:19-34 | with a stored truthy token, the mount fetch (null token) sends nothing, while a fetch with the loaded token would send the list request |
| Rooms.RoomScreen.constructor | app/RoomScreen.js:9-16 | no rooms, an empty form with status `'available'`, no image, no token |
| Rooms.RoomScreen.LoadToken | app/RoomScreen.js:19-31 | the token becomes the stored record's token when one is loaded and is unchanged otherwise; nothing else changes |
| Rooms.RoomScreen.PickImage | app/RoomScreen.js:62-73 | a picked image replaces the current one, a cancelled picker changes nothing |
| Rooms.RoomScreen.FetchRooms | app/RoomScreen.js:37-58 | the trace grows by the fetch events; `rooms` is replaced only with a token and a status-200 answer holding rooms |
| Rooms.RoomScreen.MountAsWritten | app/RoomScreen.js:19-34 | the mount fetch reads the first render's null token, so it always shows the authentication alert and sends nothing; the token is loaded afterwards; rooms and form fields are unchanged |
| Rooms.RoomScreen.Mount | app/RoomScreen.js:19-34 | the intended mount: load the token, then fetch with it; a stored truthy token leads to a list request carrying it; the form fields are unchanged |
| Rooms.RoomScreen.ClearForm | app/RoomScreen.js:117-124 | the six form fields are reset; the room list and token stay |
| Rooms.RoomScreen.AddRoom | app/RoomScreen.js:76-114 | an invalid form only alerts; a valid one sends the form with the bearer and then the reply events; status 200 clears the form and takes the refetched rooms; any other outcome keeps the form |
| Rooms.RoomScreen.HandleAddReply | app/RoomScreen.js:102-113 | the reply events are appended; status 200 clears the form and refetches, any other outcome keeps the state |
| RoomList.ListOutcomeEvents | app/RoomListScreen.js:37-44 | rooms delivered means no event; another answer shows "No Rooms Found" with the server's message or a fixed text; a throw shows the fixed error |
| RoomList.ThrownFetchMessagesDiffer | app/RoomListScreen.js:42-44 | a thrown list call shows only the fixed text on this screen, while the room management screen shows the server's truthy message |
| RoomList.RoomListScreen.constructor | app/RoomListScreen.js:8-10 | no rooms, no token, not fetching |
| RoomList.RoomListScreen.StartFetch | app/RoomListScreen.js:30-35 | `isFetching` is raised and the list request is sent with the given token |
| RoomList.RoomListScreen.FinishFetch | app/RoomListScreen.js:36-47 | `isFetching` is lowered whatever the outcome; `rooms` is replaced only by delivered rooms |
| RoomList.RoomListScreen.FetchRooms | app/RoomListScreen.js:30-48 | one request, then the outcome's events; `isFetching` ends false; the token and the store are unchanged |
| RoomList.RoomListScreen.Mount | app/RoomListScreen.js:12-28 | a stored record sets the token and fetches with it; no record does nothing; an unreadable one alerts |
| RoomList.RoomListScreen.Refresh | app/RoomListScreen.js:78-79 | pull-to-refresh fetches with the screen's token |
| RoomList.RoomListScreen.HandleDelete | app/RoomListScreen.js:50-66 | the delete request is sent first; status 200 alerts and refetches with the same token; otherwise one alert and the rooms stay |
| RoomList.RoomListScreen.HandleEdit | app/RoomListScreen.js:68-70 | navigates to the edit screen with the room, nothing else |
| EditRoom.FieldsValid | app/EditRoomScreen.js:49 | `handleUpdate` goes on exactly when neither name nor price is a falsy value |
| EditRoom.UpdateParts | app/EditRoomScreen.js:59-72 | the update form has the five fields in order, with capacity and price defaulting to 0 when falsy, and a sixth `room_image` part exactly when an image was picked |
| EditRoom.ValidPriceSentAsEntered | app/EditRoomScreen.js:63 | once the fields are valid, the price is sent as entered: its `\|\| 0` never applies |
| EditRoom.ImagePartIffPicked | app/EditRoomScreen.js:66-72 | the form names `room_image` exactly when a new image was picked |
| EditRoom.UpdateReplyEvents | app/EditRoomScreen.js:85-97 | status 200 alerts and goes back; another status shows the server's message or a fixed text; a throw shows the thrown body's message or a fixed text |
| EditRoom.OnlySuccessGoesBack | app/EditRoomScreen.js:85-97 | the screen is left exactly on a status-200 answer |
| EditRoom.HandleUpdateReply | app/EditRoomScreen.js:85-97 | the trace grows by the reply events and the store is unchanged |
| EditRoom.EditRoomScreen.constructor | app/EditRoomScreen.js:9-16 | the fields start from the room, with `''` and `'available'` for falsy ones, so the status is always truthy; no image and no token |
| EditRoom.EditRoomScreen.LoadToken | app/EditRoomScreen.js:18-33 | a stored record sets the token; an unreadable one alerts; nothing else changes |
| EditRoom.EditRoomScreen.PickImage | app/EditRoomScreen.js:35-46 | a picked image becomes the new image; a cancelled picker changes nothing |
| EditRoom.EditRoomScreen.HandleUpdate | app/EditRoomScreen.js:48-98 | a missing name or price, then a missing token, each alert with no request; otherwise the form is put to `updateRoom/<id>` with the bearer, then the reply events |
| Register.ValidateRegistration | app/RegisterScreen.js:32-40 | accepted exactly when all four fields have a non-whitespace character and the passwords are equal; a blank field reports "All fields are required."; otherwise a mismatch reports "Passwords do not match." |
| Register.BlankReportedBeforeMismatch | app/RegisterScreen.js:32-40 | example: a blank field is reported even when the passwords also differ |
| Register.PasswordsComparedUntrimmed | app/RegisterScreen.js:37-40 | example: passwords differing only by a trailing space are a mismatch |
| Register.TrailingSpaceTrimmed | app/RegisterScreen.js:45 | example: a typed `"pw "` is sent in the form's `password` part as `"pw"` |
| Register.RegisterParts | app/RegisterScreen.js:42-45 | the form has `username`, `email`, `password`, each trimmed, and no image |
| Register.ReplyEvents | app/RegisterScreen.js:64-86 | granted: store the record, greet with the email, go Home; refused: the failure alert and then the generic error; error: the generic error |
| Register.RefusedShowsTwoAlerts | app/RegisterScreen.js:76-81 | an answer without a token shows two alerts and neither writes nor navigates |
| Register.HandleReply | app/RegisterScreen.js:64-86 | the reply events are appended; only a granted session writes the store |
| Register.RegisterScreen.constructor | app/RegisterScreen.js:9-13 | empty fields and no image |
| Register.RegisterScreen.PickImage | app/RegisterScreen.js:17-28 | a picked image is kept on screen only |
| Register.RegisterScreen.HandleRegister | app/RegisterScreen.js:31-87 | a rejected form alerts and sends nothing; an accepted one sends the trimmed form, then the reply events; only a granted session writes the store |
| Register.RegisterScreen.NavigateToLogin | app/RegisterScreen.js:88-90 | navigates to Login |
| Login.LoginBody | app/LoginScreen.js:13-24 | the JSON body is `email` and `password` as typed |
| Login.ReplyEvents | app/LoginScreen.js:26-47 | granted: store the record, greet with the email, go Home; refused: "Invalid credentials"; error: the generic error |
| Login.OnlyGrantedWritesAndLeaves | app/LoginScreen.js:26-40 | the store is written, and the screen is left, exactly when the session is granted |
| Login.TokenWithoutUserIsError | app/LoginScreen.js:26-42 | a token with no user object ends in the generic error |
| Login.LoginDoesNotChangeStartup | app/LoginScreen.js:34 | a login's record reads back unchanged, yet the next start lands where it did before |
| Login.HandleReply | app/LoginScreen.js:26-47 | the reply events are appended; only a granted session writes the store |
| Login.LoginScreen.constructor | app/LoginScreen.js:8-9 | empty email and password |
| Login.LoginScreen.HandleLogin | app/LoginScreen.js:11-48 | the credentials are posted as JSON, then the reply events; the store changes only on a grant; the start route never changes |
| Login.LoginScreen.NavigateToRegister | app/LoginScreen.js:50-52 | navigates to RegisterScreen |
| Home.LogoutEvents | app/HomeScreen.js:6-10 | remove `'authToken'`, alert, then replace the screen with Login |
| Home.LogoutRemovesBeforeLeaving | app/HomeScreen.js:6-10 | the only store change is the first event and the only navigation is the last |
| Home.HandleLogout | app/HomeScreen.js:6-10 | the store loses `'authToken'` only; the next start is Login; the session record is kept |
| Home.NavigateToProfileUpdate | app/HomeScreen.js:12-14 | navigates to ProfileUpdate; the store is unchanged |
| Home.NavigateToHotelScreen | app/HomeScreen.js:16-18 | navigates to HotelScreen; the store is unchanged |
| App.StartupRouteRegistered | app/index.jsx:41 | the initial route is always a registered screen |
| App.NavigationTargetsRegistered | app/index.jsx:46-100 | every route the login, registration and logout handlers lead to, the edit screen's reply and the fixed targets of `navigateToRegister`, `navigateToLogin`, `navigateToProfileUpdate`, `navigateToHotelScreen` and `handleEdit` are registered |
| App.AppRoot.constructor | app/index.jsx:19-20 | not logged in, loading |
| App.AppRoot.Render | app/index.jsx:33-41 | the splash exactly while loading, then the navigator whose initial route is Home exactly when logged in |
| App.AppRoot.CheckLoginStatus | app/index.jsx:23-29 | a truthy `'authToken'` sets `isLoggedIn`, a falsy one leaves it; loading ends either way |
| App.Launch | app/index.jsx:19-41 | mounting the root and running its check shows the navigator on the start route the store decides |

## Findings

| source | as written | input that shows it | evidently intended | confidence | as-written member | corrected member |
|---|---|---|---|---|---|---|
| app/RoomScreen.js:32-33 | the mount effect starts `loadToken()` and then calls `fetchRooms()`, which reads the `token` state of the first render; that value is always null | any mount, even with a session record holding a truthy token in the store (`Rooms.StoredTokenIgnoredAtMount`) | fetch with the token just loaded, as `RoomListScreen` does with `fetchRooms(userInfo.token)` | not executed; high | Rooms.RoomScreen.MountAsWritten | Rooms.RoomScreen.Mount |

## Left out

- Rendering (JSX, styles, lists, images) and the text-field setters (`onChangeText`) are not modelled. The form fields are class fields that a caller sets directly.
- `app/HotelScreen.js`, `ProfileUpdateScreen`, `SplashScreen` and `constants/Config` are not part of this model. Routes lead to them by name only.
- The HTTP transport is not modelled: base URL, headers other than the bearer token, JSON and multipart encoding, axios's rule for which statuses throw. Each call's outcome is a handler parameter.
- Console logging is left out. It has no effect on state.
- Storage I/O failures are not modelled. `JSON.stringify`/`JSON.parse` of the session record are taken as exact inverses, and a non-record string under `'userInfo'` counts as a parse failure.
- Concurrency between the awaited parts of handlers is not modelled. Each handler runs to completion with its outcomes given, so a second tap during an outstanding request, or a refetch finishing after later user actions, is not captured. `RoomList.RoomListScreen` splits `fetchRooms` at its `await` so that the in-flight `isFetching` state is visible.
- Bookings.SeedBookings: the three initial remote picture URLs are named (`SeedPictureUrl(1..3)`) rather than spelled out.
- Bookings.NextId: ids are unbounded integers; the loss of precision of JavaScript numbers above 2^53 is not modelled.
- Js.ParseInt10: numbers are unbounded integers. `parseInt`'s loss of precision above 2^53 and its `-0` for `"-0"` are not modelled.
- Js.DecimalString: `String(n)` switches to exponent notation at 10^21 in magnitude; this is not modelled.
- Register.RegisterScreen.PickImage: the chosen profile picture is never sent (the upload code is commented out in the source), so it only changes screen state.
- Rooms.RoomScreen.AddRoom: `fetchRooms()` and `clearForm()` run in that order without awaiting the refetch. The model completes the refetch first; the final state and the order of events are the same.
