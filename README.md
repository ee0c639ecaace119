# Campus resource booking client, modelled in Dafny

This project models the client-side logic of a campus resource booking web
client (a React single-page application). It covers the decisions and data
shaping that sit inside the components:

- the session store, whose key/value browser storage is a `map<string, string>`;
- the route guard and the route table;
- the booking dialog's admission checks, payload and error messages;
- the local update of the booking list after a cancellation;
- the registration and login form validators, including the e-mail and
  phone patterns written out as string predicates;
- the catalog's choice of endpoint and query parameters, and its filter
  checkboxes;
- the administrator's list search, list extraction and optimistic delete;
- the create and edit forms for a resource, including the comma-separated
  features parser and its load-then-save round trip.

Every HTTP call is an input: the reply body or the error, as
`Client.Outcome<T>`. Toasts, navigations and requests are recorded in order
as `Client.Event`s. Components that update their state step by step are
classes whose methods change fields. Components that only compute values
are functions. The JavaScript built-ins the code relies on are modelled on
ASCII text in module `Js`. These are `trim`, `toLowerCase`, `includes`,
`split` on one character, `join`, `filter`, truthiness and `||`, and
`Number()`/`isNaN` on a string.

Modules, one per source file:

| module | file |
|---|---|
| `Client` | the shapes of replies, errors and effects shared by every page |
| `Js` | the JavaScript built-ins listed above |
| `AuthContext` | src/context/AuthContext.jsx |
| `ProtectedRoute` | src/components/common/ProtectedRoute.jsx |
| `App` | src/App.jsx |
| `BookingModal` | src/components/booking/BookingModal.jsx |
| `Dashboard` | src/pages/Dashboard.jsx |
| `Signup` | src/pages/Signup.jsx |
| `Login` | src/pages/Login.jsx |
| `Resources` | src/pages/Resources.jsx |
| `AdminPanel` | src/pages/Admin/AdminPanel.jsx |
| `AddResource` | src/pages/Admin/AddResource.jsx |
| `UpdateResource` | src/pages/Admin/UpdateResource.jsx |

## Model

| member | source | states |
|---|---|---|
| AuthContext.FlagOrFalse | src/context/AuthContext.jsx:44-45 | a permission flag is true exactly when the server sent it as true; a missing flag is false |
| AuthContext.ToUserData | src/context/AuthContext.jsx:33-47 | the stored record renames `_id`, `full_name` and `is_active`, copies the other fields, and grants each permission exactly when the server sent it as true (missing permissions object included) |
| AuthContext.StartupRestoresOnlyWithBoth | src/context/AuthContext.jsx:12-26 | the startup check changes the user only when both "user" and "token" hold non-empty text, and then to what the stored user parses to; it changes the store only when that parse fails |
| AuthContext.StartupDropsUnparsable | src/context/AuthContext.jsx:17-23 | a stored user that does not parse removes both session keys, keeps every other key with its value, and leaves the user unset |
| AuthContext.LoggedOut | src/context/AuthContext.jsx:67-69 | logout's store has exactly the old keys minus "token" and "user", each with its old value |
| AuthContext.LogoutIdempotent | src/context/AuthContext.jsx:67-73 | logging out twice leaves the same store as logging out once |
| AuthContext.LoginThenRestart | src/context/AuthContext.jsx:49-53 | after a successful login with a non-empty token, a fresh start on the same store restores the same user, when the serialised record parses back to itself |
| AuthContext.EmptyTokenNotRestored | src/context/AuthContext.jsx:14-16 | a login whose token is empty is not restored at the next start, since an empty token is falsy |
| AuthContext.AuthProvider.constructor | src/context/AuthContext.jsx:8-9 | the provider starts with no user and loading |
| AuthContext.AuthProvider.RestoreSession | src/context/AuthContext.jsx:12-26 | the startup effect leaves store and user as the startup check says and stops loading |
| AuthContext.AuthProvider.Login | src/context/AuthContext.jsx:29-64 | login reports true exactly for a reply carrying a user; then it stores the token and the serialised record, sets the user and toasts the welcome; otherwise it toasts the server's message or "Login failed" and changes neither store nor user |
| AuthContext.AuthProvider.Logout | src/context/AuthContext.jsx:67-73 | logout removes both session keys, forgets the user, toasts and assigns "/login" |
| ProtectedRoute.LoadingWins | src/components/common/ProtectedRoute.jsx:8-10 | while the session loads the guard shows the loading view, whatever the user and roles |
| ProtectedRoute.NoUserGoesToLogin | src/components/common/ProtectedRoute.jsx:13-16 | with no user the guard redirects to /login carrying the requested location |
| ProtectedRoute.WrongRoleGoesHome | src/components/common/ProtectedRoute.jsx:20-22 | a user whose role is not among non-empty allowed roles is redirected home |
| ProtectedRoute.DefaultRolesAdmitAnyUser | src/components/common/ProtectedRoute.jsx:4 | with the default empty role list any logged-in user gets the page |
| ProtectedRoute.RendersIff | src/components/common/ProtectedRoute.jsx:8-25 | the page renders exactly when not loading, a user is present, and the roles are unrestricted or include the user's role |
| ProtectedRoute.LoginCheckFirst | src/components/common/ProtectedRoute.jsx:13-22 | a missing user is never redirected home: the login check precedes the role check |
| App.AdminPathsAdminOnly | src/App.jsx:57-73 | exactly /admin, /admin/add-resource and /admin/edit-resource/:id are guarded with the role list ["Admin"] |
| App.AnalyticsRoles | src/App.jsx:50-54 | /analytics is guarded with Admin, Faculty, Student and Staff, and it is the only path guarded with that list |
| App.DashboardNeedsLoginOnly | src/App.jsx:44-48 | /dashboard is guarded with no role list, so any logged-in user sees it |
| App.PublicPathsUnguarded | src/App.jsx:33-40 | exactly /, /login, /signup, /resources and /resources/:id are unguarded, and they show their page to anyone |
| App.UnknownPathsGoHome | src/App.jsx:76 | a path is unlisted exactly when the catch-all answers it with a replacing redirect to "/" |
| App.NonAdminKeptOutOfAdmin | src/App.jsx:57-73 | a logged-in user who is not an Admin is redirected home from every admin page |
| App.GuardedPathsNeedLogin | src/App.jsx:44-73 | without a user every guarded path redirects to /login and carries the requested location |
| BookingModal.ParseTime | src/components/booking/BookingModal.jsx:60-61 | a time that parses is a minute of the day, below 24 * 60 |
| BookingModal.NoUserRefusedFirst | src/components/booking/BookingModal.jsx:53-56 | without a user the request is refused before the times are looked at |
| BookingModal.RangeCheck | src/components/booking/BookingModal.jsx:60-66 | with a user and two valid times the request is refused exactly when the start is not before the end; equal times are refused |
| BookingModal.RangeExamples | src/components/booking/BookingModal.jsx:60-66 | "09:00" to "10:00" is admitted and "10:00" to "09:30" is refused |
| BookingModal.BuildPayload | src/components/booking/BookingModal.jsx:72-82 | the payload carries the generated id, the resource id, the date, the purpose, and start and end built from the date with each time |
| BookingModal.EmptyTimeAdmittedButNotConverted | src/components/booking/BookingModal.jsx:60-80 | an empty start time passes the range check, because a comparison with an invalid date is false, and it is the date conversion that fails |
| BookingModal.EmptyDateNotConverted | src/components/booking/BookingModal.jsx:72-80 | an empty date never converts, whatever the times |
| BookingModal.DateAndTimesConvert | src/components/booking/BookingModal.jsx:72-80 | a date and two times of the form the inputs give ("2024-05-01", "09:00", "10:00") convert |
| BookingModal.ClassifyError | src/components/booking/BookingModal.jsx:93-98 | a 409 shows the overlap message whatever the server said; any other failure shows the server's message or "Booking Failed"; the message is never empty |
| BookingModal.OverlapOnlyFor409 | src/components/booking/BookingModal.jsx:93-98 | no failure other than a 409 shows the overlap message, unless the server's own message is that text |
| BookingModal.BusySources | src/components/booking/BookingModal.jsx:21-41 | the busy list only ever becomes empty, stays as it was, or becomes the list of a reply reporting success; a new non-empty list needs a date, a resource and such a reply |
| BookingModal.Modal.constructor | src/components/booking/BookingModal.jsx:11-18 | the dialog starts with an empty form and no busy slots, not loading |
| BookingModal.Modal.Close | src/components/booking/BookingModal.jsx:104-111 | closing clears the four fields and the busy list, then tells the parent |
| BookingModal.Modal.RefreshAvailability | src/components/booking/BookingModal.jsx:21-42 | the availability effect leaves the busy list as the busy-list function gives it; it requests the availability path only when a date and a resource are set, and touches no form field |
| BookingModal.Modal.Submit | src/components/booking/BookingModal.jsx:50-102 | a refused request only toasts its reason and changes no field; an admitted one whose date or times do not convert to a date sends nothing and toasts "Booking Failed"; otherwise the payload is sent, a reply reporting success toasts and closes the dialog, and a failure toasts the classified message |
| Dashboard.MarkCancelled | src/pages/Dashboard.jsx:54-56 | the local update keeps length, order and every field but the status; a row ends Cancelled exactly when its id is the cancelled one or it already was; other rows are unchanged |
| Dashboard.NothingLeftToCancel | src/pages/Dashboard.jsx:168 | after the update no row with the cancelled id is offered the Cancel control again |
| Dashboard.MarkCancelledIdempotent | src/pages/Dashboard.jsx:54-56 | applying the update twice gives the list that applying it once gives |
| Dashboard.MarkCancelledCommutes | src/pages/Dashboard.jsx:54-56 | cancelling two bookings locally gives the same list in either order |
| Dashboard.Page.constructor | src/pages/Dashboard.jsx:11-17 | the page starts with no bookings, loading, and no cancel in progress |
| Dashboard.Page.FetchMyBookings | src/pages/Dashboard.jsx:20-34 | without a user nothing happens; otherwise the user's bookings are requested, the list is replaced only by a reply reporting success, a failure toasts, and loading ends |
| Dashboard.Page.OpenCancelModal | src/pages/Dashboard.jsx:41-44 | opening the modal selects the booking and changes nothing else |
| Dashboard.Page.ConfirmCancel | src/pages/Dashboard.jsx:46-65 | with no selection nothing happens; otherwise the cancel is sent, a reply reporting success marks the booking Cancelled locally and closes the modal, and a failure toasts the server's message or the fallback |
| Signup.EmailIff | src/pages/Signup.jsx:56 | the e-mail pattern accepts exactly the strings with no white space, exactly one '@' not in front, and a '.' after the '@' that is neither the first nor the last character of that part |
| Signup.EmailExamples | src/pages/Signup.jsx:56-60 | "ana@uni.edu" is accepted; a missing dot, a doubled '@', an empty local part, a dot straight after the @ and an address with a space are refused |
| Signup.BlankBatchAcceptedAsWritten | src/pages/Signup.jsx:63 | as written, four blanks pass the batch check (`Number("    ")` is 0) though they are no year |
| Signup.SignedBatchAcceptedAsWritten | src/pages/Signup.jsx:63 | as written, "-202" passes the batch check though it is no four-digit year |
| Signup.ExponentBatchAcceptedAsWritten | src/pages/Signup.jsx:63 | as written, "1e10" passes the batch check though it is no four-digit year |
| Signup.BatchCorrectedRefinesAsWritten | src/pages/Signup.jsx:62-66 | every batch the corrected four-digit check accepts also passes the check as written |
| Signup.YearBatchAccepted | src/pages/Signup.jsx:64 | both checks accept "2024", the year the message gives |
| Signup.LetterBatchRejected | src/pages/Signup.jsx:63 | both checks refuse "20a4" |
| Signup.ValidateForm | src/pages/Signup.jsx:35-69 | the form is accepted exactly when the passwords match, the password has at least 6 characters, the phone is 10 digits, the e-mail matches, and the batch is a four-digit year |
| Signup.FirstFailureDecides | src/pages/Signup.jsx:35-69 | each message is given exactly when every earlier check passed and its own failed |
| Signup.ValidateFormAsWritten | src/pages/Signup.jsx:35-69 | as written, the form is accepted exactly when the passwords match, the password has at least 6 characters, the phone is 10 digits, the e-mail matches, and the batch has 4 characters that `isNaN` does not reject |
| Signup.ValidatorsDifferOnlyOnBatch | src/pages/Signup.jsx:62-66 | the corrected and the as-written validator give the same verdict, except where the batch passes `isNaN` but is no four-digit year, and there the corrected one gives the batch message |
| Signup.PasswordLengthBoundary | src/pages/Signup.jsx:43 | with matching passwords, five characters are refused for length and six are not |
| Signup.FindDepartment | src/pages/Signup.jsx:80 | `find` gives a department exactly when one has the code, and then a listed one with that code |
| Signup.FindFirst | src/pages/Signup.jsx:80 | `find` gives the first department carrying the code |
| Signup.FindListedDepartment | src/pages/Signup.jsx:6-12 | every listed code is found with its own name, since the five codes are pairwise different |
| Signup.BuildPayload | src/pages/Signup.jsx:80-94 | the payload exists exactly when the code is listed; it copies roll number, name, e-mail, password, phone and role, and carries the department's listed name with the code and batch |
| Signup.RegisterErrorMessage | src/pages/Signup.jsx:103-108 | the message shown for a failed registration is never empty, and error code 11000 always gets the duplicate-account text whatever the server's message |
| Signup.DuplicateTextOnlyForDuplicateKey | src/pages/Signup.jsx:103-108 | the duplicate-account text appears only for a server error with code 11000, or one whose own message is that text |
| Signup.Submit | src/pages/Signup.jsx:71-112 | an invalid form only toasts its message; a request is sent exactly when the form is valid and the department is listed; a reply toasts success and goes to /login; a failure toasts the registration error message; an unlisted department toasts "Registration failed" without a request |
| Login.ValidateForm | src/pages/Login.jsx:17-32 | the form is accepted exactly when neither field trims to "" and the e-mail matches the registration form's pattern; a refusal carries one of the two messages |
| Login.BlankPasswordRefused | src/pages/Login.jsx:19-22 | a password made only of white space is refused as blank, whatever the e-mail |
| Login.BlankCheckFirst | src/pages/Login.jsx:17-29 | the e-mail message is given exactly when neither field is blank and the e-mail does not match |
| Login.Page.Submit | src/pages/Login.jsx:34-52 | `login` runs exactly when the form is valid; an invalid form only toasts; a successful login clears both fields, writes the token and the serialised user to storage, sets the user, records the POST to /auth/login and the "Welcome back, {fullName}!" toast, and goes to /dashboard; a failed one leaves the form, storage and the user as they were and records the POST and the server's message or "Login failed"; the auth loading flag is never touched |
| Login.Page.constructor | src/pages/Login.jsx:7-10 | the form opens with both fields empty and not loading |
| Resources.SearchWins | src/pages/Resources.jsx:30-33 | a search term that is not all white space selects /resources/search, whatever the filters and sort, and is sent untrimmed as `query` |
| Resources.FilterParamsExact | src/pages/Resources.jsx:35-41 | without a search, a category, building or positive minimum capacity selects /resources/filter; `type`, `building`, `minCapacity` and `status` are each sent exactly when their filter is set, carrying the first selected value, and nothing else is sent |
| Resources.FilterBranch | src/pages/Resources.jsx:35-41 | without a search, filters select the filter endpoint with the filter parameters |
| Resources.SortBranch | src/pages/Resources.jsx:43-48 | with neither a search nor a filter, a sort option selects /resources/sort with the option split at '-' |
| Resources.SortParamsPair | src/pages/Resources.jsx:45-47 | an option "field-order" is sent as `by` = field and `order` = order |
| Resources.SortSplitsOption | src/pages/Resources.jsx:43-48 | with neither a search nor a filter, "field-order" becomes exactly the sort request with its two halves |
| Resources.SortByNameAscending | src/pages/Resources.jsx:134 | the menu's "name-asc" asks for `by` = "name", `order` = "asc" |
| Resources.DefaultQuery | src/pages/Resources.jsx:26-27 | with no search, filter or sort, the plain /resources list is fetched without parameters |
| Resources.FeaturesIgnored | src/pages/Resources.jsx:29-48 | the amenity checkboxes never change the request |
| Resources.StatusOnlyWhenSet | src/pages/Resources.jsx:40 | `status` is never sent unless the filters carry one |
| Resources.ValidPageNeverSendsStatus | src/pages/Resources.jsx:14-19 | since no control sets a status, a page whose filters are as the page keeps them never sends `status` |
| Resources.ResourcesAfter | src/pages/Resources.jsx:51-61 | the list shown is non-empty only for a successful reply carrying those resources, and is exactly the resources of a successful reply carrying some |
| Resources.Toggle | src/pages/Resources.jsx:81-83 | a value in the list loses every copy, and every other value keeps exactly as many copies as it had; an absent value is appended |
| Resources.ToggleOffKeepsOrder | src/pages/Resources.jsx:82 | removing a value keeps the other entries in their order |
| Resources.ToggleTwice | src/pages/Resources.jsx:81-83 | checking and unchecking an absent value gives the list back |
| Resources.ToggleFilter | src/pages/Resources.jsx:77-86 | the toggle succeeds exactly when the list under the key exists; the toggled list replaces it and every other key is kept |
| Resources.ClearedFiltersBreakAmenities | src/pages/Resources.jsx:229 | as written, "Clear Filters" drops `features`, so the next amenity checkbox fails |
| Resources.ToggleKeepsComplete | src/pages/Resources.jsx:14-19 | filters holding every toggled list stay that way under every toggle, and every toggle succeeds |
| Resources.Page.BuildQuery | src/pages/Resources.jsx:26-48 | the endpoint and parameters built branch by branch equal the selected request |
| Resources.Page.FetchResources | src/pages/Resources.jsx:23-65 | a fetch asks the selected endpoint and keeps what a successful reply carries, nothing otherwise, leaving search, filters and sort alone |
| Resources.Page.ToggleCheckbox | src/pages/Resources.jsx:77-86 | on filters as the page keeps them, a checkbox applies the toggle and keeps every list present |
| Resources.Page.SetMinCapacity | src/pages/Resources.jsx:170 | the slider sets the minimum capacity and keeps every other filter |
| Resources.Page.ClearFilters | src/pages/Resources.jsx:228-232 | corrected "Clear Filters": back to the initial filters, with the amenity list kept empty, an empty search and the default sort |
| Resources.Page.constructor | src/pages/Resources.jsx:7-19 | the page opens loading, with no resources, no search, the default sort and the initial filters, amenity list included |
| AdminPanel.LowerOrEmpty | src/pages/Admin/AdminPanel.jsx:87-91 | the field as compared is empty exactly when it is missing or empty, so only the empty term can match it |
| AdminPanel.LowerOrEmptyIsLower | src/pages/Admin/AdminPanel.jsx:87-91 | the field as compared holds no capital letter, and lower-casing it again changes nothing |
| AdminPanel.FilteredData | src/pages/Admin/AdminPanel.jsx:82-93 | an empty term shows the list as it is; otherwise each matching row is shown as many times as it occurs in the list and no other row is shown |
| AdminPanel.FilteredInOrder | src/pages/Admin/AdminPanel.jsx:82 | the rows shown are rows of the list in the list's order |
| AdminPanel.ResourceRowKeptIff | src/pages/Admin/AdminPanel.jsx:86-88 | on the resources tab a row is shown exactly when the lower-cased term occurs in its lower-cased name or id |
| AdminPanel.BookingRowKeptIff | src/pages/Admin/AdminPanel.jsx:89-91 | on the bookings tab a row is shown exactly when the lower-cased term occurs in the lower-cased resource or user name of the booking |
| AdminPanel.RemoveId | src/pages/Admin/AdminPanel.jsx:67 | every copy of a row carrying the deleted id is removed, and every other row keeps exactly as many copies as it had |
| AdminPanel.RemoveIdKeepsRest | src/pages/Admin/AdminPanel.jsx:67 | the rows that stay keep their order, and a list without the id is left as it was |
| AdminPanel.ResourcesList | src/pages/Admin/AdminPanel.jsx:28-31 | reading the list fails exactly for a null or undefined body; an array body is the list; an object's `resources` array is the list; every other readable body gives the empty list |
| AdminPanel.BookingsList | src/pages/Admin/AdminPanel.jsx:33-35 | an object's `bookings` array is the list; a falsy `bookings`, or a body that is not an object, gives the empty list |
| AdminPanel.Panel.constructor | src/pages/Admin/AdminPanel.jsx:9-17 | the panel opens on the resources tab, loading, with no rows, no search and no deletion pending |
| AdminPanel.Panel.FetchData | src/pages/Admin/AdminPanel.jsx:24-43 | the active tab's list is requested; the list read from the reply replaces the rows; a failed call or an unreadable body toasts and keeps them; loading ends and the rest of the state is kept |
| AdminPanel.Panel.OpenDeleteModal | src/pages/Admin/AdminPanel.jsx:48-51 | the id is selected and the modal opens; nothing else changes |
| AdminPanel.Panel.ConfirmDelete | src/pages/Admin/AdminPanel.jsx:54-79 | nothing happens without a selected id; otherwise the DELETE is sent, a reply with status 200 or success removes every row with that id and closes the modal, any other outcome keeps rows and modal, a failure toasts the server's message or the fallback, and the selection is cleared |
| AddResource.TrimmedPieces | src/pages/Admin/AddResource.jsx:47 | the trimmed pieces of a split at commas have no blank at either end and no comma |
| AddResource.KeptWellFormed | src/pages/Admin/AddResource.jsx:47 | what `.filter(f => f)` keeps of such pieces is non-empty, trimmed and comma-free |
| AddResource.ParseFeatures | src/pages/Admin/AddResource.jsx:47 | every feature parsed is non-empty, has no blank at either end and contains no comma |
| AddResource.FeaturesInOrder | src/pages/Admin/AddResource.jsx:47 | the features keep the order in which they were typed |
| AddResource.FeatureKeptIff | src/pages/Admin/AddResource.jsx:47 | a string is a parsed feature exactly when it is non-empty and some comma-separated piece trims to it |
| AddResource.SplitJoinBlanked | src/pages/Admin/UpdateResource.jsx:43 | splitting a ", "-joined list at commas gives its first entry, then each other entry behind the blank that followed its comma |
| AddResource.TrimBlanked | src/pages/Admin/AddResource.jsx:47 | trimming blank-prefixed trimmed entries gives the entries back |
| AddResource.TrimEachCons | src/pages/Admin/AddResource.jsx:47 | trimming a list trims its head and then its tail |
| AddResource.TrimSplitJoin | src/pages/Admin/AddResource.jsx:47 | trimming the pieces of a ", "-joined list of trimmed comma-free entries gives the list back |
| AddResource.ParseJoin | src/pages/Admin/AddResource.jsx:47 | parsing a ", "-joined list of well-formed features gives exactly that list back, the empty list included |
| AddResource.BuildPayload | src/pages/Admin/AddResource.jsx:35-51 | the payload copies id, name, category, sub-category, zone and building, converts capacity and floor with `Number`, sends the parsed features, the one image or else the placeholder, and status "Active" |
| AddResource.DigitsSentAsNumbers | src/pages/Admin/AddResource.jsx:40-45 | a capacity and floor typed as digits are sent as the numbers they spell, and 0 when left empty |
| AddResource.InitialPayload | src/pages/Admin/AddResource.jsx:12-23 | the form as first shown sends capacity 0, floor 0, no features and the placeholder image |
| AddResource.Submit | src/pages/Admin/AddResource.jsx:33-66 | what is sent is the form's payload: well-formed features, exactly one image and status "Active"; the page goes to /admin exactly when the reply reports success |
| AddResource.SubmitEvents | src/pages/Admin/AddResource.jsx:54-64 | the POST comes first; the page goes to /admin exactly when the reply reports success, and a successful reply gives exactly the POST, the "Resource created successfully!" toast and then /admin; a reply without success does nothing more; a failure toasts the server's message or "Failed to create resource" |
| AddResource.TrimEach | src/pages/Admin/AddResource.jsx:47 | trimming each piece keeps the number of pieces, and each entry is the trim of the piece at the same place |
| UpdateResource.NumOr | src/pages/Admin/UpdateResource.jsx:42 | the result is what JavaScript's `x || 0` gives on `undefined` or the number, and it is 0 or the stored number |
| UpdateResource.FormOf | src/pages/Admin/UpdateResource.jsx:34-46 | each form field is the stored field or its default ("", "Academic", "Active") when missing or empty; a missing or zero capacity shows empty; a missing floor shows 0; the features are the stored list joined with ", "; the image is the first stored one |
| UpdateResource.Load | src/pages/Admin/UpdateResource.jsx:28-57 | the GET for the id comes first; a reply carrying a resource fills the form with it; any other reply keeps the form; a failed call keeps the form, toasts "Failed to load resource details." and then goes back to /admin, and only a failed call goes there |
| UpdateResource.BuildPayload | src/pages/Admin/UpdateResource.jsx:71-87 | the text fields are sent as held; capacity and floor go through `Number`; the features are parsed as on the create form; the one image is sent, or no image when the field is empty; the status is the one held |
| UpdateResource.FeaturesRoundTrip | src/pages/Admin/UpdateResource.jsx:43 | a stored list of well-formed features is saved back unchanged after loading; a resource without features is saved with none |
| UpdateResource.NumbersRoundTrip | src/pages/Admin/UpdateResource.jsx:39 | loading and saving without edits sends the stored capacity and floor back, a missing one as 0 |
| UpdateResource.ImagesRoundTrip | src/pages/Admin/UpdateResource.jsx:44 | loading and saving without edits sends only the first stored image, or none when it is missing or empty |
| UpdateResource.TextRoundTrip | src/pages/Admin/UpdateResource.jsx:36-45 | stored non-empty name, category, sub-category, building, zone and status are sent back unchanged |
| UpdateResource.LoadedStatusOffered | src/pages/Admin/UpdateResource.jsx:148-150 | the loaded status is one the select offers whenever the stored one is, or is missing |
| UpdateResource.NoImageDiffers | src/pages/Admin/UpdateResource.jsx:85 | without an image the edit form sends no image, where the create form sends the placeholder |
| UpdateResource.Save | src/pages/Admin/UpdateResource.jsx:65-102 | what is sent is the form's payload: well-formed features, at most one image and the status the form holds; the page goes to /admin exactly when the call gets a reply |
| UpdateResource.SaveEvents | src/pages/Admin/UpdateResource.jsx:90-98 | the PUT to /resources/{id}/update comes first; the page goes to /admin exactly when the call gets a reply, and any reply gives exactly the PUT, the "Resource updated successfully!" toast and then /admin; a failure toasts the server's message or "Failed to update resource" |
| Client.MessageOr | src/pages/Admin/AddResource.jsx:63 | the optional chain `error.response?.data?.message` followed by `|| fallback`; with a non-empty fallback the toast text is never empty |
| Client.OrString | src/pages/Admin/UpdateResource.jsx:36 | agrees with JavaScript's `||` on the value (`undefined` when absent); with a non-empty fallback the result is never empty |
| Js.TrimStart | src/pages/Resources.jsx:30 | leading white space is gone: the result is no longer and does not start with white space |
| Js.TrimEnd | src/pages/Resources.jsx:30 | trailing white space is gone: the result is no longer and does not end with white space |
| Js.TrimStartSuffix | src/pages/Resources.jsx:30 | what is dropped in front is white space, and what is kept is a suffix of the string |
| Js.TrimEndPrefix | src/pages/Resources.jsx:30 | what is dropped at the end is white space, and what is kept is a prefix of the string |
| Js.Trim | src/pages/Login.jsx:19 | the trim has no white space at either end, and is empty exactly when the string is all white space |
| Js.TrimFacts | src/pages/Login.jsx:19 | the same two facts, for trimming the front and then the end |
| Js.TrimIsSlice | src/pages/Login.jsx:19 | the trim is the slice of the string that starts after its leading white space, with only white space before and after it |
| Js.TrimSlice | src/pages/Login.jsx:19 | a prefix of a suffix is a slice, and the white space around it in the pieces lies around it in the whole string |
| Js.TrimTrimmed | src/pages/Admin/AddResource.jsx:47 | trimming a trimmed string changes nothing |
| Js.TrimLeadingBlank | src/pages/Admin/AddResource.jsx:47 | a blank in front makes no difference to the trim |
| Js.TrimWithout | src/pages/Admin/AddResource.jsx:47 | a character missing from a string is missing from its trim |
| Js.ToLowerNoCapitals | src/pages/Admin/AdminPanel.jsx:84 | `toLowerCase` leaves no ASCII capital and changes no other character |
| Js.ToLowerIdempotent | src/pages/Admin/AdminPanel.jsx:84 | lower-casing twice is lower-casing once |
| Js.IncludesIff | src/pages/Admin/AdminPanel.jsx:87-91 | `includes` answers true exactly when the part occurs at some position |
| Js.IncludesEmpty | src/pages/Admin/AdminPanel.jsx:87 | the empty string occurs in every string |
| Js.Split | src/pages/Admin/AddResource.jsx:47 | a split at a one-character separator has at least one piece, and no piece holds the separator |
| Js.JoinSplit | src/pages/Admin/AddResource.jsx:47 | joining the pieces of a split with the separator gives the string back |
| Js.SplitJoin | src/pages/Admin/UpdateResource.jsx:43 | splitting a join of separator-free pieces gives the pieces back |
| Js.SplitPair | src/pages/Resources.jsx:45 | two separator-free halves joined by the separator split back into those two halves |
| Js.SplitCons | src/pages/Admin/UpdateResource.jsx:43 | a separator-free first piece comes off the front of the split |
| Js.SplitFree | src/pages/Admin/AddResource.jsx:47 | a string without the separator splits into itself alone |
| Js.DigitsToNumber | src/pages/Admin/AddResource.jsx:40 | `Number` of decimal digits is the number they spell, and of "" is 0 |
| Js.LiteralIsNumber | src/pages/Signup.jsx:63 | `Number` of a trimmed numeric literal is not NaN |
| Js.NonLiteralIsNaN | src/pages/Signup.jsx:63 | `Number` of a trimmed, non-empty string that is no numeric literal is NaN |
| Js.Filter | src/pages/Admin/AdminPanel.jsx:82 | `filter` keeps exactly the elements the test accepts, and never more elements than there were |
| Js.FilterCount | src/pages/Admin/AdminPanel.jsx:67 | `filter` keeps every copy of an element the test accepts and no copy of one it refuses |
| Js.FilterIsSubsequence | src/pages/Admin/AdminPanel.jsx:82 | what `filter` keeps stays in its order |
| Js.FilterKeepsAll | src/pages/Admin/AdminPanel.jsx:83 | filtering with a test that accepts every element gives the list back |
| Js.FilterAppend | src/pages/Resources.jsx:81-83 | filtering a concatenation filters each part |
| Js.Or | src/pages/Admin/AdminPanel.jsx:30 | `a || b` is one of its operands, and is truthy exactly when either operand is |
| Js.OrAssociative | src/pages/Admin/AdminPanel.jsx:30 | `(a || b) || c` and `a || (b || c)` give the same value |
| Js.OrFalsyUnit | src/pages/Admin/AdminPanel.jsx:30 | a falsy operand on the left is skipped, and a truthy one on the left wins over a falsy right |

## Left out

- HTTP: the API client module `src/services/api` is not part of this model. Every reply or error is an input, and only the fields a page reads are modelled.
- Rendering: JSX layout, styling, icons and the display-only pages are left out. Browser-side `required` attributes on inputs are left out too, as are console logging and the server's own logic (overlap detection, booking state changes, authorization).
- Timing and concurrency: the 500 ms search debounce, the ordering of asynchronous effects and React's batching of state updates are left out. A fetch here is the one that finally runs.
- Clock and randomness: the booking id built from `Date.now` and `Math.random` is a parameter. The conversion of the chosen date and times to UTC instants (`toISOString`) is not modelled; start and end keep the date and time they are built from.
- Persistence: `localStorage` is a map field. `JSON.stringify` and `JSON.parse` are function parameters, with parse partial. A stored user of `"null"`, which `JSON.parse` turns into `null`, is not modelled: the parse parameter gives a record or fails. The source would then set the user to null and keep both keys.
- Text: strings are ASCII. `trim`, `\s`, `toLowerCase` and `.length` are modelled on ASCII only, not on Unicode or UTF-16.
- Js.ToNumber: fractions, exponent forms, hexadecimal and `Infinity` are known only to be numbers (`OtherNumber`). Their values are not computed, since no page reads them.
- Loading flags: the `saving` and `loading` flags of the registration, create and edit forms are not modelled, because they only disable buttons. The flags of the classes are modelled.
- AdminPanel.Panel.FetchData: on the bookings tab, a truthy `bookings` that is not a list keeps the previous rows. The source stores such a value as-is and then fails when it renders it.
- AdminPanel.BookingsList: it states nothing for a truthy non-list `bookings`, for the same reason.
- UpdateResource.FormOf: a stored capacity or floor that is not a number is not modelled.
- UpdateResource.NumberOf: `Number` applied to a loaded number gives that number, so loaded numbers skip the text conversion.
- BookingModal.IsDateValue: a day beyond the length of its month (such as "2024-02-30") counts as a date. JavaScript engines differ on whether such a date is invalid, and a date input never produces one.
- BookingModal.ParseTime: "24:00", which ECMAScript reads as the end of the day, is refused. A time input never produces it.
- Signup.ValidateForm: the batch test is the corrected four-digit check, not the `isNaN` test of src/pages/Signup.jsx:63. The test as written is Signup.ValidateFormAsWritten, and Signup.ValidatorsDifferOnlyOnBatch states where the two differ.
- Signup.FirstFailureDecides: it is stated for the corrected validator, so its batch message is tied to the four-digit check rather than the `isNaN` test.
- Signup.Submit: it validates with the corrected validator, so a batch such as "-202" is refused before the request, where the page as written would send it.
- Routing: case-insensitive matching and trailing slashes in the route table are not modelled; paths are lists of segments.
- Input events: typing into a field (`handleChange`) only copies a value into the form state. The forms are taken as they stand at submit time.

## Findings

| source | as written | input that shows it | evidently intended | confidence | as-written member | corrected member |
|---|---|---|---|---|---|---|
| src/pages/Signup.jsx:63 | the batch passes when it has 4 characters and `isNaN(batch)` is false | "    " (four blanks, `Number` gives 0), "-202", "1e10" | a batch is a four-digit year, as the message "Batch should be a 4-digit year" says | not executed | Signup.BlankBatchAcceptedAsWritten | Signup.BatchCorrectedRefinesAsWritten |
| src/pages/Resources.jsx:229 | "Clear Filters" sets `{ category: [], building: [], minCapacity: 0 }` with no `features` key | clear the filters, then tick any amenity: `prev.features.includes` runs on `undefined` and throws | reset to the initial filters, including `features: []` | not executed | Resources.ClearedFiltersBreakAmenities | Resources.ToggleKeepsComplete |

For the first row, the as-written check is `Signup.BatchAcceptedAsWritten`. Three lemmas exhibit inputs it wrongly accepts: `Signup.BlankBatchAcceptedAsWritten`, `Signup.SignedBatchAcceptedAsWritten` and `Signup.ExponentBatchAcceptedAsWritten`. `Signup.ValidateForm` uses the corrected `Signup.BatchAccepted`, which accepts only four ASCII digits. That is stricter than the check as written, as `Signup.BatchCorrectedRefinesAsWritten` shows.

For the second row, the as-written reset is `Resources.ClearedFiltersAsWritten`. `Resources.Page.ClearFilters` resets to the initial filters instead. It keeps the page's `Valid()` invariant, and under that invariant every checkbox toggle succeeds (`Resources.ToggleKeepsComplete`).
