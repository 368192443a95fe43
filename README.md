# home-fix: a Dafny model of the marketplace front-end

home-fix is a Bengali-language marketplace for home services. Customers
browse services such as electrical work, plumbing, AC service, cleaning,
painting and carpentry, and book one. They then pay for it through a
bKash or Nagad gateway. Providers list services, switch them on and off,
and move bookings through their lifecycle. An admin sees totals over
everything. All data lives in three Supabase tables that the front-end
reads into in-memory caches.

This project models, in Dafny:

- the **store** (`ServiceContext`), as a class. Its caches are filled by
  `fetchServices`, `fetchBookings` and `fetchCategories`. Its six mutations
  each write the remote table and then refetch. The remote tables are
  fields of the same object. Every failure of a remote call is a parameter.
- the **catalogue page** (`ServicesPage`): search, category, location
  and sort filters, the reset button, the per-category counts and the
  location dropdown.
- the **booking page** (`BookingPage`): service lookup, the details
  form and its validation, the payment payload, and the gateway's answer.
  The page's own state is the class `BookingFlow`.
- the **three dashboards** (`UserDashboard`, `ProviderDashboard`,
  `AdminDashboard`) over the shared booking views of `Bookings`. These
  cover ownership filters, per-status views, amounts, status labels,
  the recent list and the short booking id.
- the **registration and login pages** (`RegisterPage`, `LoginPage`).
  This covers the first-failure-wins form checks, the mapping of auth
  error messages, the digits-only OTP field and the resend/back buttons.
  Each page's state is a class.
- the **router and navigation bar** (`App`, `Navbar`): `ProtectedRoute`,
  the loading gate, the redirects away from login and registration, the
  dashboard link, the badges and logout.
- the **service form and card** (`ServiceForm`, `ServiceCard`): the
  form's initial fields and the record it saves, including the image
  fallbacks. The card covers the availability toggle, delete, and the
  booking link.

`Types` holds the table rows of `src/lib/supabase.ts` and the database's
side of an insert or an update. An insert assigns the id and the
timestamps. An update applies a partial record and stamps `updated_at`.
`Seqs` and `Text` hold generic helpers: a filter characterised by
multisets, a stable insertion sort proved sorted for any total preorder,
JavaScript's `slice` with negative indices, sums, trimming, substring
search and digit filtering.

One behaviour of the code is worth knowing when reading the model.
`fetchServices` asks only for available rows, so the services cache
never holds an unavailable service. A provider who switches a service
off therefore no longer sees it on the dashboard. The card's "make
available" button and its "unavailable" overlay are never shown for a
cached service. `ServiceCard.CachedCardsNeverUnavailable`,
`ServiceCard.ToggleAvailability` and `ProviderDashboard.ActiveEqualsListed`
state this.

The login page is modelled as staying on screen while a sign-in runs.
In the code, the auth context's `signIn` raises the context's own loading
flag (src/contexts/AuthContext.tsx:132) and does not lower it when the
sign-in fails, and while that flag is up the provider renders a loading
text in place of the whole app (src/contexts/AuthContext.tsx:208). The
page is therefore unmounted, and the classified error that
`LoginPage.LoginFlow.SubmitSettled` sets would not be seen. The auth
context is not part of this model.

Strings are `seq<char>`. Dates and timestamps are integers (a day
number for the booking date). `toLowerCase` is a parameter `lower` of
the catalogue filter. Every call into the auth provider, the database or
the payment gateway is a parameter standing for its reply.

## Model

| member | source | states |
|---|---|---|
| `Types.StatusNameInjective` | src/lib/supabase.ts:51 | the four status strings are pairwise different, so a string names at most one status |
| `Types.PatchService` | src/contexts/ServiceContext.tsx:153-168 | each column takes the patch's value when the patch names it and keeps its old value otherwise; the id and creation time are kept and `updated_at` becomes now |
| `Types.PatchBooking` | src/contexts/ServiceContext.tsx:205-220 | status and payment status take the patch's value where named; every other column is kept; `updated_at` becomes now |
| `Types.ServiceFromDraft` | src/contexts/ServiceContext.tsx:135-151 | the inserted row's supplied columns give back the draft exactly; the id is the new one and both timestamps are now |
| `Types.BookingFromDraft` | src/contexts/ServiceContext.tsx:187-203 | the inserted row's supplied columns give back the draft exactly; the id is the new one and both timestamps are now |
| `Bookings.OwnedBy` | src/pages/UserDashboard.tsx:12 | each booking occurs exactly as often as in the input when its `user_id` matches, and not at all otherwise |
| `Bookings.ProvidedBy` | src/pages/ProviderDashboard.tsx:15 | each booking occurs exactly as often as in the input when its `provider_id` matches, and not at all otherwise |
| `Bookings.WithStatus` | src/pages/ProviderDashboard.tsx:60 | each booking occurs exactly as often as in the input when its status is the given one, and not at all otherwise |
| `Bookings.TotalAmountAppend` | src/pages/AdminDashboard.tsx:14 | the sum of amounts over a concatenation is the sum of the two sums |
| `Bookings.WithStatusAppend` | src/pages/UserDashboard.tsx:98 | a per-status view of a concatenation is the concatenation of the views, keeping order |
| `Bookings.WithStatusCons` | src/pages/UserDashboard.tsx:98 | the first booking counts, and adds its amount, only towards its own status |
| `Bookings.StatusCountsPartition` | src/pages/UserDashboard.tsx:85-126 | the four per-status counts add up to the number of bookings |
| `Bookings.StatusAmountsPartition` | src/pages/AdminDashboard.tsx:14 | the four per-status amounts add up to the total amount |
| `Bookings.CompletedTotalAppend` | src/pages/ProviderDashboard.tsx:56-58 | one more booking raises the completed total by its amount when it is completed and leaves it unchanged otherwise |
| `Bookings.CompletedTotalBounds` | src/pages/UserDashboard.tsx:39-41 | with non-negative amounts, the completed total lies between 0 and the total of all bookings |
| `Bookings.StatusText` | src/pages/ProviderDashboard.tsx:46-54 | a status string is shown by its Bengali label, and any other string as itself |
| `Bookings.StatusLabelInjective` | src/pages/UserDashboard.tsx:29-37 | two statuses share a label exactly when they are the same status |
| `Bookings.LastSlice` | src/pages/UserDashboard.tsx:191-194 | `slice(-k)` is the last `min(k, n)` bookings of the list |
| `Bookings.LastSliceHoldsOldest` | src/pages/ProviderDashboard.tsx:206-209 | on a newest-first list, no booking that `slice(-k)` shows is newer than any booking it leaves out |
| `Bookings.LastSliceMissesNewest` | src/pages/AdminDashboard.tsx:16 | four bookings stored newest first: `slice(-3)` leaves out the newest one |
| `Bookings.NewestSlice` | src/pages/UserDashboard.tsx:191-194 | the first `min(k, n)` bookings; on a newest-first list none of them is older than a booking left out |
| `Bookings.ShortId` | src/pages/ProviderDashboard.tsx:212 | `id.slice(-8)` is the last `min(8, n)` characters of the id |
| `ServiceContext.LexLeTotal` | src/contexts/ServiceContext.tsx:111-133 | any two category names are comparable in the name order |
| `ServiceContext.LexLeTransitive` | src/contexts/ServiceContext.tsx:111-133 | the name order is transitive |
| `ServiceContext.NewerServiceIsPreorder` | src/contexts/ServiceContext.tsx:42-66 | ordering services by descending creation time is a total preorder |
| `ServiceContext.NewerBookingIsPreorder` | src/contexts/ServiceContext.tsx:68-109 | ordering bookings by descending creation time is a total preorder |
| `ServiceContext.NameOrderIsPreorder` | src/contexts/ServiceContext.tsx:111-133 | ordering categories by name is a total preorder |
| `ServiceContext.AvailableNewest` | src/contexts/ServiceContext.tsx:42-66 | the services query keeps every available row exactly as often as the table holds it, drops every unavailable one, and orders by creation time, newest first |
| `ServiceContext.VisibleBookings` | src/contexts/ServiceContext.tsx:68-109 | a customer gets exactly the bookings they made, a provider exactly those for them, and an admin every booking, each newest first |
| `ServiceContext.CategoriesByName` | src/contexts/ServiceContext.tsx:111-133 | the categories query is a permutation of the table, ascending by name |
| `ServiceContext.UpdateServiceRows` | src/contexts/ServiceContext.tsx:153-168 | the table keeps its length; each row with the id is patched, and every other row is untouched |
| `ServiceContext.DeleteServiceRows` | src/contexts/ServiceContext.tsx:170-185 | no row with the id remains, and every other row remains exactly as often as before |
| `ServiceContext.UpdateBookingRows` | src/contexts/ServiceContext.tsx:205-220 | the table keeps its length; each row with the id is patched, and every other row is untouched |
| `ServiceContext.CancelChangesOnlyTarget` | src/contexts/ServiceContext.tsx:222-240 | cancelling sets the target rows' status to cancelled and refreshes `updated_at`, and no other row or field changes |
| `ServiceContext.CancelTwice` | src/contexts/ServiceContext.tsx:222-240 | cancelling twice equals cancelling once with the later time |
| `ServiceContext.HiddenAfterRefetch` | src/contexts/ServiceContext.tsx:153-168 | after an update that sets `available` to false and the refetch, the cache holds no service with that id |
| `ServiceContext.GoneAfterDelete` | src/contexts/ServiceContext.tsx:170-185 | after a delete, neither the table nor the refetched cache holds the id |
| `ServiceContext.Store.constructor` | src/contexts/ServiceContext.tsx:23-28 | the caches start empty and loading, with no user signed in |
| `ServiceContext.Store.FetchServices` | src/contexts/ServiceContext.tsx:42-66 | the cache becomes the available rows newest first, or empty when the query fails |
| `ServiceContext.Store.FetchBookings` | src/contexts/ServiceContext.tsx:68-109 | nothing happens without a user; otherwise the cache becomes the rows the role may see, or empty on failure |
| `ServiceContext.Store.FetchCategories` | src/contexts/ServiceContext.tsx:111-133 | the cache becomes the categories by name, or empty on failure, and loading ends |
| `ServiceContext.Store.IdentityChanged` | src/contexts/ServiceContext.tsx:30-40 | on a user or session change, categories and services are refetched; bookings are fetched with a session and a user and cleared otherwise; loading ends; the tables are untouched |
| `ServiceContext.Store.CreateService` | src/contexts/ServiceContext.tsx:135-151 | returns the database error; on error nothing changes; otherwise the row is appended and the services cache refetched |
| `ServiceContext.Store.UpdateService` | src/contexts/ServiceContext.tsx:153-168 | returns the database error; on error nothing changes; otherwise the rows with the id are patched and the cache refetched |
| `ServiceContext.Store.DeleteService` | src/contexts/ServiceContext.tsx:170-185 | returns the database error; on error nothing changes; otherwise the rows with the id are removed and the cache refetched |
| `ServiceContext.Store.CreateBooking` | src/contexts/ServiceContext.tsx:187-203 | returns the database error; on error nothing changes; otherwise the row is appended and bookings are refetched for the current user |
| `ServiceContext.Store.UpdateBooking` | src/contexts/ServiceContext.tsx:205-220 | returns the database error; on error nothing changes; otherwise the rows with the id are patched and bookings refetched |
| `ServiceContext.Store.CancelBooking` | src/contexts/ServiceContext.tsx:222-240 | returns the database error; on error nothing changes; otherwise the rows with the id are cancelled with a fresh `updated_at` and bookings refetched |
| `ServiceContext.CancelTwiceScenario` | src/contexts/ServiceContext.tsx:222-240 | two successful cancellations of the same booking leave every row with that id cancelled |
| `ServicesPage.ParseSortBy` | src/pages/ServicesPage.tsx:24-36 | each of the three keys selects its order, and every other key falls through to newest first |
| `ServicesPage.ComparatorIsPreorder` | src/pages/ServicesPage.tsx:26-34 | each of the four comparators is a total preorder |
| `ServicesPage.FilteredServices` | src/pages/ServicesPage.tsx:15-36 | the list holds exactly the services satisfying `ServicesPage.Matches` (available, title containing the search term, category and location as chosen), each as often as the cache does, ordered by price up, price down, rating down, or newest first as the key asks |
| `ServicesPage.SortByOfSorted` | src/pages/ServicesPage.tsx:24-36 | sorting a list that is already in order returns it unchanged |
| `ServicesPage.ResetShowsCache` | src/pages/ServicesPage.tsx:99-104 | after reset the page lists the cache exactly as the store fetched it |
| `ServicesPage.EmptyFiltersKeepAvailable` | src/pages/ServicesPage.tsx:15-23 | with empty search, category and location, exactly the available services are shown |
| `ServicesPage.CategoryCount` | src/pages/ServicesPage.tsx:190 | a category's count is at most the number of cached services |
| `ServicesPage.CategoryCountIsFilterSize` | src/pages/ServicesPage.tsx:190 | choosing a category shows exactly as many services as its button counts |
| `ServicesPage.Distinct` | src/pages/ServicesPage.tsx:13 | `[...new Set(xs)]` holds no value twice and exactly the values of `xs` |
| `ServicesPage.DistinctKeepsFirstOrder` | src/pages/ServicesPage.tsx:13 | the distinct values come in the order in which their first occurrences appear in the list |
| `ServicesPage.Locations` | src/pages/ServicesPage.tsx:13 | the location dropdown lists no location twice, and exactly the locations of the cached services; it is `Distinct` of the mapped locations, so they come in first-occurrence order |
| `BookingPage.FindService` | src/pages/BookingPage.tsx:13 | `find` returns nothing exactly when no service has the id, and otherwise the first service that does |
| `BookingPage.PageView` | src/pages/BookingPage.tsx:25-46 | not-found exactly when the id is unknown; login exactly when it is known and no one is signed in; otherwise the flow for that service and user |
| `BookingPage.ValidateBooking` | src/pages/BookingPage.tsx:52-65 | missing exactly when date, time or non-blank address is absent; past exactly when complete and before today; ready exactly when complete and today or later |
| `BookingPage.TodayIsTheBoundary` | src/pages/BookingPage.tsx:57-65 | a complete form dated yesterday is rejected; one dated today or tomorrow is accepted |
| `BookingPage.BlankAddressIsMissing` | src/pages/BookingPage.tsx:52-53 | an address made only of white space counts as missing |
| `BookingPage.PaymentPayload` | src/pages/BookingPage.tsx:99-111 | the payload carries the service, customer and provider ids, the form's fields, status pending, payment completed and the service's price |
| `BookingPage.PaymentBookingVisible` | src/pages/BookingPage.tsx:99-111 | once stored, the booking is in the refetched cache of the customer who booked it, of its provider, and of any admin |
| `BookingPage.OrElse` | src/pages/BookingPage.tsx:127 | `a \|\| b` yields a non-empty `a`, else `b` |
| `BookingPage.PaymentOutcome` | src/pages/BookingPage.tsx:124-132 | redirect exactly when the response is ok with a non-empty url; otherwise an alert with the prefix and the error, the fallback message, or the thrown message |
| `BookingPage.BookingFlow.constructor` | src/pages/BookingPage.tsx:15-23 | the form starts empty with bKash selected, the details view showing, and nothing sent |
| `BookingPage.BookingFlow.EditDetails` | src/pages/BookingPage.tsx:336-385 | the four detail inputs set their fields and nothing else |
| `BookingPage.BookingFlow.ChoosePaymentMethod` | src/pages/BookingPage.tsx:193-210 | a radio button sets the payment method to bKash or Nagad and nothing else |
| `BookingPage.BookingFlow.SubmitBooking` | src/pages/BookingPage.tsx:52-68 | a form that fails a check alerts that check's message and stays; a ready form moves on to payment |
| `BookingPage.BookingFlow.StartPayment` | src/pages/BookingPage.tsx:70-111 | sets loading and posts exactly one payload built from the form |
| `BookingPage.BookingFlow.PaymentSettled` | src/pages/BookingPage.tsx:124-135 | redirects to the gateway's url or alerts its message, and loading ends either way |
| `BookingPage.BookingFlow.Back` | src/pages/BookingPage.tsx:243-244 | returns to the details view, keeping the form |
| `BookingPage.SubmitThenPay` | src/pages/BookingPage.tsx:52-111 | submitting and paying posts one payload priced as the service exactly when the form is ready, and nothing otherwise |
| `UserDashboard.UserBookings` | src/pages/UserDashboard.tsx:12 | with no user nothing; otherwise exactly the user's bookings, each as often as the cache holds it |
| `UserDashboard.FilteredBookings` | src/pages/UserDashboard.tsx:14-17 | 'all' shows every booking; any other value shows exactly those whose status is spelled so |
| `UserDashboard.FilterByStatus` | src/pages/UserDashboard.tsx:14-17 | a status filter shows the same list, in the same order, as the bookings with that status |
| `UserDashboard.UnknownFilterShowsNothing` | src/pages/UserDashboard.tsx:14-17 | a filter value that spells no status shows nothing |
| `UserDashboard.TotalSpentBounds` | src/pages/UserDashboard.tsx:39-41 | with non-negative amounts, `UserDashboard.TotalSpent` (the completed bookings' amounts) lies between nothing and the total of the user's bookings |
| `UserDashboard.CountWith` | src/pages/UserDashboard.tsx:98-126 | a counter never exceeds the number of the user's bookings |
| `UserDashboard.CountsPartition` | src/pages/UserDashboard.tsx:85-126 | each counter equals the size of its filter, and the four counts add up to all bookings |
| `UserDashboard.Recent` | src/pages/UserDashboard.tsx:191-194 | `userBookings.slice(-3)`: the last `min(3, n)` bookings; on the newest-first cache none of them is newer than a booking left out |
| `UserDashboard.Featured` | src/pages/UserDashboard.tsx:338 | the services tab shows the first `min(6, n)` cached services |
| `ProviderDashboard.ProviderBookings` | src/pages/ProviderDashboard.tsx:15 | with no user nothing; otherwise exactly the provider's bookings |
| `ProviderDashboard.ProviderBookingsKeepOrder` | src/pages/ProviderDashboard.tsx:15 | filtering a concatenation is the concatenation of the filtered parts, so order is kept |
| `ProviderDashboard.ProviderServices` | src/pages/ProviderDashboard.tsx:16 | with no user nothing; otherwise exactly the provider's services |
| `ProviderDashboard.ProviderServicesKeepOrder` | src/pages/ProviderDashboard.tsx:16 | filtering a concatenation is the concatenation of the filtered parts, so order is kept |
| `ProviderDashboard.EarningsCountOnlyCompleted` | src/pages/ProviderDashboard.tsx:56-58 | one more booking adds its amount to `ProviderDashboard.TotalEarnings` exactly when it is completed |
| `ProviderDashboard.PendingCount` | src/pages/ProviderDashboard.tsx:60 | the pending count is at most the number of the provider's bookings |
| `ProviderDashboard.PendingCountAppend` | src/pages/ProviderDashboard.tsx:60 | one more booking raises the pending count by one exactly when it is pending |
| `ProviderDashboard.Actions` | src/pages/ProviderDashboard.tsx:351-377 | pending offers confirm and cancel, confirmed offers complete, and completed or cancelled offers nothing |
| `ProviderDashboard.ActionsMoveForward` | src/pages/ProviderDashboard.tsx:351-377 | every offered transition moves strictly forward in the lifecycle |
| `ProviderDashboard.RunsAreShort` | src/pages/ProviderDashboard.tsx:351-377 | a chain of button presses is at most two steps long, and a two-step chain ends completed |
| `ProviderDashboard.HandleStatusUpdate` | src/pages/ProviderDashboard.tsx:18-24 | on success exactly the booking's status changes in the table and its `updated_at` is stamped with the current time, and the bookings cache is refetched for the signed-in user; on error nothing changes |
| `ProviderDashboard.Recent` | src/pages/ProviderDashboard.tsx:206-209 | `providerBookings.slice(-3)`: the last `min(3, n)` bookings; on the newest-first cache none of them is newer than a booking left out |
| `ProviderDashboard.ActiveServices` | src/pages/ProviderDashboard.tsx:228 | the active figure is at most the number of the provider's services |
| `ProviderDashboard.ActiveEqualsListed` | src/pages/ProviderDashboard.tsx:228 | over the services cache, the active figure always equals the number of services listed |
| `ProviderDashboard.CompletedCount` | src/pages/ProviderDashboard.tsx:233 | the completed figure is at most the number of the provider's bookings, and equals it exactly when every one of them is completed |
| `ProviderDashboard.CompletedCountAppend` | src/pages/ProviderDashboard.tsx:117 | one more booking raises the completed count by one exactly when it is completed |
| `AdminDashboard.RevenueCoversEveryStatus` | src/pages/AdminDashboard.tsx:14 | `AdminDashboard.TotalRevenue` is the sum of the four per-status amounts, so every status counts |
| `AdminDashboard.RevenueAppend` | src/pages/AdminDashboard.tsx:14 | one more booking adds its amount to `AdminDashboard.TotalRevenue` whatever its status |
| `AdminDashboard.TotalBookingsCoversEveryStatus` | src/pages/AdminDashboard.tsx:13 | `AdminDashboard.TotalBookings` (`bookings.length`) is the sum of the four per-status counts, so every booking counts once |
| `AdminDashboard.RecentBookings` | src/pages/AdminDashboard.tsx:16 | `bookings.slice(-5)`: the last `min(5, n)` bookings; on the newest-first cache none of them is newer than a booking left out |
| `AdminDashboard.CompletedCount` | src/pages/AdminDashboard.tsx:170 | the completed figure never exceeds the total, and equals it exactly when every booking is completed |
| `Bookings.AllWithStatus` | src/pages/AdminDashboard.tsx:170 | the bookings with a status are all of them exactly when each one has that status |
| `AdminDashboard.ActiveServicesCountsAvailable` | src/pages/AdminDashboard.tsx:165 | over the services cache, `AdminDashboard.ActiveServices` is the number of available rows in the table |
| `RegisterPage.Validate` | src/pages/RegisterPage.tsx:32-66 | no problem exactly when every check passes; otherwise a check that fails, with every earlier check passing |
| `RegisterPage.ProfessionOnlyForProviders` | src/pages/RegisterPage.tsx:62-65 | the profession is reported missing exactly for a provider with a blank profession and every other check passing |
| `RegisterPage.SignUpPayload` | src/pages/RegisterPage.tsx:74-80 | the profile sends the name, phone, role and location, and the profession exactly for a provider |
| `RegisterPage.ClassifySignUpError` | src/pages/RegisterPage.tsx:84-92 | the three message tests are tried in order, and a message matching none is reported generically |
| `RegisterPage.WeakPasswordReadsAsTooShort` | src/pages/RegisterPage.tsx:88-89 | a password rejected by the provider is reported with the page's own length message |
| `RegisterPage.ClassifyOtpError` | src/pages/RegisterPage.tsx:125-133 | the expired branch is taken exactly when the message contains 'expired', and the invalid branch exactly when 'expired' is absent and 'invalid' or 'Invalid' appears |
| `RegisterPage.TokenExpiredBranchUnreachable` | src/pages/RegisterPage.tsx:125-130 | the 'Token has expired' branch is never taken, because 'expired' is checked first |
| `RegisterPage.OtpInput` | src/pages/RegisterPage.tsx:221-225 | the field holds at most six characters, all digits, and exactly the digits among the first six typed characters, each as often as typed (their order follows from `Text.KeepDigitsAppend`) |
| `Text.KeepDigits` | src/pages/RegisterPage.tsx:225 | `replace(/\D/g, '')` keeps exactly the digits of the input, each as often as it occurs, and nothing else |
| `Text.KeepDigitsAppend` | src/pages/RegisterPage.tsx:225 | the digits of a concatenation are the digits of each part, in order |
| `Text.KeepDigitsOfChar` | src/pages/RegisterPage.tsx:225 | a single character is kept exactly when it is a digit |
| `RegisterPage.OtpInputIdempotent` | src/pages/RegisterPage.tsx:221-225 | filtering what the field already holds changes nothing |
| `RegisterPage.OtpInputKeepsSixDigits` | src/pages/RegisterPage.tsx:221-225 | six typed digits are kept whole |
| `RegisterPage.RegisterFlow.constructor` | src/pages/RegisterPage.tsx:6-24 | the page starts with an empty customer form, no OTP form, and no call made |
| `RegisterPage.RegisterFlow.EditForm` | src/pages/RegisterPage.tsx:294-417 | the registration inputs set the form and nothing else |
| `RegisterPage.RegisterFlow.SubmitStart` | src/pages/RegisterPage.tsx:29-80 | a failed check sets its message and calls nothing; a passing form starts one sign-up call with the form's payload |
| `RegisterPage.RegisterFlow.SubmitSettled` | src/pages/RegisterPage.tsx:82-104 | success keeps the email and shows the OTP form; an error sets the classified message; loading ends either way |
| `RegisterPage.RegisterFlow.EnterOtp` | src/pages/RegisterPage.tsx:221-225 | the field becomes the filtered input |
| `RegisterPage.RegisterFlow.OtpStart` | src/pages/RegisterPage.tsx:107-121 | a code is sent exactly when it has six digits; a shorter one sets the length message and sends nothing |
| `RegisterPage.RegisterFlow.OtpSettled` | src/pages/RegisterPage.tsx:123-148 | success schedules the move to login; an error sets the classified message; loading ends either way |
| `RegisterPage.RegisterFlow.ResendStart` | src/pages/RegisterPage.tsx:151-156 | sets loading, clears the error and asks once for a new code for the registered email |
| `RegisterPage.RegisterFlow.ResendSettled` | src/pages/RegisterPage.tsx:156-168 | success shows the resent message and clears the code; failure shows the resend error; loading ends |
| `RegisterPage.RegisterFlow.BackToRegistration` | src/pages/RegisterPage.tsx:171-177 | leaves the OTP form and forgets the code, the messages and the email |
| `RegisterPage.RejectedFormSendsNothing` | src/pages/RegisterPage.tsx:32-66 | a form that fails a check never reaches the auth provider, and the message shown is that of the first failing check |
| `LoginPage.ClassifyLoginError` | src/pages/LoginPage.tsx:30-35 | wrong credentials exactly when that text appears; unconfirmed email exactly when only that text appears |
| `LoginPage.LoginErrorMessagesDistinct` | src/pages/LoginPage.tsx:30-35 | the three kinds give three different messages |
| `LoginPage.LoginFlow.constructor` | src/pages/LoginPage.tsx:7-13 | the page starts empty, not loading, with no call made |
| `LoginPage.LoginFlow.Edit` | src/pages/LoginPage.tsx:75-91 | the two inputs set the email and password |
| `LoginPage.LoginFlow.SubmitStart` | src/pages/LoginPage.tsx:18-26 | sets loading, clears the error, and makes one sign-in call with the typed credentials |
| `LoginPage.LoginFlow.SubmitSettled` | src/pages/LoginPage.tsx:30-48 | success schedules the move home; an error sets the classified message; loading ends either way |
| `LoginPage.Attempt` | src/pages/LoginPage.tsx:18-48 | one attempt makes exactly one call, ends not loading, and on success goes home with no error |
| `App.ProtectedRoute` | src/App.tsx:20-51 | spinner while loading; login without a user; the user's own dashboard on a role mismatch; the page exactly when signed in with the right role or none required |
| `App.RequiredRole` | src/App.tsx:85-108 | exactly the three dashboard routes are protected |
| `App.DashboardGuardedByItsRole` | src/App.tsx:85-108 | each role's dashboard is guarded by that role |
| `App.Screen` | src/App.tsx:56-111 | spinner while loading; login and registration redirect home exactly for a signed-in user; a dashboard defers to `ProtectedRoute` |
| `App.ProtectedSpinnerUnreachable` | src/App.tsx:56-66 | inside the route table a dashboard shows a spinner exactly while loading, through the outer gate |
| `App.RedirectsSettle` | src/App.tsx:20-108 | following any redirect once lands on a page that renders, so there is no redirect loop |
| `App.OwnDashboardRenders` | src/App.tsx:85-108 | a signed-in user always reaches their own dashboard |
| `Navbar.DashboardLink` | src/components/Navbar.tsx:14-25 | home without a user, otherwise the dashboard of the user's role |
| `Navbar.LinkAgreesWithRouter` | src/components/Navbar.tsx:14-25 | the link goes where the router sends a user on a role mismatch, and it renders there |
| `Navbar.ShowDashboardLink` | src/components/Navbar.tsx:45 | the link shows exactly for a signed-in user, and then leads to the dashboard guarded by the user's role |
| `Navbar.ShowUnverifiedBadge` | src/components/Navbar.tsx:72 | the badge shows exactly for a signed-in unverified user |
| `Navbar.NavbarState.constructor` | src/components/Navbar.tsx:5-12 | no effect has been issued yet |
| `Navbar.NavbarState.Logout` | src/components/Navbar.tsx:9-12 | logout signs out and then goes home, in that order |
| `ServiceForm.InitialForm` | src/components/ServiceForm.tsx:16-23 | an edited service's fields, or empty ones; the location falls back to the user's |
| `ServiceForm.PhotoUrl` | src/components/ServiceForm.tsx:29-36 | the stock-photo URL is longer than the photo id, so it is never empty |
| `ServiceForm.CategoryImage` | src/components/ServiceForm.tsx:29-36 | a known category's picture is never empty |
| `ServiceForm.ImageUrlFor` | src/components/ServiceForm.tsx:45 | the entered URL wins; else the category's picture; else the default; never empty |
| `ServiceForm.ServiceData` | src/components/ServiceForm.tsx:47-54 | the saved record carries the form's fields and the provider's id; rating and availability come from the edited service, else 0 and true |
| `ServiceForm.SaveUnchangedKeepsService` | src/components/ServiceForm.tsx:16-62 | opening one's own service and saving it unchanged rewrites it as it was, except `updated_at` |
| `ServiceForm.NewServiceHasPicture` | src/components/ServiceForm.tsx:45 | a new service with no URL entered gets the category's picture, or the default |
| `ServiceForm.ServiceFormFlow.constructor` | src/components/ServiceForm.tsx:16-26 | the form starts from the initial fields, not loading, with no error |
| `ServiceForm.ServiceFormFlow.Edit` | src/components/ServiceForm.tsx:97-178 | an input sets the form |
| `ServiceForm.ServiceFormFlow.Submit` | src/components/ServiceForm.tsx:38-70 | updates in edit mode and creates otherwise; on success the form closes and the services cache is refetched (the available services newest first, or empty when the refetch fails); on failure the table and cache are unchanged and the error or the fallback message shows; loading ends |
| `ServiceCard.ToggleFlipsOnlyAvailability` | src/components/ServiceCard.tsx:17-23 | the toggle flips availability and nothing else, and toggling twice restores the row except `updated_at` |
| `ServiceCard.ToggleAvailability` | src/components/ServiceCard.tsx:17-23 | on success the row is toggled and the services cache is refetched (the available services newest first, so switching a row off removes its id); on error nothing changes |
| `ServiceCard.HandleDelete` | src/components/ServiceCard.tsx:25-33 | the service is deleted only after confirmation and without a database error, and then the services cache is refetched (the available services newest first); otherwise nothing changes |
| `ServiceCard.ShowBookingLink` | src/components/ServiceCard.tsx:85-121 | an owner managing the card never sees the booking link; nobody sees it for an unavailable service; anyone else sees it exactly when the service is available |
| `ServiceCard.CachedCardsNeverUnavailable` | src/components/ServiceCard.tsx:43-49 | no card built from the services cache shows the unavailable overlay |
| `ServiceCard.BookingLink` | src/components/ServiceCard.tsx:116 | the link is `/book/` followed by the service id |
| `ServiceCard.BookingLinkReachesFlow` | src/components/ServiceCard.tsx:113-121 | for a non-empty id without `/` (one path segment, as `/book/:serviceId` needs), following the link a signed-in user reaches the booking flow for that very service |

## Left out

- App.Screen: paths are compared as exact strings. React Router also matches a path that differs in letter case or has a trailing slash (`/Services`, `/login/`), and these variants are not modelled. The `/book/:serviceId` route is modelled as one non-empty segment without `/`.
- The auth provider (`src/contexts/AuthContext.tsx`) is not part of this model. Its replies are the `AuthReply` parameter, and the signed-in user is a parameter.
- The Supabase client set-up, the home page and the three payment landing pages are not part of this model.
- Network calls, `fetch`, `window.location`, `alert`, `confirm`, `console` and the `setTimeout` delays are left out. A redirect or a scheduled navigation is recorded as a field (`redirect`, `navigateTo`). An alert is appended to `alerts`.
- Concurrent fetches and races between them are left out. The effect's three fetches run one after the other in `ServiceContext.Store.IdentityChanged`.
- The joined provider and service records of the selects are left out. A row holds only its own columns.
- Database collation is left out. Categories are ordered by code point (`LexLe`).
- Floating-point figures are left out: the provider's average rating with `toFixed(1)` (src/pages/ProviderDashboard.tsx:240) and the customer's average spend with `Math.round` (src/pages/UserDashboard.tsx:233).
- Number coercions are left out. `Number(total_amount)` and `Number(formData.price)` act on integers. An empty price field reads as 0.
- Date parsing and time zones are left out. The booking date is a day number compared with today's day number.
- `toLowerCase` is left out. It is a parameter `lower` of the catalogue filter; the lemmas that need it require only `lower("") == ""`.
- A failure of `response.json()` is left out. So is a gateway `error` field that is not a string.
- String lengths count code points, not UTF-16 code units. This affects the six-character password check and the OTP field's `maxLength`.
- Lookups of `categoryImages` are left out for keys inherited from `Object.prototype`.
- The mobile-number input of the payment view is left out. The code does not store it.
- Stability of the sorts is not stated as a property. The insertion sort is stable, but only sortedness and being a permutation are proved.
- No page calls the store's `cancelBooking`, so there is no cancel button to model. The store exports it, and it is modelled as `ServiceContext.Store.CancelBooking`.
- Types.BookingPatch: holds only `status` and `payment_status`. `updateBooking` accepts any subset of a booking's columns, but every caller sends only `status`.
- BookingPage.PaymentPayload: requires a date. The payment view is reachable only after the details passed validation, which `BookingPage.BookingFlow.Valid` keeps as an invariant.
- ServiceForm.InitialForm: the price field's initial value is not stated (it is `None` for a zero price and the price otherwise).

## Findings

| source | as written | input that shows it | evidently intended | confidence | as-written member | corrected member |
|---|---|---|---|---|---|---|
| src/pages/UserDashboard.tsx:191-194, src/pages/ProviderDashboard.tsx:206-209, src/pages/AdminDashboard.tsx:16 | each "recent bookings" list takes `slice(-3)` or `slice(-5)`, the last entries of the cache, which `fetchBookings` orders newest first; the lists therefore show the oldest bookings | four bookings created at times 4, 3, 2, 1: `slice(-3)` shows those created at 3, 2 and 1 and leaves out the newest | the newest bookings, `slice(0, k)` on the newest-first cache | not executed | `Bookings.LastSliceMissesNewest` | `Bookings.NewestSlice` |
