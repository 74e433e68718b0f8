# Practitioner dashboard and auth backend, modelled in Dafny

This project models the behaviour of a practitioner dashboard, a React single-page app, and the
Express routes that sign practitioners in. The practitioners are called "doctors" or "healers" in the
code. The model covers the logic of the code's event handlers and helpers:

- the calendar's date ranges, navigation, hour rows and month grid;
- the booking, order and notification lists: their filters, order and status badges;
- the home page's next five bookings, greeting and display name;
- the booking details lookup, the synthesised patient e-mail and the age rule;
- the wallet withdrawal ledger;
- the chat, notification and product "update one item by id" operations;
- the two onboarding wizards, the app shell's onboarding flow and the slide carousel;
- the education, license, certificate and sign-up form checks;
- the mock bearer token that the login and signup routes mint and the auth middleware reads back.

Each page or dialog whose fields the code updates is a `class` whose methods state their whole new
state. The rules those methods apply are functions, and lemmas prove their properties. "Today",
"now", the current year and hour, fresh ids, and the outcome of every network request are
parameters. Booking dates are day numbers ordered like their ISO date strings. Calendar dates are
proleptic Gregorian `Date` values (module `Dates`), and a booking falls in a cell when its day number
equals the cell's. The helper modules `Text` and `Seqs` model the JavaScript primitives the code uses:
`toLowerCase` on ASCII letters, `includes`, `startsWith`, `replace` with a string pattern, `trim`, `filter`, `map`,
`slice` and a stable sort.

Bookings are stored as posted, with no overlap, availability or status-transition rule, and a new
wizard day is unavailable yet keeps a 09:00-17:00 slot. The model follows the code.

## Model

| member | source | states |
|---|---|---|
| Calendar.RangeStart | src/components/dashboard/pages/CalendarPage.tsx:28-36 | the range start is a valid date for each view mode |
| Calendar.RangeEnd | src/components/dashboard/pages/CalendarPage.tsx:38-48 | the range end is a valid date for each view mode |
| Calendar.WeekRange | src/components/dashboard/pages/CalendarPage.tsx:30-43 | the week range starts on a Sunday, ends exactly six days later, and contains the current date |
| Calendar.RangeCoversCurrent | src/components/dashboard/pages/CalendarPage.tsx:28-48 | every view's range contains the current date; the day view is that date alone; the month view runs from the 1st to the last day of the same month |
| Calendar.ShiftMonth | src/components/dashboard/pages/CalendarPage.tsx:57 | `setMonth` on a valid date gives a valid date |
| Calendar.Step | src/components/dashboard/pages/CalendarPage.tsx:50-60 | navigation always yields a valid date |
| Calendar.StepDistance | src/components/dashboard/pages/CalendarPage.tsx:50-60 | a day step moves the date by exactly 1 day and a week step by exactly 7, in the chosen direction |
| Calendar.StepRoundTrip | src/components/dashboard/pages/CalendarPage.tsx:50-60 | in the day and week views "prev" undoes "next", and "next" undoes "prev" |
| Calendar.ShiftMonthKeepsDay | src/components/dashboard/pages/CalendarPage.tsx:57 | when the target month has the day, a month step keeps the day and lands in the target month |
| Calendar.ShiftMonthOverflow | src/components/dashboard/pages/CalendarPage.tsx:57 | when the target month lacks the day, the date overflows into the following month by the missing days |
| Calendar.MonthStepRoundTrip | src/components/dashboard/pages/CalendarPage.tsx:50-60 | for days 1 to 28, the month view's "prev" undoes "next" and the other way round |
| Calendar.MonthStepNotRoundTrip | src/components/dashboard/pages/CalendarPage.tsx:57 | from 31 January 2025, "next" then "prev" ends on 3 February, so there is no general month round trip |
| Calendar.BookingsForDate | src/components/dashboard/pages/CalendarPage.tsx:83-86 | exactly the bookings on that date, each as often as in the input |
| Calendar.BookingsForDateKeepsOrder | src/components/dashboard/pages/CalendarPage.tsx:83-86 | the per-date list distributes over any split of the input, so the original order is kept |
| Calendar.TimeSlots | src/components/dashboard/pages/CalendarPage.tsx:88 | the time grid has 24 rows |
| Calendar.SlotLabelHour | src/components/dashboard/pages/CalendarPage.tsx:88-101 | parsing row h's label gives back the hour h |
| Calendar.SlotBookings | src/components/dashboard/pages/CalendarPage.tsx:96-101 | a booking of the day is in a cell iff its start hour equals the row's hour |
| Calendar.BookingInOneRow | src/components/dashboard/pages/CalendarPage.tsx:88-101 | a booking of the day is in row r iff its start hour is r, so it is in exactly one row when that hour is below 24 and in none otherwise |
| Calendar.WeekDays | src/components/dashboard/pages/CalendarPage.tsx:140-144 | the week view has 7 columns, and the first one is the range start |
| Calendar.WeekDaysConsecutive | src/components/dashboard/pages/CalendarPage.tsx:140-144 | the columns are consecutive days, column i falls on weekday i, and the last column is the range end |
| Calendar.MonthGrid | src/components/dashboard/pages/CalendarPage.tsx:200-212 | the grid is as many empty cells as the 1st's weekday, then every date of the month once, in order |
| Calendar.MonthGridColumns | src/components/dashboard/pages/CalendarPage.tsx:204-212 | each date of the month sits in the column of its own weekday |
| Calendar.CellPreview | src/components/dashboard/pages/CalendarPage.tsx:238-249 | a cell shows the first bookings, at most two; "+N more" appears only when there are more, and the shown count plus N is the day's count |
| Calendar.CalendarPage.constructor | src/components/dashboard/pages/CalendarPage.tsx:24-25 | the page opens in week view on today |
| Calendar.CalendarPage.Navigate | src/components/dashboard/pages/CalendarPage.tsx:50-60 | the current date takes one step of the current view, and the view is unchanged |
| Calendar.CalendarPage.SetViewMode | src/components/dashboard/pages/CalendarPage.tsx:286 | only the view mode changes |
| Calendar.CalendarPage.GoToToday | src/components/dashboard/pages/CalendarPage.tsx:62-64 | the current date becomes today and the view is unchanged |
| Bookings.UpcomingXorPast | src/components/dashboard/pages/BookingsPage.tsx:51-56 | a booking with one of the five statuses is on exactly one of the upcoming and past tabs |
| Bookings.UnknownStatusOnNeitherTab | src/components/dashboard/pages/BookingsPage.tsx:51-56 | a future booking with any other status is on neither tab |
| Bookings.Query | src/components/dashboard/pages/BookingsPage.tsx:46-59 | the list holds exactly the rows the doctor and tab select, each as often as in the table |
| Bookings.QueryMembership | src/components/dashboard/pages/BookingsPage.tsx:46-57 | a booking is listed iff it is the signed-in doctor's and passes the tab's rule; "all" adds no date or status rule |
| Bookings.QueryOrder | src/components/dashboard/pages/BookingsPage.tsx:59 | the list is ordered by date, descending on the past tab and ascending otherwise, with same-day bookings by start time ascending |
| Bookings.BookingsPage.constructor | src/components/dashboard/pages/BookingsPage.tsx:32-34 | the page opens on "all", with no rows, loading |
| Bookings.BookingsPage.Load | src/components/dashboard/pages/BookingsPage.tsx:42-66 | without a user nothing changes; otherwise the query result replaces the list, a failed query keeps it, and loading ends |
| Bookings.BookingsPage.SelectTab | src/components/dashboard/pages/BookingsPage.tsx:36-40 | choosing a tab reloads the list under that tab's rule; a failed reload keeps the list; loading ends for a signed-in user; without one nothing but the tab changes |
| Bookings.StatusVariant | src/components/dashboard/pages/BookingsPage.tsx:83-97 | info exactly for confirmed, success exactly for completed, warning exactly for pending, error exactly for cancelled and no_show, the default colour for any other status |
| Bookings.FormatDate | src/components/dashboard/pages/BookingsPage.tsx:99-112 | "Today" iff the date is today, "Tomorrow" iff it is the next day, otherwise the date itself |
| Bookings.FindBooking | src/components/dashboard/pages/BookingDetailsPage.tsx:51 | None iff no booking has the id; otherwise the first booking with that id |
| Bookings.EmailOfOneWordName | src/components/dashboard/pages/BookingDetailsPage.tsx:57 | a name without a space only gets lower-cased before "@email.com" |
| Bookings.EmailOfSplitName | src/components/dashboard/pages/BookingDetailsPage.tsx:57 | only the first space of the name becomes a dot, and later spaces are kept |
| Bookings.BookingDetailsPage.constructor | src/components/dashboard/pages/BookingDetailsPage.tsx:45-48 | the page opens with no booking and empty notes, loading |
| Bookings.BookingDetailsPage.Open | src/components/dashboard/pages/BookingDetailsPage.tsx:50-65 | a found booking is shown with its synthesised e-mail and the demo phone, and its notes ("" when absent) are loaded; an unknown id changes neither; loading ends |
| Bookings.CalculateAge | src/components/dashboard/pages/BookingDetailsPage.tsx:120-129 | the age is the year difference, or one less; it is the full difference iff this year's birthday is on or before today, and it counts exactly the anniversaries that have passed |
| Constants.BookingStatuses | src/lib/constants.ts:18-24 | the booking statuses are exactly pending, confirmed, completed, cancelled and no_show |
| Constants.OrderStatuses | src/lib/constants.ts:26-32 | the order statuses are exactly pending, confirmed, shipped, delivered and cancelled |
| Constants.BookingStatusLabel | src/lib/constants.ts:18-24 | a label exists exactly for the five booking statuses |
| Constants.TablesWellFormed | src/lib/constants.ts:11-42 | there are seven weekdays from Sunday to Saturday, the consultation types are video, chat, in_person and audio, and no status repeats |
| Constants.BookingLabels | src/lib/constants.ts:18-24 | the label of each booking status |
| Home.UpcomingForHome | src/components/dashboard/HomePage.tsx:41-45 | exactly five bookings when more than five qualify, otherwise every qualifying one; no booking appears more often than among the qualifying ones (a sub-multiset), and all are dated today or later |
| Home.UpcomingSorted | src/components/dashboard/HomePage.tsx:44 | the list runs from the earliest date to the latest |
| Home.UpcomingAreEarliest | src/components/dashboard/HomePage.tsx:45 | every qualifying booking left out is no earlier than every one shown, and with five or fewer qualifying bookings all are shown |
| Home.GreetingPart | src/components/dashboard/HomePage.tsx:66-71 | morning iff the hour is below 12, evening iff it is 18 or later, afternoon in between |
| Home.GreetingMonotone | src/components/dashboard/HomePage.tsx:66-71 | the greeting only moves forward through the day |
| Home.DisplayName | src/components/dashboard/HomePage.tsx:73 | the preferred name if non-empty, else the full name if non-empty, else "Doctor"; never empty |
| Orders.OfferedChanges | src/components/dashboard/pages/OrdersPage.tsx:203-239 | every offered change is an order status different from the current one; nothing is offered iff the status is not pending, confirmed or shipped |
| Orders.ChangesMoveForward | src/components/dashboard/pages/OrdersPage.tsx:203-239 | a change is offered iff it moves one step along pending, confirmed, shipped, delivered, or cancels a pending order; so a pending order offers both confirming and cancelling |
| Orders.TerminalStatuses | src/components/dashboard/pages/OrdersPage.tsx:203-239 | delivered and cancelled orders offer no change |
| Orders.RunsAreShort | src/components/dashboard/pages/OrdersPage.tsx:203-239 | no chain of offered changes has more than three steps, so an order's status cannot cycle |
| Orders.Query | src/components/dashboard/pages/OrdersPage.tsx:46-55 | the list holds exactly the doctor's rows that the tab selects, each as often as in the table |
| Orders.QueryMembership | src/components/dashboard/pages/OrdersPage.tsx:46-53 | an order is listed iff it is the doctor's and, on a status tab, has that status |
| Orders.QueryNewestFirst | src/components/dashboard/pages/OrdersPage.tsx:55 | the list runs from the newest order date to the oldest |
| Orders.SetStatus | src/components/dashboard/pages/OrdersPage.tsx:64-67 | the orders with that id take the new status, and every other order is unchanged |
| Orders.SetStatusKeepsOtherFields | src/components/dashboard/pages/OrdersPage.tsx:64-67 | ids, owners and dates never change, and only the matching orders' status may |
| Orders.StatusVariant | src/components/dashboard/pages/OrdersPage.tsx:72-87 | success exactly for delivered, info exactly for shipped and confirmed, warning exactly for pending, error exactly for cancelled, the default colour for any other status |
| Orders.OrdersPage.constructor | src/components/dashboard/pages/OrdersPage.tsx:32-34 | the page opens on "all", with no rows, loading |
| Orders.OrdersPage.Load | src/components/dashboard/pages/OrdersPage.tsx:42-61 | without a user nothing changes; otherwise the query result replaces the list, a failed query keeps it, and loading ends |
| Orders.OrdersPage.UpdateOrderStatus | src/components/dashboard/pages/OrdersPage.tsx:63-70 | a successful update sets the order's status in the table and a failed one leaves the table as it was; the list is then reloaded from the table, and a failed reload keeps it |
| Wallet.TryWithdraw | src/components/dashboard/pages/WalletPage.tsx:68-92 | accepted iff the amount is a number, positive and at most the balance; an accepted withdrawal moves exactly that amount from the balance to the withdrawn total, keeps their sum and everything else, and keeps a non-negative balance non-negative |
| Wallet.WithdrawTwice | src/components/dashboard/pages/WalletPage.tsx:88-92 | two accepted withdrawals move the sum of the two amounts |
| Wallet.PayoutTransaction | src/components/dashboard/pages/WalletPage.tsx:76-86 | the recorded transaction is a pending debit of the amount, referenced as a payout |
| Wallet.TxStatusVariant | src/components/dashboard/pages/WalletPage.tsx:98-109 | success exactly for completed, warning exactly for pending, error exactly for failed, never info, the default colour for any other status |
| Wallet.WalletPage.constructor | src/components/dashboard/pages/WalletPage.tsx:37-41 | no wallet, no transactions, modal closed, empty input, loading |
| Wallet.WalletPage.Load | src/components/dashboard/pages/WalletPage.tsx:49-63 | without a user nothing changes; a response sets the wallet (a null body clears it) and, when present, the transactions; a failed request keeps both |
| Wallet.WalletPage.OpenWithdraw | src/components/dashboard/pages/WalletPage.tsx:139 | only the modal opens |
| Wallet.WalletPage.SetAmountText | src/components/dashboard/pages/WalletPage.tsx:311 | only the amount input changes |
| Wallet.WalletPage.HandleWithdraw | src/components/dashboard/pages/WalletPage.tsx:65-96 | with no user, no wallet, an empty input or a rejected amount, nothing changes; otherwise exactly one payout is prepended, the wallet is debited, the modal closes and the input is cleared |
| Chats.ResetUnread | src/components/dashboard/pages/ChatsPage.tsx:37-40 | the chats with the selected id have their unread count set to 0, and every other chat, the length and the order are unchanged |
| Chats.ResetUnreadIdempotent | src/components/dashboard/pages/ChatsPage.tsx:37-40 | selecting a chat twice is the same as selecting it once |
| Chats.ResetUnreadCounts | src/components/dashboard/pages/ChatsPage.tsx:37-40 | after a selection the selected chat has nothing unread and every other keeps its count |
| Chats.WithLastMessage | src/components/dashboard/pages/ChatsPage.tsx:56-61 | only the selected chat's preview and time change |
| Chats.FilterChats | src/components/dashboard/pages/ChatsPage.tsx:64-66 | a chat is listed iff its lower-cased patient name contains the lower-cased term |
| Chats.EmptySearchKeepsAll | src/components/dashboard/pages/ChatsPage.tsx:64-66 | an empty search lists every chat, in order |
| Chats.ChatTimeLabel | src/components/dashboard/pages/ChatsPage.tsx:68-81 | clock time iff less than 24 hours old, "Yesterday" iff 24 to 47 hours, a short date from 48 hours |
| Chats.MessagesFor | src/components/dashboard/pages/ChatsPage.tsx:29 | the stored history of a chat, empty when none is stored |
| Chats.ChatsPage.constructor | src/components/dashboard/pages/ChatsPage.tsx:27-31 | the first chat, if any, is selected with its history, and the draft and search are empty |
| Chats.ChatsPage.SelectChat | src/components/dashboard/pages/ChatsPage.tsx:33-41 | the chat is selected, its history loaded and its unread count cleared |
| Chats.ChatsPage.SendMessage | src/components/dashboard/pages/ChatsPage.tsx:43-62 | with no selected chat or a blank draft nothing changes; otherwise one doctor message with the trimmed text is appended, the draft is cleared, and only the selected chat's preview changes |
| Chats.ChatsPage.SetNewMessage | src/components/dashboard/pages/ChatsPage.tsx:205 | only the draft changes |
| Chats.ChatsPage.SetSearchTerm | src/components/dashboard/pages/ChatsPage.tsx:98 | only the search term changes |
| Notifications.Visible | src/components/dashboard/pages/NotificationsPage.tsx:46-52 | the shown list holds exactly the notifications the filter selects, each as often as in the local list |
| Notifications.VisibleMembership | src/components/dashboard/pages/NotificationsPage.tsx:46-49 | a notification is shown iff it is in the local list and, under the unread filter, unread |
| Notifications.VisibleNewestFirst | src/components/dashboard/pages/NotificationsPage.tsx:52 | the list runs from the newest notification to the oldest |
| Notifications.MarkRead | src/components/dashboard/pages/NotificationsPage.tsx:62-64 | the notifications with that id become read, and every other is identical |
| Notifications.MarkAllRead | src/components/dashboard/pages/NotificationsPage.tsx:74 | every notification becomes read, with nothing else changed and the length kept |
| Notifications.MarkAllReadIdempotent | src/components/dashboard/pages/NotificationsPage.tsx:58-76 | marking all read again, or marking one read afterwards, changes nothing |
| Notifications.NothingUnreadAfterMarkAll | src/components/dashboard/pages/NotificationsPage.tsx:46-74 | after "mark all" the unread filter shows nothing, and the full list keeps its length |
| Notifications.Age | src/components/dashboard/pages/NotificationsPage.tsx:93-109 | "Just now" iff under an hour old; whole hours between 1 and 23 iff under a day; whole days between 1 and 6 iff under a week; the date otherwise |
| Notifications.DaysOfHours | src/components/dashboard/pages/NotificationsPage.tsx:93-109 | whole days counted from whole hours equal the whole days of the difference |
| Notifications.NotificationsPage.constructor | src/components/dashboard/pages/NotificationsPage.tsx:19-30 | the local list is the sample, nothing is shown yet, the filter is "all", loading |
| Notifications.NotificationsPage.Load | src/components/dashboard/pages/NotificationsPage.tsx:32-56 | for a user the shown list becomes the visible view of the local list; without a user nothing changes |
| Notifications.NotificationsPage.SetFilter | src/components/dashboard/pages/NotificationsPage.tsx:121-134 | the filter changes and the list reloads under it |
| Notifications.NotificationsPage.MarkAsRead | src/components/dashboard/pages/NotificationsPage.tsx:58-66 | the local list has that notification marked read, without a user check, and the list reloads |
| Notifications.NotificationsPage.MarkAllAsRead | src/components/dashboard/pages/NotificationsPage.tsx:68-76 | without a user nothing changes; otherwise everything is marked read and the list reloads |
| Notifications.NotificationsPage.Click | src/components/dashboard/pages/NotificationsPage.tsx:161 | clicking a read notification changes nothing; clicking an unread one marks it read, and then reloads the shown list and ends loading with a user, or leaves the list and loading flag as they were without one |
| Products.NextStatus | src/components/dashboard/pages/ProductsPage.tsx:54 | "inactive" iff the product was active, "active" for any other status |
| Products.NextStatusTwice | src/components/dashboard/pages/ProductsPage.tsx:54-56 | two switches restore an active or inactive product's status |
| Products.WithStatus | src/components/dashboard/pages/ProductsPage.tsx:56 | the products with that id take the new status, and every other is unchanged |
| Products.Shown | src/components/dashboard/pages/ProductsPage.tsx:66-70 | a product is shown iff its name contains the term ignoring case and its type is the chosen one, unless "all" is chosen |
| Products.NoFilterShowsAll | src/components/dashboard/pages/ProductsPage.tsx:66-70 | an empty search under "all" shows every product, in order |
| Products.ProductsPage.constructor | src/components/dashboard/pages/ProductsPage.tsx:30-33 | no products, empty search, type "all", loading |
| Products.ProductsPage.Load | src/components/dashboard/pages/ProductsPage.tsx:39-50 | without a user nothing changes; a response replaces the list and a failure keeps it |
| Products.ProductsPage.ToggleProductStatus | src/components/dashboard/pages/ProductsPage.tsx:52-64 | the new status is applied at once; a failed update reloads the list with a user, keeping the optimistic list when the reload fails, and loading ends; without a user the loading flag is unchanged |
| Products.ProductsPage.SetSearchTerm | src/components/dashboard/pages/ProductsPage.tsx:95-101 | only the search term changes |
| Products.ProductsPage.SetFilterType | src/components/dashboard/pages/ProductsPage.tsx:105-114 | only the type filter changes |
| Profile.InitialAvailability | src/components/onboarding/OnboardingPage.tsx:62-66 | seven days, day i has index i, is unavailable, and has the single slot 09:00-17:00 |
| Profile.InitialWellFormed | src/components/onboarding/ProfileSetup.tsx:52-56 | the initial week has seven days, each with a first slot |
| Profile.SetAvailable | src/components/onboarding/OnboardingPage.tsx:384-387 | only day i's availability flag changes |
| Profile.SetSlotStart | src/components/onboarding/OnboardingPage.tsx:400-403 | only day i's first slot start changes |
| Profile.SetSlotEnd | src/components/onboarding/OnboardingPage.tsx:411-414 | only day i's first slot end changes |
| Profile.EditsKeepWeekWellFormed | src/components/onboarding/OnboardingPage.tsx:384-414 | no edit takes a day's first slot away or changes the number of days |
| Profile.EmptyForm | src/components/onboarding/OnboardingPage.tsx:37-67 | the form opens with empty lists and a well-formed week |
| Seqs.Toggle | src/components/onboarding/OnboardingPage.tsx:132-136 | a present value is removed everywhere and other counts are kept; an absent value is appended at the end |
| Seqs.ToggleTwiceAbsent | src/components/onboarding/OnboardingPage.tsx:132-136 | toggling an absent value twice gives back the original list |
| Seqs.ToggleTwicePresent | src/components/onboarding/ProfileSetup.tsx:85-89 | toggling a present value twice leaves it once, at the end |
| Onboarding.DayToPayload | src/components/onboarding/OnboardingPage.tsx:110-117 | the day's index, flag and every slot are carried over one to one, in order |
| Onboarding.ToPayload | src/components/onboarding/OnboardingPage.tsx:88-120 | every day is mapped one to one, in order, and onboarding_completed is true |
| Onboarding.PayloadRoundTrip | src/components/onboarding/OnboardingPage.tsx:88-120 | reading the payload back gives the form again; only the specialisations are not sent |
| Onboarding.PayloadIgnoresSpecializations | src/components/onboarding/OnboardingPage.tsx:88-120 | the specialisations never reach the backend |
| Onboarding.SaveErrorMessage | src/components/onboarding/OnboardingPage.tsx:126 | the server's message when it gives one, otherwise "Failed to save profile. Please try again." |
| Onboarding.OnboardingPage.constructor | src/components/onboarding/OnboardingPage.tsx:33-67 | step 0, no error, the empty form |
| Onboarding.OnboardingPage.Next | src/components/onboarding/OnboardingPage.tsx:69-130 | below step 4 the step advances by one; on step 4 the payload is sent instead, so the step never passes 4; completion iff the save succeeds, otherwise the error message |
| Onboarding.OnboardingPage.Back | src/components/onboarding/OnboardingPage.tsx:78-82 | one step back, never below 0 |
| Onboarding.OnboardingPage.Toggle | src/components/onboarding/OnboardingPage.tsx:132-136 | only the toggled list changes |
| Onboarding.OnboardingPage.SetDayAvailable | src/components/onboarding/OnboardingPage.tsx:384-387 | only day i's flag changes |
| Onboarding.OnboardingPage.SetStartTime | src/components/onboarding/OnboardingPage.tsx:400-403 | only day i's first slot start changes |
| Onboarding.OnboardingPage.SetEndTime | src/components/onboarding/OnboardingPage.tsx:411-414 | only day i's first slot end changes |
| ProfileSetup.ProfileSetupWizard.constructor | src/components/onboarding/ProfileSetup.tsx:32-57 | step 0 and the empty form |
| ProfileSetup.ProfileSetupWizard.Next | src/components/onboarding/ProfileSetup.tsx:59-83 | below step 6 the step advances by one; on step 6 the wizard completes iff a user is signed in |
| ProfileSetup.ProfileSetupWizard.Back | src/components/onboarding/ProfileSetup.tsx:67-71 | one step back, never below 0 |
| ProfileSetup.ProfileSetupWizard.Toggle | src/components/onboarding/ProfileSetup.tsx:85-89 | only the toggled list changes |
| ProfileSetup.ProfileSetupWizard.SetDayAvailable | src/components/onboarding/ProfileSetup.tsx:337-341 | only day i's flag changes |
| ProfileSetup.ProfileSetupWizard.SetStartTime | src/components/onboarding/ProfileSetup.tsx:353-357 | only day i's first slot start changes |
| ProfileSetup.ProfileSetupWizard.SetEndTime | src/components/onboarding/ProfileSetup.tsx:364-368 | only day i's first slot end changes |
| App.RenderPage | src/App.tsx:120-139 | the home page is shown iff the key is "home" or unknown |
| App.RenderPageInjective | src/App.tsx:120-139 | two known keys show the same page only when they are the same key |
| App.DashboardWhen | src/App.tsx:56-145 | the dashboard shows iff nothing is loading and no earlier screen applies, which includes a signed-out visitor on the set-up or dashboard step |
| App.AuthFormsOnlySignedOut | src/App.tsx:80-106 | the login and sign-up forms show iff a signed-out visitor is on the auth step |
| App.AppContent.constructor | src/App.tsx:30-35 | the splash step, the login view, dialogs closed, not onboarded, the home page |
| App.AppContent.StatusChecked | src/App.tsx:37-54 | once loading ends, a signed-in user is onboarded and shown the dashboard |
| App.AppContent.SplashComplete | src/App.tsx:64-68 | the step becomes the carousel |
| App.AppContent.InfographicsDone | src/App.tsx:71-77 | completing or skipping the carousel moves to the auth step |
| App.AppContent.ShowSignUp | src/App.tsx:85 | only the auth view changes, to sign-up |
| App.AppContent.ShowLogin | src/App.tsx:90 | only the auth view changes, to login |
| App.AppContent.SetTermsOpen | src/App.tsx:92-99 | only the terms dialog flag changes |
| App.AppContent.SetPrivacyOpen | src/App.tsx:93-103 | only the privacy dialog flag changes |
| App.AppContent.AuthSuccess | src/App.tsx:86-91 | either form's success moves to profile set-up, which a not yet onboarded user then sees |
| App.AppContent.ProfileSetupComplete | src/App.tsx:109-118 | onboarding is completed and the dashboard shows |
| App.AppContent.ChangePage | src/App.tsx:142 | only the current page key changes |
| Infographics.TimerStep | src/components/onboarding/Infographics.tsx:37-42 | the slide stays within the three slides, advances by one, and wraps from the last to the first |
| Infographics.AfterTicks | src/components/onboarding/Infographics.tsx:37-42 | any number of ticks keeps the slide within the three slides |
| Infographics.TicksCycle | src/components/onboarding/Infographics.tsx:37-42 | every three ticks the carousel is back on its starting slide |
| Infographics.EverySlideReached | src/components/onboarding/Infographics.tsx:37-42 | every slide is reached from any other within two ticks |
| Infographics.Carousel.constructor | src/components/onboarding/Infographics.tsx:35 | the first slide |
| Infographics.Carousel.Tick | src/components/onboarding/Infographics.tsx:37-42 | one timer step |
| Infographics.Carousel.Next | src/components/onboarding/Infographics.tsx:44-50 | completes iff on the last slide, leaving it unchanged; otherwise advances exactly one slide |
| Infographics.Carousel.SelectDot | src/components/onboarding/Infographics.tsx:66-69 | dot i shows slide i |
| Education.Validate | src/components/dashboard/modals/EditEducationModal.tsx:65-73 | missing fields iff there is no user or the degree, institution or country is blank; end before start iff those pass and a set end year precedes a numeric start year, so a NaN start year lets any end year pass |
| Education.NaNStartAcceptsAnyEnd | src/components/dashboard/modals/EditEducationModal.tsx:70-73 | a complete form with a NaN start year passes the checks whatever its end year |
| Education.NewEntry | src/components/dashboard/modals/EditEducationModal.tsx:79-87 | the entry keeps the edited non-empty id, otherwise takes the fresh stamp; an empty or zero end year is dropped |
| Education.AcceptedEntryIsOrdered | src/components/dashboard/modals/EditEducationModal.tsx:65-87 | an accepted entry with numeric years never ends before it starts, and never lacks a degree or country |
| Education.UpdatedList | src/components/dashboard/modals/EditEducationModal.tsx:89-95 | editing replaces the entries with the edited id and keeps the length and every other entry; adding appends exactly one entry |
| Education.EditReplacesInPlace | src/components/dashboard/modals/EditEducationModal.tsx:89-92 | with unique ids, an edit puts the new entry in the old one's place and nowhere else |
| Education.EditOfMissingEntry | src/components/dashboard/modals/EditEducationModal.tsx:89-92 | an edit whose id matches nothing leaves the list unchanged |
| Education.SaveFailureMessage | src/components/dashboard/modals/EditEducationModal.tsx:103 | the server's message when it gives one, otherwise "Failed to save education" |
| Education.EditEducationModal.constructor | src/components/dashboard/modals/EditEducationModal.tsx:34-41 | empty text fields, the current year, no end year, no error |
| Education.EditEducationModal.Open | src/components/dashboard/modals/EditEducationModal.tsx:43-62 | the edited entry's fields, or empty fields with the current year and no end year; the error is cleared |
| Education.EditEducationModal.SetStartYear | src/components/dashboard/modals/EditEducationModal.tsx:178 | the parsed start year, NaN included, replaces the start year and nothing else changes |
| Education.EditEducationModal.SetEndYear | src/components/dashboard/modals/EditEducationModal.tsx:190 | the parsed end year, or none for an empty input, replaces the end year and nothing else changes |
| Education.EditEducationModal.Save | src/components/dashboard/modals/EditEducationModal.tsx:64-107 | a failed check sets its message, sends nothing and leaves the loading flag; otherwise the updated list is sent, and the dialog closes iff the request succeeds |
| License.ParseIsoDate | src/components/dashboard/modals/EditLicenseModal.tsx:63 | a parsed date is a valid calendar date read from a YYYY-MM-DD string |
| License.ParseIsoString | src/components/dashboard/modals/EditLicenseModal.tsx:63 | reading back a written date gives the date |
| License.ExpiryOrder | src/components/dashboard/modals/EditLicenseModal.tsx:63-66 | an expiry on the issue date is accepted, and two dates cannot each be before the other |
| License.Validate | src/components/dashboard/modals/EditLicenseModal.tsx:58-66 | missing fields iff there is no user, a blank type, authority or number, or an empty issue date; expiry too early iff those pass and a given expiry is before the issue date |
| License.NoExpiryNeverTooEarly | src/components/dashboard/modals/EditLicenseModal.tsx:63-66 | a complete form without an expiry date is accepted |
| License.EditLicenseModal.constructor | src/components/dashboard/modals/EditLicenseModal.tsx:30-36 | every field empty, no error |
| License.EditLicenseModal.Open | src/components/dashboard/modals/EditLicenseModal.tsx:38-55 | the edited license's fields, with a missing expiry as "", or every field ""; the error is cleared |
| License.EditLicenseModal.Save | src/components/dashboard/modals/EditLicenseModal.tsx:57-82 | the dialog closes iff the checks pass; otherwise the failed check's message is set and the loading flag is left as it was; the fields are unchanged |
| Certificate.Validate | src/components/dashboard/modals/EditCertificateModal.tsx:50-58 | missing fields iff there is no user or the title or issuer is blank; an invalid year iff those pass and the year is a number outside 1900 to next year, so a NaN year from an empty field passes |
| Certificate.AcceptedYears | src/components/dashboard/modals/EditCertificateModal.tsx:55-58 | a complete form is accepted iff its year is NaN or a number from 1900 to next year |
| Certificate.EditCertificateModal.constructor | src/components/dashboard/modals/EditCertificateModal.tsx:28-32 | empty title and issuer, the current year, no error |
| Certificate.EditCertificateModal.Open | src/components/dashboard/modals/EditCertificateModal.tsx:34-47 | the edited certificate's title, issuer and year, or empty fields with the current year; the error is cleared |
| Certificate.EditCertificateModal.SetYear | src/components/dashboard/modals/EditCertificateModal.tsx:120 | the parsed year, NaN included, replaces the year and nothing else changes |
| Certificate.EditCertificateModal.Save | src/components/dashboard/modals/EditCertificateModal.tsx:49-74 | the dialog closes iff the checks pass; otherwise the failed check's message is set and the loading flag is left as it was |
| SignUp.Check | src/components/onboarding/SignUpPage.tsx:37-45 | a mismatch iff the passwords differ; missing agreements iff they match and an agreement is unchecked |
| SignUp.MismatchFirst | src/components/onboarding/SignUpPage.tsx:37-45 | a mismatch is reported whatever the agreements are |
| SignUp.FailureMessage | src/components/onboarding/SignUpPage.tsx:52-58 | the thrown error's message, or the fixed default for anything else thrown |
| SignUp.SignUpForm.constructor | src/components/onboarding/SignUpPage.tsx:21-31 | empty fields, unchecked agreements, no error |
| SignUp.SignUpForm.Submit | src/components/onboarding/SignUpPage.tsx:33-61 | a failed check sets its message and requests nothing; otherwise sign-up is called once with the e-mail, password, name and phone, and its outcome sets the error; the fields are unchanged |
| Text.BlankIffAllWhitespace | src/components/dashboard/modals/EditEducationModal.tsx:65-68 | `!s.trim()` holds iff every character is whitespace |
| Text.ReplaceLeadingPrefix | backend/middleware/auth.js:11 | replacing a prefix the string starts with removes exactly that prefix |
| AuthMiddleware.MintToken | backend/routes/auth.js:16-19 | the token is "mock-jwt-token-" followed by the id |
| AuthMiddleware.BearerHeader | backend/middleware/auth.js:6-11 | the header is "Bearer " followed by the token |
| AuthMiddleware.NoBearerRefused | backend/middleware/auth.js:6-8 | a missing header, or one not starting with "Bearer ", gets the no-token 401 |
| AuthMiddleware.ForeignTokenRefused | backend/middleware/auth.js:19-21 | a bearer token without the mock prefix gets the invalid-token 401 |
| AuthMiddleware.TokenRoundTrip | backend/middleware/auth.js:11-18 | a minted token sent as a bearer header lets the request through as that id |
| AuthMiddleware.PassesOnlyWithMintedToken | backend/middleware/auth.js:1-25 | a request passes as an id iff its header is the bearer header of that id's minted token |
| AuthRoutes.FindByEmail | backend/routes/auth.js:10 | None iff no doctor has the e-mail; otherwise the first doctor with it |
| AuthRoutes.FindAppended | backend/routes/auth.js:28-41 | after a doctor with a new e-mail is saved, looking that e-mail up finds that doctor |
| AuthRoutes.LoginReply | backend/routes/auth.js:6-23 | 401 iff no doctor has the e-mail; otherwise 200 with that doctor and a token the middleware accepts as the doctor's id; the password is never read |
| AuthRoutes.DoctorStore.constructor | backend/models/Core.js:13-18 | a collection with unique ids and e-mails |
| AuthRoutes.DoctorStore.Login | backend/routes/auth.js:6-23 | the login reply for the e-mail, with the collection unchanged |
| AuthRoutes.DoctorStore.Signup | backend/routes/auth.js:25-50 | a known e-mail gets 400, and a taken id gets 500, both saving nothing; otherwise exactly one pending doctor is appended and 201 returned with its token, after which login finds that doctor; ids and e-mails stay unique |

## Left out

- Network and storage I/O is not modelled. This covers Supabase queries, the `api` client and localStorage; the outcome of each request is a parameter.
- `AuthContext` is not modelled. The signed-in user and its loading flag are parameters.
- Every `setTimeout` delay is left out.
- React's asynchronous batching of state updates is left out. Each handler is modelled as running to completion.
- The clock is not modelled. "Today", "now", the current hour and year, and `Date.now()` ids are parameters.
- Calendar.BookingsForDate: the cell's date is compared by day number. The code turns a local date into a UTC ISO string; that time-zone shift is not modelled.
- Bookings.FormatDate: the booking's date is compared with today by day number. The code parses "YYYY-MM-DD" as UTC midnight and compares local `toDateString()` values, so west of UTC a booking dated tomorrow reads "Today"; that time-zone shift is not modelled.
- FilterChats (Chats.FilterChats): the name and the term are lower-cased by `Text.ToLower`, which maps only the ASCII letters A-Z. JavaScript's `toLowerCase` covers all of Unicode, so a search for "é" lists "Élodie Martin" in the code but not in the model.
- Shown (Products.Shown): the same ASCII-only lower-casing, so a product name with non-ASCII capitals can match in the code and not in the model.
- EmailOfOneWordName (Bookings.EmailOfOneWordName): the name is lower-cased on ASCII letters only, so for a name with non-ASCII capitals the synthesised e-mail differs from the code's.
- EmailOfSplitName (Bookings.EmailOfSplitName): the same ASCII-only lower-casing of both parts of the name.
- Open (Bookings.BookingDetailsPage.Open): the synthesised e-mail it shows uses the ASCII-only lower-casing.
- Calendar.SlotBookings: a start time's hour is read from its leading digits. The leading whitespace and sign that `parseInt` also accepts are not modelled.
- Locale formatting is not modelled: `toLocaleDateString`, `toLocaleTimeString`, `toFixed` and `toLocaleString`. The labels stop at the chosen form: Bookings.FormatDate, Chats.ChatTimeLabel, Notifications.Age.
- Wallet.TryWithdraw: amounts are exact reals, and `parseFloat` is a parameter where None stands for NaN. Floating-point rounding is not modelled.
- Education.Validate: both years are `Option<int>`, with None for an empty end year and for NaN. How `parseInt` reads the input text is not modelled; it is a parameter of SetStartYear and SetEndYear.
- Education.AcceptedEntryIsOrdered: the end-not-before-start promise holds only for a numeric start year. The code saves an entry with a NaN start year and any end year, so no order can be promised there.
- Bookings.CalculateAge: the birth date is taken as an already-read calendar date. The code parses the "YYYY-MM-DD" string as UTC midnight and reads it with local getters, so west of UTC the birth date is the day before and a patient born "1990-07-22" counts a year older on 21 July. A date of birth that does not parse gives NaN in the code. Neither is modelled.
- Certificate.EditCertificateModal.SetYear: the year is `parseInt`'s result as `Option<int>`, with None for NaN; how `parseInt` reads the input text is a parameter.
- License.ParseIsoDate reads only the YYYY-MM-DD form a date input yields. Any other string is treated as an invalid date. JavaScript's lenient parsing of other formats is not modelled.
- The catch branches of the license and certificate dialogs are not modelled. The save there is only a delay, so they cannot run.
- The middleware's catch at backend/middleware/auth.js:22-24 is not modelled, because nothing in its try block throws.
- AuthRoutes.DoctorStore.Signup: the only database failure modelled is a clash on the unique id index (the 500 reply). Other outages behind the 500 replies at backend/routes/auth.js:20-22 and 47-49 are not modelled.
- Login's password is accepted and ignored, as in the code.
- AuthRoutes.DoctorStore.Signup: requests are handled one at a time. In the server two concurrent sign-ups with the same e-mail can both pass `findOne` before either saves, and the schema has no unique index on `email`, so the e-mail uniqueness the model keeps rests on that sequential handling. The profile route `PUT /profile` in backend/routes/doctors.js can also set any doctor's e-mail to one already taken; that route is not part of this model, and the model's unique e-mails assume no such update.
- Products.Product: the price is a real and is never computed with.
- The ProfileSetup form's `languages` list is not modelled. No step the model covers edits it.
- Profile.SetAvailable, Profile.SetSlotStart and Profile.SetSlotEnd: the wizards write into day objects shared with the previous form state. The model edits values, so that aliasing is not captured.
- Seqs.SortBy is a stable insertion sort standing in for `Array.prototype.sort` and the database's `order`. `Array.prototype.sort` is stable, as the model is. The database leaves the order of rows with equal keys unspecified, while Bookings.Query and Orders.Query keep such rows in input order.
- The sign-up form's input setters are not modelled. They only copy text into the fields.
- Display-only screens and UI primitives are not modelled, because they have no behaviour to state. This covers JSX, CSS, icons, the splash, terms, privacy, profile, settings and layout screens, Button and Input.
- EditProfileModal is not modelled. It is a single required-field check and a mock save.
- The sample data files are not part of this model.
- The Mongo plumbing is not modelled: the server bootstrap, the other backend routes, the schemas beyond the doctor's unique id, and the seed and diagnostic scripts.
- Booking overlap, availability and status-transition rules are not modelled, because the code has none.
