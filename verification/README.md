# HostPro web-hosting site: a Dafny model of its page logic

HostPro is a React single-page site for a web-hosting company. It has public
pages (home, hosting plans, domain search, contact) and a dashboard (services,
invoices, invoice details, profile, support). Almost all of it renders
hard-coded data. This project models the sequential logic spread through the
components, and proves what each piece promises:

- the toast notification queue: newest first, with unique increasing ids, and
  auto-dismiss only for positive durations;
- the services and invoices list filters, the per-type counts, the
  paid/unpaid/total sums, and the invoice lookup with tax and total;
- the string functions: `getInitials`, the sidebar's active-link rule, the
  domain base name, `trim`, `split(/\s+/)` and `includes`;
- the small state machines: support tickets, profile handlers, the contact
  form's submit cycle, plan prices and savings, the session flag, the route
  table and the top bar's logout and toggles.

Each source file is one module. They share `Optional` (absent values and
thrown errors), `Seqs` (`filter` and "subsequence of"), `Text` (JavaScript
string operations), `Records` (objects updated with `{...prev, [name]: value}`)
and `Palette` (colour and icon tags).

Conventions:

- Money is integer cents. `Math.round(x)` is `floor(x + 1/2)`, stated over
  integers.
- Case mapping is ASCII. Whitespace is the ECMAScript set that `trim` removes
  and `\s` matches.
- Timers become explicit events or inputs: toast expiry, contact-form
  `SubmitDone`/`ResetDone`, and the results of a domain search. The simulated
  request delays in Profile are collapsed into the state after the delay.
- `Math.random()` is a `real` input in [0, 1).
- Clock readings (`toLocaleString`, days remaining) are inputs.
- `localStorage` is the session's `storedToken` field, and navigation is a
  `location` field.

## Model

| member | source | states |
|---|---|---|
| `Toast.Show` | src/contexts/ToastContext.jsx:15-23 | the returned id is the previous counter plus one; the new toast is first and the old list follows unchanged (length + 1); omitted type is "success"; an expiry for this id is scheduled iff the duration (default 3000) is positive |
| `Toast.Remove` | src/contexts/ToastContext.jsx:11-13 | a toast survives iff its id differs from the removed one, and each survivor keeps its multiplicity; survivors keep their order (subsequence); the counter is untouched |
| `Toast.ShowKeepsWellFormed` | src/contexts/ToastContext.jsx:16-18 | showing keeps ids in [1, counter] and strictly decreasing from the head, and the new id is not already in the list |
| `Toast.IdsDistinct` | src/contexts/ToastContext.jsx:9-18 | in a well-formed queue, ids are pairwise distinct |
| `Toast.FilterKeepsDescending` | src/contexts/ToastContext.jsx:12 | filtering a list with strictly decreasing ids keeps them strictly decreasing |
| `Toast.RemoveKeepsWellFormed` | src/contexts/ToastContext.jsx:11-13 | removal keeps the queue well-formed |
| `Toast.RemoveAbsent` | src/contexts/ToastContext.jsx:12 | removing an id no toast has changes nothing |
| `Toast.RemoveIdempotent` | src/contexts/ToastContext.jsx:12 | removing twice equals removing once |
| `Toast.RemoveUndoesShow` | src/contexts/ToastContext.jsx:11-18 | removing the toast just shown restores the previous list |
| `Toast.ReplayKeepsWellFormed` | src/contexts/ToastContext.jsx:9-23 | every sequence of show/remove calls keeps the queue well-formed, so ids stay unique in every reachable state |
| `Toast.ReplayIdsIncrease` | src/contexts/ToastContext.jsx:16 | the ids returned by successive shows are strictly increasing and greater than the starting counter |
| `Toast.StaysUntilRemoved` | src/contexts/ToastContext.jsx:19-21 | a toast stays in the list through any calls that do not remove its id (a zero-duration toast is never removed by a timer) |
| `Toast.StyleFor` | src/contexts/ToastContext.jsx:36-41 | success style iff type "success", error style iff "error", info style for every other type |
| `Toast.OmittedKindIsSuccess` | src/contexts/ToastContext.jsx:15 | a toast shown without a type renders in the success style |
| `Toast.UseToast` | src/contexts/ToastContext.jsx:57-63 | succeeds with the provider's value iff one exists; otherwise fails with the "must be used within a ToastProvider" message |
| `Toast.TwoToastScenario` | src/contexts/ToastContext.jsx:15-22 | a default toast then a zero-duration error toast: only the first gets an expiry, the list is newest first, expiry then close empties it |
| `Services.FilteredServices` | src/pages/dashboard/Services.jsx:66-71 | a service is kept iff the search term is a case-insensitive substring of its name or domain, and the status and type filters are "all" or equal; a kept service appears as often as in the list, a dropped one not at all; the result is an order-preserving subsequence |
| `Services.InitialQueryListsAll` | src/pages/dashboard/Services.jsx:67-69 | empty search with both filters "all" returns the whole list |
| `Services.NarrowingStatusNeverAdds` | src/pages/dashboard/Services.jsx:68 | a specific status filter keeps a subsequence of what "all" keeps |
| `Services.TypeCount` | src/pages/dashboard/Services.jsx:241-256 | each summary count is the multiplicity of that type among all services, whatever the filters |
| `Services.CountIsMultiplicity` | src/pages/dashboard/Services.jsx:241 | the length of the type filter equals the type's multiplicity in the list |
| `Services.StatusTone` | src/pages/dashboard/Services.jsx:73-81 | green, yellow and red exactly for Active, Pending and Suspended; every other status, Expired included, is grey |
| `Invoices.FilteredInvoices` | src/pages/dashboard/Invoices.jsx:99-105 | an invoice is kept iff the search term is a case-insensitive substring of its id or service and the status filter is "all" or equal; a kept invoice appears as often as in the list, a dropped one not at all; order is preserved |
| `Invoices.EmptyQueryListsAll` | src/pages/dashboard/Invoices.jsx:99-105 | empty search with status "all" returns the whole list |
| `Invoices.AmountSumConcat` | src/pages/dashboard/Invoices.jsx:152 | the amount sum is additive over concatenation |
| `Invoices.PaidPlusUnpaidIsTotal` | src/pages/dashboard/Invoices.jsx:152-154 | paid amount plus unpaid amount equals the total, in cents |
| `Invoices.AddingAnInvoice` | src/pages/dashboard/Invoices.jsx:153-154 | an appended invoice adds to the paid sum iff its status is "Paid", otherwise to the unpaid sum (Unpaid, Pending and Overdue alike) |
| `Invoices.SummaryOf` | src/pages/dashboard/Invoices.jsx:152-154 | the count is the full list length, the total is the sum of all amounts, and paid + unpaid = total |
| `Invoices.AmountsAreFolds` | src/pages/dashboard/Invoices.jsx:153-154 | filtering by status and then summing gives the same figure as one pass that adds only the matching amounts, for the paid and for the outstanding sum |
| `Invoices.FiveInvoiceAmounts` | src/pages/dashboard/Invoices.jsx:153-154 | for any five invoices whose statuses are Paid, other, Paid, other, other, the paid figure is the first plus the third amount and the outstanding figure the sum of the rest |
| `Invoices.MockStatuses` | src/pages/dashboard/Invoices.jsx:30-81 | of the five mock invoices the first and third are "Paid" and the others are not |
| `Invoices.MockSummary` | src/pages/dashboard/Invoices.jsx:199-223 | for the five mock invoices: 5 invoices, $337.95 total, $62.98 paid, $274.97 outstanding |
| `Invoices.RowExtrasOf` | src/pages/dashboard/Invoices.jsx:293-305 | the days line and pay button appear iff the status is not "Paid"; the word is "overdue" iff days < 0, else "remaining" |
| `InvoiceDetails.FirstWithId` | src/pages/dashboard/InvoiceDetails.jsx:77 | `find` returns the first index with the id, or nothing when no invoice has it |
| `InvoiceDetails.Lookup` | src/pages/dashboard/InvoiceDetails.jsx:77 | the result is a list element: the first invoice with the id, else the first invoice |
| `InvoiceDetails.UnknownIdFallsBack` | src/pages/dashboard/InvoiceDetails.jsx:77 | an id not in the mock list shows the first mock invoice |
| `InvoiceDetails.SubtotalConcat` | src/pages/dashboard/InvoiceDetails.jsx:79 | the subtotal of quantity × unit price is additive over item lists |
| `InvoiceDetails.Tax` | src/pages/dashboard/InvoiceDetails.jsx:80 | the tax is 10% of the subtotal rounded half up to the cent |
| `InvoiceDetails.TotalsOf` | src/pages/dashboard/InvoiceDetails.jsx:79-81 | subtotal is the item sum; tax is within half a cent of 10% of it; total = subtotal + tax |
| `InvoiceDetails.MockTotals` | src/pages/dashboard/InvoiceDetails.jsx:23-36 | the second mock invoice: subtotal $109.98, tax $11.00, total $120.98 |
| `InvoiceDetails.BadgeTone` | src/pages/dashboard/InvoiceDetails.jsx:39-53 | green, yellow, red, blue exactly for Paid, Unpaid, Overdue, Pending; grey otherwise |
| `InvoiceDetails.StatusIcon` | src/pages/dashboard/InvoiceDetails.jsx:55-64 | check iff Paid, alert iff Overdue, clock for every other status |
| `InvoiceDetails.OffersPayNow` | src/pages/dashboard/InvoiceDetails.jsx:207 | "Pay Now" is offered iff the status is not Paid, which is iff the icon is not the check mark |
| `Support.TicketNumber` | src/pages/dashboard/Support.jsx:69 | for a draw in [0,1) the number is in [1000, 9999] and is the floor of 1000 + 9000 × draw |
| `Support.TicketIdShape` | src/pages/dashboard/Support.jsx:69 | the id is "TCK-" followed by four digits whose value is the ticket number, in [1000, 9999] |
| `Support.CreateTicket` | src/pages/dashboard/Support.jsx:66-83 | for a form whose required subject and message are filled, the new ticket is prepended with the form's subject, department and priority, status "Open", the creation and last-update timestamps (two separate clock readings); the old tickets follow unchanged; the form is reset to "", "Technical", "Medium", ""; one success notice is raised |
| `Support.CreatedFormCannotResubmit` | src/pages/dashboard/Support.jsx:78-141 | the reset form leaves the required subject and message blank, so the browser blocks a second submit until they are typed again |
| `Support.NewIdCanRepeat` | src/pages/dashboard/Support.jsx:69 | ids are not checked for uniqueness: for any filled form, a draw of 1/9000 gives a second "TCK-1001" next to the mock ticket with that id |
| `Support.FirstDrawId` | src/pages/dashboard/Support.jsx:69 | a draw of 1/9000 yields the number 1001 and the id "TCK-1001" |
| `Support.TicketTone` | src/pages/dashboard/Support.jsx:37-49 | yellow, blue, green exactly for Open, Answered, Closed; grey otherwise |
| `Support.NewTicketIsYellow` | src/pages/dashboard/Support.jsx:73 | a new ticket wears the Open colour |
| `Home.Initials` | src/pages/Home.jsx:114-119 | at most two characters |
| `Home.FirstTwoInitials` | src/pages/Home.jsx:116-118 | one character per non-empty word among the first two; the first is the upper-cased first letter of word one, the last the upper-cased first letter of word two |
| `Home.TwoNonEmptyWords` | src/pages/Home.jsx:116-118 | with two non-empty words, the result is both first letters in upper case |
| `Home.BlankNameHasNoInitials` | src/pages/Home.jsx:115-117 | an empty or whitespace-only name gives "" |
| `Home.OneWordInitial` | src/pages/Home.jsx:115-118 | a one-word name gives its first letter in upper case |
| `Home.TwoWordsInitials` | src/pages/Home.jsx:115-118 | for two or more words, the upper-cased first letters of the first two; later words are ignored |
| `Home.PaddingIgnored` | src/pages/Home.jsx:115 | leading and trailing whitespace does not change the initials |
| `Home.GradientIndex` | src/pages/Home.jsx:428 | `index % clientGradients.length` is always a valid index of the six gradients, and the first six cards take them in order |
| `Home.GradientsCycle` | src/pages/Home.jsx:428 | card `i` and card `i + 6` get the same gradient |
| `Sidebar.ActiveNames` | src/components/dashboard/DashboardSidebar.jsx:82-87 | a name is highlighted iff some navigation item with that name is active: the "/dashboard" item only on exactly "/dashboard", every other item when its path is a string prefix of the location |
| `Sidebar.OverviewHighlightsOnlyDashboard` | src/components/dashboard/DashboardSidebar.jsx:82-87 | on "/dashboard" only "Dashboard" is highlighted, although every item path starts with it |
| `Sidebar.InvoiceDetailHighlightsInvoices` | src/components/dashboard/DashboardSidebar.jsx:82-87 | on "/dashboard/invoices/<id>" exactly "Invoices" is highlighted, not "Dashboard" |
| `Sidebar.PrefixIgnoresSegments` | src/components/dashboard/DashboardSidebar.jsx:86 | "/dashboard/servicesX" activates Services: the prefix test ignores segment boundaries |
| `Sidebar.CollapseTwiceRestores` | src/components/dashboard/DashboardSidebar.jsx:104 | two clicks restore it |
| `Sidebar.ShownQuickActions` | src/components/dashboard/DashboardSidebar.jsx:168-171 | the collapsed bar shows a prefix of length min(4, number of actions); the open bar shows all |
| `Sidebar.CollapseShowsFirstFour` | src/components/dashboard/DashboardSidebar.jsx:104-171 | collapsing an open bar shows the first four quick actions; expanding shows them all |
| `DomainSearch.ResultsFor` | src/pages/DomainSearch.jsx:44-63 | one result per extension in order; domain = base + extension; price and popular copied; available iff the draw exceeds 0.3; four features iff available, otherwise none |
| `DomainSearch.SearchResults` | src/pages/DomainSearch.jsx:37-67 | a search yields one result per popular extension, each named after the text before the first '.' |
| `DomainSearch.HandleSearch` | src/pages/DomainSearch.jsx:69-74 | a search starts iff the trimmed input is non-empty, and it receives the trimmed input |
| `DomainSearch.SearchRequestIsTrimmed` | src/pages/DomainSearch.jsx:71-72 | the name searched is non-empty and neither starts nor ends with whitespace |
| `DomainSearch.SuggestionClick` | src/pages/DomainSearch.jsx:76-80 | the input becomes its text before the first '.' plus the suggestion, and that string is searched |
| `DomainSearch.SuggestionResults` | src/pages/DomainSearch.jsx:44-80 | after a suggestion without '.', every result is the old base, the suggestion and the extension |
| `DomainSearch.SearchFinished` | src/pages/DomainSearch.jsx:64-66 | when the delay ends the results are shown and searching stops |
| `DomainSearch.SearchButton` | src/pages/DomainSearch.jsx:137-140 | the button is disabled and reads "Searching..." exactly while searching |
| `DomainSearch.StatusText` | src/pages/DomainSearch.jsx:90-92 | "Available" iff available, "Taken" iff not |
| `DomainSearch.StatusTone` | src/pages/DomainSearch.jsx:82-96 | green iff available, red iff not |
| `DomainSearch.ShownSuggestions` | src/pages/DomainSearch.jsx:145-156 | no suggestions while the input is empty; otherwise exactly eight, the first eight of the list |
| `DomainSearch.SuggestionsFollowInput` | src/pages/DomainSearch.jsx:16-156 | the fresh page shows no suggestions; after a suggestion is clicked the first eight are shown |
| `HostingPlans.PriceSuffix` | src/pages/HostingPlans.jsx:218 | "mo" iff monthly, "yr" for yearly |
| `HostingPlans.Savings` | src/pages/HostingPlans.jsx:133-139 | 0 unless yearly; for yearly it is round(100 × (12·monthly − yearly) / (12·monthly)), rounded half up; there is no number when the monthly price is 0 |
| `HostingPlans.SavingsBounded` | src/pages/HostingPlans.jsx:135-137 | the yearly saving is at most 100%, and not negative when yearly ≤ 12 × monthly |
| `HostingPlans.SavingsNoteIff` | src/pages/HostingPlans.jsx:129-221 | the "Save N%" note shows iff the yearly price (`getPrice` for yearly) is at most 99.5% of twelve monthly prices |
| `HostingPlans.MonthlyHasNoNote` | src/pages/HostingPlans.jsx:221 | monthly billing never shows the note |
| `HostingPlans.PlanSavings` | src/pages/HostingPlans.jsx:22-111 | the four plans save 16, 17, 17 and 17%, so each shows the note and stays within the advertised "up to 20%" |
| `HostingPlans.YearlyUndercutsMonthly` | src/pages/HostingPlans.jsx:22-131 | for every plan the displayed yearly price is below twelve displayed monthly prices, and the savings note is shown |
| `HostingPlans.FeatureCell` | src/pages/HostingPlans.jsx:239-245 | a check mark iff the value is truthy; `true` reads "Yes", `false` or missing reads nothing, counts and texts are shown as they are |
| `HostingPlans.MissingFeatureIsCrossed` | src/pages/HostingPlans.jsx:239 | a missing feature is crossed out and labelled with nothing |
| `HostingPlans.PlansAreComplete` | src/pages/HostingPlans.jsx:22-127 | every plan defines every feature row, and only Professional is marked popular |
| `Profile.InputChange` | src/pages/dashboard/Profile.jsx:71-77 | only the named profile field is set; every other field and all other state are unchanged |
| `Profile.PasswordChange` | src/pages/dashboard/Profile.jsx:79-85 | only the named password field is set |
| `Profile.SecurityChange` | src/pages/dashboard/Profile.jsx:94-99 | only the named security setting is set, to the given value |
| `Profile.NotificationChange` | src/pages/dashboard/Profile.jsx:87-92 | exactly the named switch flips (a missing one becomes on); nothing else changes |
| `Profile.ToggleTwiceRestores` | src/pages/dashboard/Profile.jsx:87-92 | toggling an existing switch twice restores the state |
| `Profile.ToggleAbsentTwice` | src/pages/dashboard/Profile.jsx:87-92 | toggling a missing key twice leaves it present and off |
| `Profile.StartEditing` | src/pages/dashboard/Profile.jsx:247 | "Edit Profile" enters editing mode and changes nothing else |
| `Profile.CancelEditing` | src/pages/dashboard/Profile.jsx:255 | "Cancel" leaves editing mode and changes nothing else |
| `Profile.SaveProfile` | src/pages/dashboard/Profile.jsx:101-106 | saving ends editing mode and changes nothing else |
| `Profile.CancelKeepsEdits` | src/pages/dashboard/Profile.jsx:71-77 | cancel does not revert: an edited field keeps its new value |
| `Profile.EditingUnlocksFields` | src/pages/dashboard/Profile.jsx:247-280 | the profile inputs are enabled after "Edit Profile" and disabled after save or cancel; typing does not change whether they are |
| `Profile.StartPasswordChange` | src/pages/dashboard/Profile.jsx:369 | "Change Password" opens the password fields and changes nothing else |
| `Profile.CancelPasswordChange` | src/pages/dashboard/Profile.jsx:377 | the password "Cancel" closes them and changes nothing else |
| `Profile.CancelKeepsPasswordFields` | src/pages/dashboard/Profile.jsx:369-377 | cancelling the password change does not clear what was typed: reopening shows it again |
| `Profile.ChangePassword` | src/pages/dashboard/Profile.jsx:108-119 | rejected with "New passwords do not match" iff new and confirm differ (state kept); otherwise all three fields become "" and changing mode ends, nothing else changes |
| `Profile.CurrentPasswordIgnored` | src/pages/dashboard/Profile.jsx:108-119 | the outcome does not depend on the current-password field |
| `Profile.MatchingPasswordsAccepted` | src/pages/dashboard/Profile.jsx:109 | a new password typed identically twice is always accepted |
| `Profile.SpaceBeforeCapitals` | src/pages/dashboard/Profile.jsx:534 | `replace(/([A-Z])/g, ' $1')` never shortens |
| `Profile.SpaceBeforeOneChar` | src/pages/dashboard/Profile.jsx:534 | a single capital gains a space in front; any other character is left alone |
| `Profile.SpaceBeforeCapitalsCons` | src/pages/dashboard/Profile.jsx:534 | the replacement treats the first character on its own and the rest independently |
| `Profile.NoCapitalsKept` | src/pages/dashboard/Profile.jsx:534 | text without capitals is returned unchanged |
| `Profile.SpaceBeforeCapitalsConcat` | src/pages/dashboard/Profile.jsx:534 | the replacement works piecewise over concatenation |
| `Profile.CapitalizeFirst` | src/pages/dashboard/Profile.jsx:534 | only the first character changes, and only its case |
| `Profile.NotificationDescriptionAsWritten` | src/pages/dashboard/Profile.jsx:537 | the description as written is the key in lower case, with no space inserted |
| `Profile.NotificationDescription` | src/pages/dashboard/Profile.jsx:534-537 | the corrected description is the title in lower case |
| `Profile.CapitalAddsSpace` | src/pages/dashboard/Profile.jsx:534 | a key with a capital letter grows when spaced |
| `Profile.DescriptionLosesSpaces` | src/pages/dashboard/Profile.jsx:537 | for every key with a capital, the description as written is shorter than the corrected one |
| `Profile.EmailNotificationsRunTogether` | src/pages/dashboard/Profile.jsx:47-54 | the first switch's written description differs from the corrected one |
| `Contact.InputChange` | src/pages/Contact.jsx:77-83 | only the named form field is set; the flags are unchanged |
| `Contact.Submit` | src/pages/Contact.jsx:85-87 | submitting starts; the form is kept |
| `Contact.SubmitDone` | src/pages/Contact.jsx:92-93 | after the delay submitting is false and submitted is true |
| `Contact.ResetDone` | src/pages/Contact.jsx:96-99 | after the reset timer submitted is false and the four fields are "" |
| `Contact.SendButton` | src/pages/Contact.jsx:220-230 | the button is disabled and reads "Sending Message..." exactly while submitting |
| `Contact.StepKeepsConsistent` | src/pages/Contact.jsx:85-100 | no possible event makes the form both in flight and thanked for |
| `Contact.RunKeepsConsistent` | src/pages/Contact.jsx:85-100 | the same holds along every sequence of possible events |
| `Contact.SendCycle` | src/pages/Contact.jsx:85-100 | from idle with the four required fields filled: Send shows no thank-you panel yet, the returned request shows it, and the reset timer returns to idle with a blank form and the form on screen again |
| `Contact.BlankFormCannotBeSent` | src/pages/Contact.jsx:153-211 | the required fields block sending the blank initial form |
| `App.Startup` | src/App.jsx:26-32 | the flag becomes true iff it was true or the stored token is a non-empty string; the check never sets it false |
| `App.StartupFromInitial` | src/App.jsx:24-32 | after startup the flag is true iff a non-empty token is stored |
| `App.EmptyTokenIgnored` | src/App.jsx:29-30 | an empty stored token leaves the session unchanged |
| `App.StartupIdempotent` | src/App.jsx:26-32 | running the startup effect twice is running it once |
| `App.RoutePatternsDistinct` | src/App.jsx:44-82 | the 13 route paths are pairwise distinct |
| `App.GuardedIffDashboard` | src/App.jsx:44-82 | a route is guarded iff its path starts with "/dashboard" |
| `App.PublicRoutesUnguarded` | src/App.jsx:44-50 | the unguarded routes are exactly /, /hosting-plans, /domain-search, /about, /contact, /login, /register |
| `App.Resolve` | src/App.jsx:42-83 | the first route whose path pattern matches, or none when no route does; by `App.AtMostOneRouteMatches` this is the route React Router ranks first |
| `App.ResolveFirstMatch` | src/App.jsx:42-83 | conversely, a route that matches when no earlier route does is the one resolved |
| `App.InvoiceIdResolves` | src/App.jsx:68-72 | every single-segment invoice id reaches the guarded invoice details page |
| `App.OnlyInvoiceRouteHasParam` | src/App.jsx:44-82 | "/dashboard/invoices/:id" is the only pattern with a parameter, and every static pattern is shorter than its prefix "/dashboard/invoices/" |
| `App.AtMostOneRouteMatches` | src/App.jsx:42-83 | no path matches two routes, so the router's specificity ranking and first-match agree |
| `App.GuardFollowsPath` | src/App.jsx:53-82 | the page a path resolves to is wrapped in the guard, with the current flag, iff the path starts with "/dashboard"; otherwise it is rendered directly |
| `Navbar.Logout` | src/components/layout/Navbar.jsx:23-28 | the stored token is removed, the flag is false, the location is "/", and the dropdown is closed; the mobile menu is untouched |
| `Navbar.LogoutIdempotent` | src/components/layout/Navbar.jsx:23-28 | logging out twice equals logging out once |
| `Navbar.LogoutSurvivesReload` | src/components/layout/Navbar.jsx:24 | after logout a fresh startup stays logged out |
| `Navbar.ToggleDropdown` | src/components/layout/Navbar.jsx:94 | the account button flips the dropdown and nothing else |
| `Navbar.ToggleMenu` | src/components/layout/Navbar.jsx:137 | the menu button flips the mobile menu and nothing else |
| `Navbar.TogglesAreInvolutions` | src/components/layout/Navbar.jsx:94-137 | two clicks on either button restore the bar |
| `Navbar.ChooseDropdownLink` | src/components/layout/Navbar.jsx:110-113 | a dashboard link navigates and closes the dropdown |
| `Navbar.ChooseMenuLink` | src/components/layout/Navbar.jsx:150-176 | a mobile link navigates and closes the menu |
| `Navbar.LogoutShowsLoginLinks` | src/components/layout/Navbar.jsx:23-28 | after logout the login links are back and the dropdown is gone |
| `Navbar.MobileLogoutKeepsMenu` | src/components/layout/Navbar.jsx:184 | a logout from the mobile menu leaves the menu open, now showing the mobile login links |
| `Navbar.StoredTokenHidesLoginLinks` | src/App.jsx:24-32 | on a fresh load the desktop login links are hidden iff a non-empty token is stored; the dropdown and the mobile menu with its login links are closed |
| `Navbar.AccountButtonShowsDropdown` | src/components/layout/Navbar.jsx:82-102 | for a logged-in user the account button shows or hides the dropdown; a visitor sees the login links and never the dropdown |
| `Navbar.DropdownLinkClosesDropdown` | src/components/layout/Navbar.jsx:102-113 | following a dropdown link hides the dropdown and leaves the login links as they were |
| `Records.SetField` | src/pages/dashboard/Profile.jsx:73-76 | `{...prev, [name]: value}` sets the named key and keeps every other key and value |
| `Records.SetFieldTwice` | src/pages/Contact.jsx:79-82 | setting a field twice keeps the second value |
| `Records.SetFieldCommutes` | src/pages/Contact.jsx:79-82 | edits to different fields commute |
| `Seqs.Filter` | src/pages/dashboard/Services.jsx:66 | `filter` keeps a value iff it satisfies the predicate, in the input's order (a subsequence); how often each value is kept is `Seqs.FilterCounts` |
| `Seqs.FilterCounts` | src/contexts/ToastContext.jsx:12 | every value that satisfies the predicate occurs in the result exactly as often as in the input; every other value does not occur |
| `Seqs.SubsequenceOfSelf` | src/pages/dashboard/Services.jsx:66 | every list is a subsequence of itself |
| `Seqs.FilterKeepsAll` | src/pages/dashboard/Services.jsx:66-70 | a predicate every element satisfies filters nothing out |
| `Seqs.FilterIdempotent` | src/contexts/ToastContext.jsx:12 | filtering twice equals filtering once |
| `Seqs.FilterConcat` | src/pages/dashboard/Invoices.jsx:153 | filtering distributes over concatenation |
| `Seqs.FilterNarrower` | src/pages/dashboard/Services.jsx:68 | a stricter predicate keeps a subsequence of what a looser one keeps |
| `Text.OccurrenceIsIncluded` | src/pages/dashboard/Services.jsx:67 | an occurrence at any position makes `includes` true |
| `Text.IncludedHasOccurrence` | src/pages/dashboard/Services.jsx:67 | `includes` is true only where the term occurs |
| `Text.IncludesIffOccurs` | src/pages/dashboard/Services.jsx:67 | `includes` holds iff the term occurs at some position |
| `Text.EmptyTermMatches` | src/pages/dashboard/Invoices.jsx:100-101 | an empty search term matches every string |
| `Text.TrimStart` | src/pages/Home.jsx:115 | the result is a suffix, the dropped prefix is whitespace, and it does not start with whitespace |
| `Text.TrimEnd` | src/pages/Home.jsx:115 | the result is a prefix, the dropped suffix is whitespace, and it does not end with whitespace |
| `Text.TrimCharacterised` | src/pages/DomainSearch.jsx:71 | `trim` returns a trimmed slice with only whitespace cut from both ends |
| `Text.TrimBounds` | src/pages/DomainSearch.jsx:71 | gives the two cut points: `trim` keeps `s[i..j]` with only whitespace before `i` and after `j` |
| `Text.TrimIdempotent` | src/pages/DomainSearch.jsx:71-72 | a trimmed string is its own trim, so trimming twice is trimming once |
| `Text.TrimStartPadded` | src/pages/Home.jsx:115 | leading whitespace is ignored by `trimStart` |
| `Text.TrimEndPadded` | src/pages/Home.jsx:115 | trailing whitespace is ignored by `trimEnd` |
| `Text.TrimPadded` | src/pages/Home.jsx:115 | whitespace added at either end does not change `trim` |
| `Text.TrimBlank` | src/pages/Home.jsx:115 | an all-whitespace string trims to "" |
| `Text.FirstSpace` | src/pages/Home.jsx:115 | the position of the first whitespace character, or the length |
| `Text.SplitOnSpaces` | src/pages/Home.jsx:115 | `split(/\s+/)` always yields at least one piece |
| `Text.SplitTrimmedGivesWords` | src/pages/Home.jsx:115 | on a non-empty trimmed string every piece is a non-empty word without whitespace |
| `Text.SplitFirstWord` | src/pages/Home.jsx:115-116 | the first piece is the text up to the first whitespace |
| `Text.SplitSingleWord` | src/pages/Home.jsx:115-116 | a word without whitespace splits into itself alone |
| `Text.BeforeFirstDot` | src/pages/DomainSearch.jsx:44 | `split('.')[0]` is the prefix before the first '.', or the whole string without one |
| `Text.BeforeFirstDotNoDot` | src/pages/DomainSearch.jsx:44 | a string without '.' is its own base name |
| `Text.BeforeFirstDotIdempotent` | src/pages/DomainSearch.jsx:44-77 | taking the base name twice equals taking it once |
| `Text.BeforeFirstDotAppend` | src/pages/DomainSearch.jsx:77 | the base name of a dot-free prefix followed by more text is the prefix followed by that text's base name |
| `Text.Decimal` | src/pages/dashboard/Support.jsx:69 | the decimal digits of a number, no leading zero, reading back as the number |
| `Text.DecimalAppend` | src/pages/dashboard/Support.jsx:69 | appending a digit to a positive number appends its character to the decimal text |
| `Text.DecimalFourDigits` | src/pages/dashboard/Support.jsx:69 | numbers from 1000 to 9999 have exactly four digits |

## Left out

- JSX rendering, CSS class strings and framer-motion animations are left out. Only the colour family or icon a value selects is kept (`Palette`).
- Timer delays are not modelled as time: toast expiry is a `Remove` of its id. The contact form's request and reset are events. Domain search's completion is `SearchFinished`. The Profile save and password delays are collapsed into the state after them, so what the user does during the delay is not interleaved.
- The loading spinners' timers (Profile, Support, Services, Invoices) are presentation delays with no logic.
- `Math.random()` is a real-valued input. `Date`, `toLocaleString` and `calculateDaysRemaining` depend on the wall clock and locale, so the timestamp and the days remaining are inputs.
- Floating-point prices: money is integer cents, and rounding is stated exactly. IEEE-754 rounding effects in `Math.round(subtotal * 0.1 * 100) / 100` and in the savings ratio are not modelled.
- Unicode case mapping is ASCII only.
- `localStorage` is the session's `storedToken`. react-router navigation is the `location` field. Route matching handles the one `:id` parameter but not trailing slashes or case-insensitive matching.
- `ProtectedRoute`, `ThemeContext`, Login and Register are not part of this model: their source is not available, so what the guard renders is represented only by the flag it receives.
- CustomCursor, About, Footer and Dashboard are static content or mouse-cursor effects.
- `alert()`: the password mismatch alert is returned as the failure message.
- The toast markup shows the title and description only when truthy; that is presentation.
- Services and Invoices: the icon and type-colour switches (`getStatusIcon`, `getTypeIcon`, `getTypeColor`), dates and prices in the rows are presentation. The search and filter setters just store their input.
- Support: the form field setters just store their input.
- HostingPlans: the comparison table's "✓" variant of the feature label (line 293) is not modelled separately; it follows the same truthiness rule as `FeatureCell`.
- Profile: the active tab switch and the selected security values' parsing (`parseInt` of fixed options) are not modelled.
- DomainSearch: the unused `selectedTLDs` state is not modelled.
- `Home.Initials`: its contract only bounds the length. What the result is (blank, one word, two or more words, padding) is stated by the lemmas `Home.BlankNameHasNoInitials`, `Home.OneWordInitial`, `Home.TwoWordsInitials` and `Home.PaddingIgnored`.
- `Sidebar.ActiveNames`: its contract states which names are highlighted but not their order. The order is proved for the overview and invoice detail paths in `Sidebar.OverviewHighlightsOnlyDashboard` and `Sidebar.InvoiceDetailHighlightsInvoices`.
- Contact: the browser's `type="email"` syntax check is not modelled; a filled email field counts as valid. `required` is modelled as "not the empty string", which is what blocks the submit.
- `Profile.SpaceBeforeCapitals`: its own contract only bounds the length. What it produces is stated by `Profile.SpaceBeforeOneChar`, `Profile.SpaceBeforeCapitalsCons`, `Profile.SpaceBeforeCapitalsConcat` and `Profile.NoCapitalsKept`.
- `Seqs.Filter`: its own contract gives membership and order but not multiplicity. Multiplicity is stated by the lemma `Seqs.FilterCounts`, which the contracts of `Toast.Remove`, `Services.FilteredServices` and `Invoices.FilteredInvoices` use.
- `Text.SplitOnSpaces`: its contract says only that at least one piece is produced. The pieces themselves are stated by the split lemmas.

## Findings

| source | as written | input that shows it | evidently intended | confidence | as-written member | corrected member |
|---|---|---|---|---|---|---|
| src/pages/dashboard/Profile.jsx:537 | `key.toLowerCase().replace(/([A-Z])/g, ' $1')`: the key is lower-cased first, so no capital remains and no space is ever inserted | key "emailNotifications" gives "Receive notifications about emailnotifications" | lower-case the spaced title: "email notifications" | high (not executed) | `Profile.NotificationDescriptionAsWritten` | `Profile.NotificationDescription` |

`Profile.DescriptionLosesSpaces` proves the discrepancy for every key with a capital letter, and `Profile.EmailNotificationsRunTogether` proves it for the page's first switch. The corrected description is proved to equal the switch's title in lower case.
