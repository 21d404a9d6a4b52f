# Shipment lifecycle of the MapFleet logistics dashboard, in Dafny

The dashboard lets customers create shipments (after a card payment), follow
them by tracking code, and see their own list and counters. Administrators set
the status and the driver of any shipment and manage the driver roster. This
project models the rules those pages implement:

- **Status updates.** The administrators' update writes the status, the
  driver and `updatedAt`. It stamps `transitDate` / `deliveryDate` only the
  first time the matching status is chosen, never clears a stamp, and
  rewrites exactly the listed entry with the shipment's id (`Lifecycle`,
  `AdminShipments`).
- **Tracking codes and creation.** A code is `TRK` plus the six-digit,
  zero-padded decimal of a draw in [0, 1000000). Codes decode back to their
  draw. The creation form and the payment button both store a new `pending`
  shipment (`TrackingCodes`, `CreateShipment`, `PaymentButton`).
- **Lookup by tracking code.** The lookup takes the first match and
  tolerates a missing driver. The map shows markers only in transit. The
  three-step timeline is derived from the status and the stamps
  (`Tracking`).
- **Roles.** A missing profile reads as role `user`. Only the exact role
  `admin` passes the administrator pages. The frame creates missing
  profiles lazily and shows the management menu to administrators only
  (`Access`, `Layout`).
- **Lists.**
  - Case-insensitive four-field search and the status tabs
    (`AdminShipments`, `UserShipments`).
  - The driver roster's search, update, delete and add (`AdminDrivers`).
  - The overview counters and recent list (`Dashboard`).
  - The profile form and the password-change checks (`Profile`).

Pages whose fields the source updates in place are classes. Each class holds
the page's state and, as a `map` field, the document collection it writes.
Handlers are methods whose `ensures` give the whole new state in terms of the
pure functions, and the lemmas about those functions carry the properties.
Outside inputs are parameters:
- the signed-in user, as an optional id;
- the clock, as a natural `now`;
- `Math.random`, as an integer draw;
- document snapshots the store returns;
- store and service failures.

`Common` (optional values, JavaScript truthiness, order-preserving filter) and
`Text` (ASCII lower-casing, `includes`, `split("@")[0]`, decimal rendering) are
shared.

Where the intended behaviour of the app (the invariants its data model suggests) and the code disagree, the model follows the code:

- **Stamps may be missing or out of order.** The described invariants
  "`transitDate` is set iff the shipment has reached `in_transit`" and
  "`transitDate <= deliveryDate`" do not hold. The status selector is free,
  so a shipment can go straight from `pending` to `delivered`, and a later
  move back to `in_transit` stamps a transit time after the delivery time
  (`Lifecycle.PermissiveOverride`). What does hold, and is proved, is the
  weaker invariant: every record's current status carries its stamp, and
  stamps lie between `createdAt` and `updatedAt`.
- **No status validation.** The code never rejects a status outside the
  three values (no `InvalidStatus`). Any string is stored and is displayed
  as "Unknown".
- **No uniqueness check on tracking codes.** The code does not check a new
  code against existing shipments. Two codes are equal exactly when their
  draws are equal (`TrackingCodes.CodeInjective`), so a repeated draw gives
  two shipments the same code.
- **Only the frame creates missing profiles.** The administrator pages read
  a missing profile as `user` without creating one.
- **"Unknown Driver" appears only on the administrators' list.** The
  tracking page shows no driver at all for a dangling `driverId`.

## Model

| member | source | states |
|---|---|---|
| Lifecycle.DriverIdFor | app/dashboard/admin/shipments/page.tsx:147 | the stored driver is null exactly for the empty selection; any other selection, "none" included, is stored verbatim |
| Lifecycle.PatchFrom | app/dashboard/admin/shipments/page.tsx:145-155 | the store's patch sets status, driver and updatedAt, keeps identity, details and createdAt; a stamp becomes `now` exactly when its status is chosen and the dialog's copy has none, so a stamp stored meanwhile by another admin is overwritten |
| Lifecycle.ApplyUpdate | app/dashboard/admin/shipments/page.tsx:157-170 | on a list entry: status/driver/updatedAt set; an existing stamp is never overwritten or cleared; an absent stamp becomes `now` exactly when the matching status is chosen |
| Lifecycle.RewriteEntry | app/dashboard/admin/shipments/page.tsx:157-173 | same length and ids; entries with another id unchanged; entries with the selected id are the updated entry |
| Lifecycle.UpdateKeepsWellStamped | app/dashboard/admin/shipments/page.tsx:145-170 | an update with a clock not behind updatedAt keeps "current status carries its stamp" and "stamps between createdAt and updatedAt" |
| Lifecycle.ReenteringKeepsStamps | app/dashboard/admin/shipments/page.tsx:149-154 | choosing the same status twice leaves both stamps as the first choice set them |
| Lifecycle.ApplyAll | app/dashboard/admin/shipments/page.tsx:157-170 | any sequence of updates keeps id, tracking code, owner and createdAt |
| Lifecycle.StampsArePermanent | app/dashboard/admin/shipments/page.tsx:164-169 | a stamp present before any sequence of updates is unchanged after it |
| Lifecycle.UpdatesKeepWellStamped | app/dashboard/admin/shipments/page.tsx:145-170 | any sequence of updates with a non-decreasing clock keeps a record well-stamped |
| Lifecycle.PermissiveOverride | app/dashboard/admin/shipments/page.tsx:393-402 | the free selector allows delivered without a transit stamp, and a transit stamp later than the delivery stamp |
| Lifecycle.PatchAgreesWithList | app/dashboard/admin/shipments/page.tsx:145-170 | when the dialog's copy is the stored document, the store's patch equals the list's rewrite |
| Lifecycle.DriverSelection | app/dashboard/admin/shipments/page.tsx:132 | the dialog preselects the shipment's driver, or "" when it has none |
| Lifecycle.StatusSelection | app/dashboard/admin/shipments/page.tsx:133 | the dialog preselects the shipment's status, or "pending" when it is missing |
| Lifecycle.DialogRoundTrip | app/dashboard/admin/shipments/page.tsx:130-135 | reopening the dialog on an updated shipment preselects the status and driver just chosen |
| Lifecycle.DriverLabel | app/dashboard/admin/shipments/page.tsx:366-368 | "Not Assigned" without a driver id; the driver's name when the driver exists with a name; "Unknown Driver" when the driver's name is empty or no driver has the id |
| Records.StatusText | app/dashboard/tracking/page.tsx:208-219 | pending, in_transit, delivered map to their captions; anything else to "Unknown" |
| Records.ShipmentBadge | app/dashboard/shipments/page.tsx:93-116 | the badge caption is the status text; it has colour classes exactly for the three known statuses (same mapping on the administrators' list) |
| Records.FindDriver | app/dashboard/admin/shipments/page.tsx:367 | `drivers.find` by id: found iff some driver has the id, and then the first such |
| Text.Lower | app/dashboard/admin/shipments/page.tsx:116 | `toLowerCase`: same length, each ASCII capital lowered, nothing else changed |
| Text.Includes | app/dashboard/admin/shipments/page.tsx:116-119 | `includes`: true iff the needle occurs at some position |
| Text.BeforeAt | app/dashboard/layout.tsx:72 | `split("@")[0]`: the longest prefix without '@' |
| Access.PageRole | app/dashboard/admin/shipments/page.tsx:61 | a missing profile reads as role "user", otherwise the profile's role |
| Access.LookupUser | app/dashboard/admin/shipments/page.tsx:60 | the caller's profile exactly when one is stored |
| Access.AdminGate | app/dashboard/admin/shipments/page.tsx:49-71 | no user: login redirect; granted iff the stored role is exactly "admin"; any other signed-in caller, a missing profile included, is denied |
| Access.PageGate | app/dashboard/admin/shipments/page.tsx:59-61 | a failed read of a signed-in caller's profile ends the gate without a redirect; otherwise the gate is `AdminGate` |
| AdminShipments.FilterShipments | app/dashboard/admin/shipments/page.tsx:110-128 | kept iff listed, matching the query on one of the four fields (empty query: all), and with the tab's status unless the tab is "all" |
| AdminShipments.FilterShipmentsKeepsOrder | app/dashboard/admin/shipments/page.tsx:110-128 | the filtered list is an order-preserving subsequence |
| AdminShipments.UpdateKeepsSynced | app/dashboard/admin/shipments/page.tsx:145-175 | after an update from a listed shipment, every listed entry is still the stored document |
| AdminShipments.AdminShipmentsPage.constructor | app/dashboard/admin/shipments/page.tsx:33-43 | empty lists, empty query, tab "all", no selection, loading |
| AdminShipments.AdminShipmentsPage.FetchData | app/dashboard/admin/shipments/page.tsx:46-105 | gate first (`PageGate`); denied or profile unreadable: lists emptied, and only a denial redirects; granted: the full newest-first snapshot, which lists every stored shipment once, then the drivers; a failed shipments read leaves the lists empty, a failed drivers read leaves the shipments loaded and no drivers; loading ends; the selection and dialog are untouched |
| AdminShipments.AdminShipmentsPage.SetSearchQuery | app/dashboard/admin/shipments/page.tsx:110-128 | the filtered list is recomputed for the new query |
| AdminShipments.AdminShipmentsPage.SetActiveTab | app/dashboard/admin/shipments/page.tsx:110-128 | the filtered list is recomputed for the new tab |
| AdminShipments.AdminShipmentsPage.HandleShipmentAction | app/dashboard/admin/shipments/page.tsx:130-135 | opens the dialog on the shipment with its driver and status (or defaults) preselected |
| AdminShipments.AdminShipmentsPage.SelectStatus | app/dashboard/admin/shipments/page.tsx:393 | the status selector sets the chosen status |
| AdminShipments.AdminShipmentsPage.SelectDriver | app/dashboard/admin/shipments/page.tsx:407 | the driver selector sets the chosen driver |
| AdminShipments.AdminShipmentsPage.UpdateShipment | app/dashboard/admin/shipments/page.tsx:137-191 | no selection: nothing; missing document: store error, nothing changes; otherwise the store is patched, the list rewritten, the dialog closed, and store and list stay in agreement |
| TrackingCodes.TrackingCode | app/dashboard/create-shipment/page.tsx:128-130 | nine characters: "TRK" then six decimal digits |
| TrackingCodes.CodeNumber | app/dashboard/create-shipment/page.tsx:128-130 | reads a draw back exactly from well-formed codes, and it is below 1000000 |
| TrackingCodes.CodeRoundTrip | app/dashboard/create-shipment/page.tsx:128-130 | decoding the code of a draw gives the draw |
| TrackingCodes.CodeInjective | components/RazorpayButton.tsx:38-40 | two draws give the same code iff they are equal |
| CreateShipment.SetField | app/dashboard/create-shipment/page.tsx:58-65 | the named field takes the value, every other field is unchanged; an unknown name changes nothing |
| CreateShipment.InitialFormDefaults | app/dashboard/create-shipment/page.tsx:37-49 | package type and delivery speed start "standard", every other field "" |
| CreateShipment.NewShipment | app/dashboard/create-shipment/page.tsx:132-149 | owner, code and the eleven form fields verbatim, status pending, no driver, no stamps, createdAt = updatedAt = now, well-stamped |
| CreateShipment.SubmitEnabled | app/dashboard/create-shipment/page.tsx:344 | submit is live iff paid and not saving |
| CreateShipment.CreateShipmentPage.constructor | app/dashboard/create-shipment/page.tsx:34-49 | the initial form, unpaid, not loading, no error |
| CreateShipment.CreateShipmentPage.HandleChange | app/dashboard/create-shipment/page.tsx:58-61 | the form after the field change |
| CreateShipment.CreateShipmentPage.PaymentSucceeded | app/dashboard/create-shipment/page.tsx:81-84 | the payment flag is set |
| CreateShipment.CreateShipmentPage.HandleSubmit | app/dashboard/create-shipment/page.tsx:112-156 | unpaid: the payment error, nothing stored, loading untouched; no user: the login error, nothing stored; a rejected write: its message (or the fallback), nothing stored, no redirect; otherwise the new pending shipment is stored and the page redirects; loading ends false |
| PaymentButton.BareShipment | components/RazorpayButton.tsx:42-48 | only owner, code, pending status and the two timestamps; no details, driver or stamps |
| PaymentButton.PaymentButtonState.constructor | components/RazorpayButton.tsx:18-19 | not loading, no error |
| PaymentButton.PaymentButtonState.HandleSubmit | components/RazorpayButton.tsx:28-56 | stored iff signed in and the write succeeds; no user: the login error; a rejected write: its message (or the fallback), nothing stored, no redirect; success: the bare record stored, no error, redirect; loading false either way |
| Tracking.FirstMatch | app/dashboard/tracking/page.tsx:90-103 | none iff no document carries the code, otherwise the earliest document that does |
| Tracking.UniqueCodeIsFound | app/dashboard/tracking/page.tsx:100-103 | a code carried by one document only looks up that document |
| Tracking.DriverJoin | app/dashboard/tracking/page.tsx:105-110 | a driver iff the driver id is truthy and a driver has it, and then that driver's data |
| Tracking.NotAssignedJoinsNothing | app/dashboard/tracking/page.tsx:105-110 | the stored "none" of "Not Assigned" joins no driver and raises no error |
| Tracking.FaultMessage | app/dashboard/tracking/page.tsx:113-118 | permission-denied gives the permission message, anything else the generic one |
| Tracking.StatusDescription | app/dashboard/tracking/page.tsx:221-232 | the three fixed descriptions; "" exactly for any other status |
| Tracking.DescriptionMatchesText | app/dashboard/tracking/page.tsx:208-232 | a status has no description iff its text is "Unknown" |
| Tracking.GeocodeView | app/dashboard/tracking/page.tsx:134-192 | markers iff geocoded, always a destination marker, a driver marker iff in transit; the two fallback messages otherwise |
| Tracking.MapFor | app/dashboard/tracking/page.tsx:76-80 | a map only once the script loaded and for a shipment in transit (the container exists only then) |
| Tracking.MapsShowDriver | app/dashboard/tracking/page.tsx:326-332 | every map that shows markers shows the driver marker |
| Tracking.CreatedStep | app/dashboard/tracking/page.tsx:416-429 | green iff in transit or delivered, connector iff not pending, dated by createdAt |
| Tracking.TransitStep | app/dashboard/tracking/page.tsx:431-453 | complete iff in transit or delivered; shows the transit stamp, else "Currently in transit"; "Pending" when incomplete |
| Tracking.DeliveredStep | app/dashboard/tracking/page.tsx:455-474 | complete iff delivered; shows the delivery stamp, else "Successfully delivered"; "Pending" when incomplete |
| Tracking.Timeline | app/dashboard/tracking/page.tsx:413-475 | three steps, and a complete step is preceded by a complete step |
| Tracking.TimelineDates | app/dashboard/tracking/page.tsx:442-467 | a step shows only dates the record holds; delivered without a transit stamp shows "Currently in transit" |
| Tracking.TrackingPage.constructor | app/dashboard/tracking/page.tsx:26-29 | the first render's state: the code from the `id` parameter or "", no shipment, no error; a caller applies `TrackShipment` to model the lookup the `[trackingId]` effect runs on mount |
| Tracking.TrackingPage.TrackShipment | app/dashboard/tracking/page.tsx:82-123 | empty code: nothing; otherwise `ShowsLookup`: a failed read: its message and no shipment; no match: "not found"; else the first match with its joined driver and no error; loading ends false |
| Tracking.TrackingPage.SetTrackingId | app/dashboard/tracking/page.tsx:70-74 | the same or an empty code changes nothing else; a changed non-empty code ends in `ShowsLookup` (first match, joined driver, error, loading off), and a shipment is shown iff some document carries the code |
| Tracking.TrackingPage.TrackEnabled | app/dashboard/tracking/page.tsx:265 | the button is live iff a code is typed and no lookup runs |
| AdminDrivers.FilterDrivers | app/dashboard/admin/drivers/page.tsx:111-124 | empty query: the whole list; else kept iff the query is in name, email, phone or licence number |
| AdminDrivers.FilterDriversKeepsOrder | app/dashboard/admin/drivers/page.tsx:111-124 | the result is an order-preserving subsequence |
| AdminDrivers.EditForm | app/dashboard/admin/drivers/page.tsx:184-194 | the driver's fields with "", "car", "available" for missing ones |
| AdminDrivers.EditFormStable | app/dashboard/admin/drivers/page.tsx:135-145 | filling the form is idempotent, keeps complete records, and the reset form is a fixed point |
| AdminDrivers.UpdateDrivers | app/dashboard/admin/drivers/page.tsx:210-219 | same length; the selected id's entries take all form fields and updatedAt, keeping id and createdAt; others unchanged |
| AdminDrivers.RemoveDriver | app/dashboard/admin/drivers/page.tsx:253 | exactly the entries with another id remain |
| AdminDrivers.RemoveDriverKeepsOrder | app/dashboard/admin/drivers/page.tsx:253 | the rest keep their order; a list without the id is unchanged |
| AdminDrivers.DriverStatusBadge | app/dashboard/admin/drivers/page.tsx:273-295 | available, busy, offline captions; "Unknown" with no classes exactly for anything else |
| AdminDrivers.UpdateKeepsDriversSynced | app/dashboard/admin/drivers/page.tsx:203-222 | the store's update and the list's map agree |
| AdminDrivers.RemoveKeepsDriversSynced | app/dashboard/admin/drivers/page.tsx:250-255 | the store's delete and the list's filter agree |
| AdminDrivers.AddKeepsDriversSynced | app/dashboard/admin/drivers/page.tsx:151-155 | adding a document under a fresh id keeps every listed driver stored as listed |
| AdminDrivers.CollectionShowsAdded | app/dashboard/admin/drivers/page.tsx:151-164 | a full reread of the collection after an add lists the added driver |
| AdminDrivers.AdminDriversPage.constructor | app/dashboard/admin/drivers/page.tsx:37-54 | empty lists and query, the blank form, no selection, loading |
| AdminDrivers.AdminDriversPage.FetchDrivers | app/dashboard/admin/drivers/page.tsx:58-106 | gate first (`PageGate`); denied, profile unreadable or failed collection read: empty lists, and only a denial redirects; granted: the full collection, every stored driver once; loading ends |
| AdminDrivers.AdminDriversPage.SetSearchQuery | app/dashboard/admin/drivers/page.tsx:111-124 | the filtered list is recomputed |
| AdminDrivers.AdminDriversPage.ResetForm | app/dashboard/admin/drivers/page.tsx:135-145 | the blank form |
| AdminDrivers.AdminDriversPage.HandleEditDriver | app/dashboard/admin/drivers/page.tsx:184-196 | selects the driver, fills the form with fallbacks, opens the dialog |
| AdminDrivers.AdminDriversPage.HandleDeleteDriver | app/dashboard/admin/drivers/page.tsx:240-243 | selects the driver, opens the confirmation |
| AdminDrivers.AdminDriversPage.HandleUpdateDriver | app/dashboard/admin/drivers/page.tsx:198-238 | updated iff a driver is selected, its document exists and the write succeeds; otherwise nothing changes; on success store and list updated in agreement and the dialog closed |
| AdminDrivers.AdminDriversPage.ConfirmDeleteDriver | app/dashboard/admin/drivers/page.tsx:245-271 | deleted iff a driver is selected and the delete succeeds; otherwise nothing changes; on success the id is removed from store and list |
| AdminDrivers.AdminDriversPage.HandleAddDriver | app/dashboard/admin/drivers/page.tsx:147-182 | added iff the write succeeds; a rejected write changes nothing; on success the form is stored under the new id, and unless the reload fails the list is the full collection, which shows the new driver, the dialog closes and the form resets |
| Layout.ResolveRole | app/dashboard/layout.tsx:56-63 | the profile's truthy role, else "user"; "user" without a profile |
| Layout.ProfileName | app/dashboard/layout.tsx:72 | display name, else the email before '@', else "User"; never empty |
| Layout.NewProfile | app/dashboard/layout.tsx:68-77 | the account's email, the fallback name, role "user", created now |
| Layout.NewProfileIsNotAdmin | app/dashboard/layout.tsx:73 | a lazily created profile resolves to "user" and is denied by the administrator gate |
| Layout.IsAdmin | app/dashboard/layout.tsx:120 | administrator iff the role is exactly "admin" |
| Layout.FrameAgreesWithGate | app/dashboard/layout.tsx:61-63 | the frame's role is "admin" iff the administrator pages' gate grants access |
| Layout.Menu | app/dashboard/layout.tsx:183-211 | five entries for everyone, the two management entries iff administrator |
| Layout.HeaderTitle | app/dashboard/layout.tsx:252-260 | a title exactly for the seven dashboard paths |
| Layout.TitleMatchesMenu | app/dashboard/layout.tsx:134-211 | following any menu entry shows that entry's caption as the title |
| Layout.RoleCaption | app/dashboard/layout.tsx:226 | "Administrator" iff administrator, else "User" |
| Layout.DashboardFrame.constructor | app/dashboard/layout.tsx:41-43 | no user, no role, loading |
| Layout.DashboardFrame.OnAuthStateChanged | app/dashboard/layout.tsx:48-93 | no user: login redirect only; else role "user" then the resolved role; a missing profile is created unless reading or writing fails; loading ends |
| UserShipments.OwnerListing | app/dashboard/shipments/page.tsx:34-41 | exactly the caller's documents, with multiplicity, newest first |
| UserShipments.SearchMatchAsWritten | app/dashboard/shipments/page.tsx:61-64 | a tracking-id match keeps; otherwise a record without details throws; when it does not throw it agrees with the guarded test |
| UserShipments.SearchAsWritten | app/dashboard/shipments/page.tsx:58-66 | the filter throws iff some record's test throws |
| UserShipments.Search | app/dashboard/shipments/page.tsx:58-66 | the intended search: kept iff matching on a present field, in order |
| UserShipments.SearchAsWrittenAgrees | app/dashboard/shipments/page.tsx:58-66 | where the written search does not throw it equals the intended one; it never throws when every record has details |
| UserShipments.CodeMissesLetter | app/dashboard/create-shipment/page.tsx:128-130 | a query holding a letter other than t, r, k matches no well-formed tracking code |
| UserShipments.SearchThrowsOnBareRecord | app/dashboard/shipments/page.tsx:61-64 | a record without details (as the payment button writes it) and a query such as "box" make the written search throw, while the intended search leaves the record out |
| UserShipments.FilterMine | app/dashboard/shipments/page.tsx:55-78 | kept iff listed, matching the query with the corrected search (see Findings; empty query: all), and matching the tab; "all" and unknown tabs keep every status |
| UserShipments.FilterMineKeepsOrder | app/dashboard/shipments/page.tsx:55-78 | the result is an order-preserving subsequence of the fetched list |
| UserShipments.FilterMineNewestFirst | app/dashboard/shipments/page.tsx:68-77 | filtering a newest-first list keeps it newest first |
| UserShipments.MyShipmentsPage.constructor | app/dashboard/shipments/page.tsx:22-26 | empty list, empty query, tab "all", loading |
| UserShipments.MyShipmentsPage.FetchShipments | app/dashboard/shipments/page.tsx:28-50 | no user: nothing; a failed read: the lists unchanged; else the owner listing and a newest-first shown list; with a user loading ends |
| UserShipments.MyShipmentsPage.SetSearchQuery | app/dashboard/shipments/page.tsx:55-78 | the filtered list is recomputed with the corrected search (see Findings) and stays a subsequence |
| UserShipments.MyShipmentsPage.SetActiveTab | app/dashboard/shipments/page.tsx:68-77 | the filtered list is recomputed with the corrected search (see Findings) and stays a subsequence |
| Dashboard.CountStatus | app/dashboard/page.tsx:43-46 | a status counter never exceeds the number of documents |
| Dashboard.CountStatusIsFilterSize | app/dashboard/page.tsx:44-46 | each counter is the number of documents with that status |
| Dashboard.StatsOf | app/dashboard/page.tsx:49-54 | total is the number of documents, and each counter is at most total |
| Dashboard.CountersBound | app/dashboard/page.tsx:41-47 | pending + in transit + delivered <= total, with equality iff every status is one of the three |
| Dashboard.CountStats | app/dashboard/page.tsx:36-47 | the counting loop computes exactly the counters of the snapshot |
| Dashboard.Recent | app/dashboard/page.tsx:56-63 | at most five of the caller's shipments, the newest-first listing's prefix |
| Dashboard.RecentAreNewest | app/dashboard/page.tsx:56 | no shipment left out is newer than one shown |
| Dashboard.StatusColor | app/dashboard/page.tsx:100-111 | the three colours, gray exactly for any other status |
| Dashboard.ColorMatchesText | app/dashboard/page.tsx:87-111 | gray iff the status text is "Unknown" |
| Dashboard.DashboardPage.constructor | app/dashboard/page.tsx:17-24 | zero counters, no recent shipments, loading |
| Dashboard.DashboardPage.FetchDashboardData | app/dashboard/page.tsx:27-69 | no user: nothing; else the counters of the caller's shipments, then the recent list, each kept as it was when its read fails (a failed count read skips the second read); with a user loading ends |
| Profile.FormFrom | app/dashboard/profile/page.tsx:48-56 | name, phone, address from the profile, email from the account or "", password fields empty |
| Profile.DocFields | app/dashboard/profile/page.tsx:46-47 | the page's copy holds the three form fields with the stored values, plus email and role exactly when present; the timestamps are not copied |
| Profile.MergeProfile | app/dashboard/profile/page.tsx:88-93 | name, phone, address take the form's values; every other field of the copy is kept |
| Profile.SavedDoc | app/dashboard/profile/page.tsx:81-86 | the stored profile gets name, phone, address and updatedAt; email, role, createdAt kept |
| Profile.SaveAgrees | app/dashboard/profile/page.tsx:81-93 | the store and the page's copy agree on the three saved fields |
| Profile.ValidatePassword | app/dashboard/profile/page.tsx:140-149 | not signed in, then mismatch, then too short, in that order; passes iff signed in, equal and at least six long |
| Profile.MismatchComesFirst | app/dashboard/profile/page.tsx:143-149 | a mismatch is reported before length is looked at |
| Profile.ClearPasswords | app/dashboard/profile/page.tsx:153-158 | the three password fields emptied, the others kept |
| Profile.PasswordSubmitEnabled | app/dashboard/profile/page.tsx:346 | live iff not saving and all three password fields filled |
| Profile.ClearedFormDisablesSubmit | app/dashboard/profile/page.tsx:153-158 | after a change the submit button is disabled again |
| Profile.ProfilePage.constructor | app/dashboard/profile/page.tsx:25-36 | no copy, empty form, loading, not saving |
| Profile.ProfilePage.FetchUserData | app/dashboard/profile/page.tsx:38-66 | no user: nothing; a stored profile read without failure fills the copy and the form, otherwise both are kept; with a user loading ends |
| Profile.ProfilePage.UpdateProfile | app/dashboard/profile/page.tsx:73-108 | not signed in: "User not authenticated"; a rejected write: its message or the fallback; saved iff signed in, the profile exists and the write succeeds, updating store and copy; any failure changes nothing; the flag ends false |
| Profile.ProfilePage.UpdateEmailAddress | app/dashboard/profile/page.tsx:110-133 | not signed in: "User not authenticated"; the service's refusal is reported with its message or the fallback; otherwise the account's email is the form's |
| Profile.ProfilePage.UpdateUserPassword | app/dashboard/profile/page.tsx:135-173 | the first failed check is the error and nothing changes; the service's refusal is reported with its message or the fallback; otherwise the password is set and the password fields cleared |

## Left out

- Firestore and Firebase Auth calls are not modelled as I/O. Collections are `map`s (or snapshots in query order), the current user is an optional id, and failures are boolean or optional parameters, except the one listed next.
- AdminShipments.AdminShipmentsPage.UpdateShipment: the only store failure modelled is a missing document. Other write failures (network, rules) are not.
- The Google Maps script loading, coordinates, the floating-point random driver offset, the polyline and the map bounds are left out. Geocoding is an outcome parameter.
- The payment checkout is left out: the creation form's `handlePayment`, and the payment button's checkout, form POST and delayed redirect. Only the "payment done" flag is kept.
- Timestamps are naturals. One `now` per operation stands for the several `new Date()` calls an operation makes. ISO strings and locale date formatting are not modelled.
- Text.Lower: lower-cases ASCII letters only, not the full Unicode case mapping of `toLowerCase`.
- Profile.DocFields: the page's copy leaves out the document's `createdAt` and `updatedAt`, which `setUserData(data)` keeps; the page never displays them.
- Profile.ValidatePassword: counts characters, not the UTF-16 code units JavaScript's `length` counts.
- UserShipments.OwnerListing: among shipments created at the same instant, the store's tie order (by document id) is not modelled.
- Records are typed. A document field of another type, or a missing field other than the package details, the driver id, the stamps, the email and the role, reads as "".
- Field-by-field `handleChange` of the driver and profile forms is not modelled. The creation form's, which works the same way, is.
- The sign-out handler, toasts, router navigation (except as a flag), skeletons and the rest of the markup are left out.
- Concurrent updates from several administrators (last write wins) are left out.
- `app/page.tsx` is static landing-page markup and is not part of this model.

## Findings

| source | as written | input that shows it | evidently intended | confidence | as-written member | corrected member |
|---|---|---|---|---|---|---|
| app/dashboard/shipments/page.tsx:62-64 | `packageName`, `destination` and `recipientName` are lower-cased without `?.`, so the filter throws on a record lacking them once the tracking id does not match | a record stored by the payment button (only owner, `TRK000042`, status, timestamps) and the query "box" | a missing field matches nothing, as the administrators' page does with `?.` (admin/shipments/page.tsx:116-119) | medium, not executed; the payment button is imported but not rendered by the creation page, so such records need another writer | UserShipments.SearchAsWritten | UserShipments.Search |
