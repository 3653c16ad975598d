# CleanCity in Dafny

CleanCity is a single-page web app in which citizens keep their city clean and
earn Green Points for it. Users report waste (cleaning it themselves or
handing it to the authorities), run community cleanup drives, and mark
public dustbins as filled or emptied on a map. They spend their points on
partner offers. Admins see a dashboard of statistics.

This project models the domain logic under the pages:

- the session user and the balance that the pages rewrite (`Session`);
- the dustbin status toggle and the +10 award for reporting a filled bin, plus which markers and icons the map draws (`MapComponent`);
- the layer-visibility record of the map page (`MapPage`);
- the waste report form: award policy, submit-enable rule, location pick and submission (`ReportWaste`);
- the cleanup drive form: award policy, create-or-complete rule, reset after submit and message (`CleanupDrive`);
- the rewards page: category filter, redeem gate, button label, two-step redemption with cancel, and recent transactions (`Rewards`);
- the admin dashboard's statistics, chart buckets, name lookups and row actions (`AdminDashboard`), over ledger roll-ups shared with the profile page (`Ledger`);
- the profile page: the user's totals, achievements, recent activity and the name/email editor (`Profile`);
- the mobile navigation items by role (`MobileNav`);
- the seed collections and what the rules make of them (`MockData`), and one end-to-end session over the seed (`Scenario`).

`Types` holds the entities as datatypes. The closed string unions of the
source become enumerations: `Role`, `DustbinStatus`, `ReportStatus`,
`CleanupType`, `DriveStatus` and `TransactionType`. Optional fields become
`Option`. A transaction's `points` is a signed `int`. `Seqs` holds the array
operations the pages use: filter, a summing reduce and a prefix slice.
`Decimal` holds the number-to-text conversion used inside the success
messages.

Each page whose handlers change state is a class. Its fields are the
page's state variables, and a `session` field holds the shared
`Session.AuthSession`. Each handler is a method whose `ensures` gives the
complete new state. A submission is modelled as one atomic step. The
handler reads the signed-in user once, as the source's callback does. It
then writes `that user's points + award` through `UpdateUser`, which merges
the given fields into the current user and does nothing when nobody is
signed in.

Several quirks of the source are modelled as written:

- **Redemption does not re-check the balance.** `ConfirmRedeem` deducts the cost without checking the balance again.
- **The cleanup form has no in-flight guard.** Its submit is disabled only by a missing address or before image.
- **The cleanup form does more than it says.** It both creates and completes drives, depending only on whether an after image is set. It stores no drive record.
- **The ledger and the balance are separate.** No flow appends to the transaction list. In the seed data, user "1" holds 450 points while their transactions net 10.
- **Duplicate dustbin ids.** If ids were duplicated, a toggle would flip every matching dustbin but credit +10 only once. Every matching entry writes the same `points + 10`, computed from the user read before the toggle.

## Model

| member | source | states |
|---|---|---|
| Session.Merge | src/pages/ProfilePage.tsx:21 | merging a patch never changes the user's id, role, avatar or join date |
| Session.AuthSession.UpdateUser | src/pages/RewardsPage.tsx:28 | the patch is merged into the current user; with nobody signed in nothing changes |
| Session.CreditsCompose | src/pages/ReportWastePage.tsx:61 | two credits in a row equal one credit of their sum, and a credit moves the balance by exactly its amount |
| Session.PointsPatchLastWins | src/pages/CleanupDrivePage.tsx:57 | a points patch sets the balance outright (of two patches only the last counts), and `points + award` written through it is a credit of the award |
| Seqs.Take | src/pages/RewardsPage.tsx:153 | the slice has exactly min(n, length) elements and is a prefix of the input, so it is the whole input when that is short enough |
| Seqs.FilterConcat | src/pages/ProfilePage.tsx:16 | filtering distributes over concatenation, so the filter keeps the input's order |
| Seqs.SumFilter | src/pages/admin/AdminDashboard.tsx:18 | summing the filtered elements is summing the whole list with the others counted as 0 |
| Decimal.RoundTrip | src/pages/ReportWastePage.tsx:66 | the number written into a message reads back as the same number |
| Decimal.FromNatInjective | src/pages/CleanupDrivePage.tsx:72 | different amounts are written as different texts |
| Ledger.EarnedTotalIsMaskedSum | src/pages/admin/AdminDashboard.tsx:18 | the earned total is the sum over all rows with redeemed rows counting 0 |
| Ledger.EarnedTotalAppend | src/pages/admin/AdminDashboard.tsx:18 | one more row adds its points to the earned total when earned and nothing when redeemed |
| Ledger.RedeemedTotalNonNegative | src/pages/ProfilePage.tsx:18 | redemptions are totalled by absolute value, so the total is never negative |
| Ledger.OfUserSpec | src/pages/ProfilePage.tsx:16 | a transaction is in the user's list iff it is in the ledger with that user's id, and the list keeps ledger order |
| MapComponent.NextStatus | src/components/Map/MapComponent.tsx:135 | the new status always differs from the old one |
| MapComponent.Toggled | src/components/Map/MapComponent.tsx:132-148 | the toggled list has the same length as the old one |
| MapComponent.ToggledAt | src/components/Map/MapComponent.tsx:133-147 | entry k of the new list is entry k of the old list passed through the toggle |
| MapComponent.ToggleFlipsMatching | src/components/Map/MapComponent.tsx:134-145 | the matching dustbin's status flips, it is stamped with the time and the acting user, and its id, coordinates and address are kept |
| MapComponent.ToggleKeepsOthers | src/components/Map/MapComponent.tsx:147 | a dustbin with another id is returned unchanged at the same position |
| MapComponent.ToggleTwiceRestoresStatus | src/components/Map/MapComponent.tsx:135 | toggling the same id twice restores every status and id |
| MapComponent.AwardFollowsNewStatus | src/components/Map/MapComponent.tsx:137-139 | with distinct ids the award is 10 when the new status is filled and 0 when it is empty |
| MapComponent.ToggleUnknownId | src/components/Map/MapComponent.tsx:132-148 | an id no dustbin carries changes neither the list nor the balance |
| MapComponent.MapState.ToggleDustbinStatus | src/components/Map/MapComponent.tsx:129-150 | with nobody signed in nothing changes; otherwise the list becomes the toggled list and the user is credited the toggle award |
| MapComponent.IconFor | src/components/Map/MapComponent.tsx:211-214 | the icon is the empty-bin icon iff the status is empty |
| MapComponent.DustbinMarkers | src/components/Map/MapComponent.tsx:206-214 | one marker per dustbin, in order, with the icon of its status |
| MapComponent.ReportMarkers | src/components/Map/MapComponent.tsx:254 | one marker per waste report, in order |
| MapComponent.DriveMarkers | src/components/Map/MapComponent.tsx:295 | one marker per cleanup drive, in order |
| MapComponent.MarkersFollowLayers | src/components/Map/MapComponent.tsx:205-295 | a collection's markers are drawn only when its layer flag is on, and then every element is drawn |
| MapPage.ToggleFlipsOnlyNamed | src/pages/MapPage.tsx:12-17 | toggling flips the named flag and keeps the other two |
| MapPage.ToggleTwice | src/pages/MapPage.tsx:12-17 | toggling the same layer twice restores the record |
| MapPage.ToggleCommutes | src/pages/MapPage.tsx:12-17 | toggles of two layers commute |
| MapPage.MapPageState.constructor | src/pages/MapPage.tsx:6-10 | all three layers start visible, the same layers the map shows by default (src/components/Map/MapComponent.tsx:104) |
| MapPage.MapPageState.ToggleLayer | src/pages/MapPage.tsx:12-17 | the record becomes the toggled record: the named flag flips, the others keep their values |
| ReportWaste.ReportAward | src/pages/ReportWastePage.tsx:57-59 | the award is 30 or 50, and 50 exactly for a self-clean with an after image |
| ReportWaste.AdvertMatchesAward | src/pages/ReportWastePage.tsx:297-299 | the advertised 30 plus the 20 after-image bonus for self-clean is what a submission credits |
| ReportWaste.SubmitEnablement | src/pages/ReportWastePage.tsx:309 | submit starts disabled on the fresh form; choosing a location and a before image on it enables it exactly when both are non-empty; a submission in flight or a cleared before image disables it |
| ReportWaste.MessageQuotesAward | src/pages/ReportWastePage.tsx:66 | the success message quotes the credited award |
| ReportWaste.ReportWastePage.constructor | src/pages/ReportWastePage.tsx:10-20 | the form starts empty with submit-to-authority chosen, nothing in flight, and the map closed |
| ReportWaste.ReportWastePage.ShowMap | src/pages/ReportWastePage.tsx:134 | the map picker opens |
| ReportWaste.ReportWastePage.HandleLocationSelect | src/pages/ReportWastePage.tsx:37-45 | only latitude, longitude and address change, and the map closes |
| ReportWaste.ReportWastePage.SetImage | src/pages/ReportWastePage.tsx:26-31 | only the chosen image slot changes |
| ReportWaste.ReportWastePage.SetCleanupType | src/pages/ReportWastePage.tsx:223 | only the cleanup type changes |
| ReportWaste.ReportWastePage.SetDescription | src/pages/ReportWastePage.tsx:103 | only the description changes |
| ReportWaste.ReportWastePage.HandleSubmit | src/pages/ReportWastePage.tsx:47-69 | with nobody signed in nothing changes; otherwise the user is credited the award for the form, nothing is left in flight, and the message quotes the award |
| ReportWaste.ReportWastePage.SubmitForm | src/pages/ReportWastePage.tsx:107 | a disabled button or empty description blocks the submit; any submit that yields a message had a description, an address and a before image |
| CleanupDrive.ActionFor | src/pages/CleanupDrivePage.tsx:72 | a submission is a completion iff an after image is set |
| CleanupDrive.CleanupAward | src/pages/CleanupDrivePage.tsx:56 | the award is 50 or 100, and 100 exactly with an after image |
| CleanupDrive.AdvertMatchesAward | src/pages/CleanupDrivePage.tsx:254-257 | the advertised base is what a submission credits, and a creation's base plus bonus equals a completion's award |
| CleanupDrive.MessageQuotesAward | src/pages/CleanupDrivePage.tsx:72 | the message says "completed" iff an after image was set, and quotes the credited award |
| CleanupDrive.SubmitEnablement | src/pages/CleanupDrivePage.tsx:266 | submit starts disabled on the fresh form; choosing a location and a before image on it enables it exactly when both are non-empty, with no in-flight flag; a cleared before image disables it |
| CleanupDrive.LabelNamesAction | src/pages/CleanupDrivePage.tsx:269 | the button reads "Submit Completed Drive" exactly when the submission completes a drive and "Create Cleanup Drive" exactly when it creates one |
| CleanupDrive.CleanupDrivePage.constructor | src/pages/CleanupDrivePage.tsx:11-21 | the form starts hidden and empty, with the map closed |
| CleanupDrive.CleanupDrivePage.OpenCreateForm | src/pages/CleanupDrivePage.tsx:285 | the form is shown |
| CleanupDrive.CleanupDrivePage.CloseCreateForm | src/pages/CleanupDrivePage.tsx:84 | the form is hidden, and what was typed is kept |
| CleanupDrive.CleanupDrivePage.ShowMap | src/pages/CleanupDrivePage.tsx:133 | the map picker opens |
| CleanupDrive.CleanupDrivePage.HandleLocationSelect | src/pages/CleanupDrivePage.tsx:38-46 | only latitude, longitude and address change, and the map closes |
| CleanupDrive.CleanupDrivePage.SetImage | src/pages/CleanupDrivePage.tsx:27-32 | only the chosen image slot changes |
| CleanupDrive.CleanupDrivePage.SetCommunityName | src/pages/CleanupDrivePage.tsx:99 | only the community name changes |
| CleanupDrive.CleanupDrivePage.SetDescription | src/pages/CleanupDrivePage.tsx:112 | only the description changes |
| CleanupDrive.CleanupDrivePage.HandleSubmit | src/pages/CleanupDrivePage.tsx:48-75 | with nobody signed in nothing changes; otherwise the user is credited the award for the submitted form, the form is hidden and reset to its initial state, and the message is the one for the submitted after image |
| CleanupDrive.CleanupDrivePage.SubmitForm | src/pages/CleanupDrivePage.tsx:102-116 | a disabled button or an empty name or description blocks the submit; any credited drive had a name, a description, an address and a before image |
| Rewards.FilteredStoresSpec | src/pages/RewardsPage.tsx:14-16 | "all" yields every store; any other category yields exactly its stores, in order |
| Rewards.ButtonMatchesGate | src/pages/RewardsPage.tsx:124-136 | the button reads "Redeem Now" iff the gate holds, "Login to Redeem" iff nobody is signed in, and otherwise names a positive shortfall that closes the gap exactly |
| Rewards.PreviewMatchesConfirm | src/pages/RewardsPage.tsx:209 | the dialog's after-redemption balance is what confirming produces, and it is not negative when the gate held |
| Rewards.RecentTransactionsSpec | src/pages/RewardsPage.tsx:147-153 | the section is shown exactly when there is a user with at least one transaction; it then lists min(5, n) of the user's n transactions, the first ones of that user's list in order |
| Rewards.RewardsPage.constructor | src/pages/RewardsPage.tsx:8-10 | the page starts on "all", with no dialog and no offer selected |
| Rewards.RewardsPage.SelectCategory | src/pages/RewardsPage.tsx:69 | the chosen category becomes current |
| Rewards.RewardsPage.HandleRedeem | src/pages/RewardsPage.tsx:18-23 | the dialog opens on the offer iff a user can afford it; otherwise nothing changes |
| Rewards.RewardsPage.ConfirmRedeem | src/pages/RewardsPage.tsx:25-34 | with a user and an offer, the cost is deducted without re-checking, the dialog closes, the selection clears, and the alert names the offer; otherwise nothing changes |
| Rewards.RewardsPage.CancelRedeem | src/pages/RewardsPage.tsx:215 | the dialog closes and the balance is untouched |
| AdminDashboard.DustbinBucketsCoverAll | src/pages/admin/AdminDashboard.tsx:21-24 | the empty and filled buckets add up to all dustbins, and the filled bucket is the card's figure |
| AdminDashboard.ReportBucketsCoverAll | src/pages/admin/AdminDashboard.tsx:26-31 | the four status buckets add up to all reports, and so do the four slices of the report status chart |
| AdminDashboard.CompletedReportsAreTwoBuckets | src/pages/admin/AdminDashboard.tsx:15 | completed reports are the self-cleaned plus the completed bucket, and at most all reports |
| AdminDashboard.CompletedDrivesBounded | src/pages/admin/AdminDashboard.tsx:11-17 | completed drives and reports are at most their totals, and the user count is the number of user-table rows |
| AdminDashboard.FindUser | src/pages/admin/AdminDashboard.tsx:182 | no user is found iff no user has the id; a found user is the first with that id |
| AdminDashboard.DisplayNameSpec | src/pages/admin/AdminDashboard.tsx:189 | an unknown id shows "Unknown"; any other name shown belongs to a user with that id |
| AdminDashboard.DisplayNameOfFirst | src/pages/admin/AdminDashboard.tsx:182-189 | when users[k] is the first user with the id, the name shown is that user's name, or "Unknown" when the name is empty |
| AdminDashboard.RowActionsSpec | src/pages/admin/AdminDashboard.tsx:212-214 | every row can be viewed; "Mark Complete" is offered exactly for pending reports and "Approve" exactly for completed drives |
| Profile.AchievementsSpec | src/pages/ProfilePage.tsx:25-30 | "Green Warrior" is earned iff the user has 500 points or more, and the earned count is 3 from then on and 2 below |
| Profile.ProfileSummarySpec | src/pages/ProfilePage.tsx:14-18 | nothing is shown without a user; otherwise the page lists exactly the user's transactions, an earned total equal to the sum over the user's earned rows, a non-negative redeemed total, 2 or 3 achievements, and min(5, n) recent entries that start the user's list |
| Profile.ProfilePage.constructor | src/pages/ProfilePage.tsx:8-12 | the editor starts closed with the user's name and email, or empty fields |
| Profile.ProfilePage.SetName | src/pages/ProfilePage.tsx:115 | only the name field changes |
| Profile.ProfilePage.SetEmail | src/pages/ProfilePage.tsx:128 | only the email field changes |
| Profile.ProfilePage.HandleSave | src/pages/ProfilePage.tsx:20-23 | name and email are merged into the user, everything else (the balance included) is kept, and edit mode ends |
| Profile.ProfilePage.EditButton | src/pages/ProfilePage.tsx:101 | in edit mode the button saves and leaves edit mode; otherwise it enters edit mode and changes nothing else |
| MobileNav.NavItems | src/components/Layout/MobileNav.tsx:10-23 | no items without a user; otherwise the four base items in order, followed by the admin item exactly for an admin |
| MobileNav.PathsDistinct | src/components/Layout/MobileNav.tsx:14-23 | no two items share a path, for either role |
| MobileNav.ActiveIsUnique | src/components/Layout/MobileNav.tsx:12 | at most one item is active, and one is exactly when the location is one of the item paths |
| MockData.SeedUsers | src/data/mockData.ts:3-30 | three users, one of them the admin, so the dashboard counts two users and lists two rows |
| MockData.SeedDustbinIds | src/data/mockData.ts:32-87 | six dustbins with the distinct ids "1" to "6" |
| MockData.SeedDustbinCounts | src/data/mockData.ts:32-87 | three seed dustbins are filled and three are empty |
| MockData.SeedAwards | src/data/mockData.ts:89-150 | the seed reports carry the report award policy's points; the completed drive carries 100 and the adopted one 0; every record has a before image |
| MockData.SeedLedger | src/data/mockData.ts:195-221 | earned rows sum to 60, and the single redeemed row is -50, so 50 is redeemed |
| MockData.SeedBalanceIsNotLedger | src/data/mockData.ts:8 | user "1"'s transactions net 10 while their stored balance is 450 |
| MockData.SeedOffers | src/data/mockData.ts:152-193 | the offers cost 100, 50 and 75, all positive |
| Scenario.SeedTogglesFill | src/data/mockData.ts:32-59 | seed dustbins "1" and "3" start empty, so toggling each of them earns 10 |
| Scenario.EarnThenRedeem | src/pages/RewardsPage.tsx:18-34 | with 40 points the 50-point offer shows a shortfall of 10; after two dustbins are reported filled it can be redeemed, leaving 10 points |
| Scenario.ToggleSameTwice | src/components/Map/MapComponent.tsx:129-150 | toggling the same dustbin twice earns 10 once and restores its status |

## Left out

- Map rendering is left out: the Leaflet map, tiles, popups, the SVG icons and the default-marker fix are a foreign UI library. Only the icon choice and which markers are drawn are modelled.
- Browser geolocation (centering the map, filling the report location) is asynchronous browser I/O. A location enters the model only through `HandleLocationSelect`.
- Coordinates are opaque reals. The rounded-coordinate address text of a map click is floating point and is left out.
- Image upload through `FileReader` is file I/O. An image is a string whose value `""` means absent. `SetImage` stands for both a finished upload and the remove button.
- The one-second simulated delay in the submit handlers is not modelled. Each submit is one atomic step, so a second submit cannot interleave. On the cleanup form, which has no in-flight guard, two overlapping submits would each write the same stale `points + award`. Each submit navigates home carrying its success message, so there would be two navigations with a message each but a single credit. The model does not capture that interleaving.
- Timestamps from the clock are parameters (`now`), and locale date formatting is left out.
- Charts, the hard-coded monthly chart data, the admin tab switch, CSS classes and display-only text transforms are left out.
- Navigation after submit (`navigate`), links and `alert` are router and DOM effects. The success message and the alert text are returned instead.
- Login, logout and the route guards live in the authentication context, which is not part of this model. `updateUser` is modelled as a field merge that does nothing without a user.
- The route table in `src/App.tsx`, the `Layout` and the `Header` are composition and rendering; the header's admin link repeats the mobile nav's rule.
- The `required` attribute on the image file inputs is left out. `SubmitForm` models the `required` text fields and the disabled button, and the before image is covered by the button.
- Numbers are JavaScript doubles in the source. The model uses unbounded integers, which agree for every balance the pages can reach.
- Updating the balance by a delta is not how the source works. The pages compute `user.greenPoints + award` themselves and pass the absolute value to `updateUser`, as `Session.PointsPatchLastWins` states. The code is followed here, not the reading in which each update applies a delta and the final balance is the sum of all deltas.
