# YaRa tourism safety dashboard — a Dafny model of its logic

The YaRa dashboard lets tourism safety officers watch tourists grouped into
risk zones, handle SOS and inactivity alerts, and read summary statistics.
All of its data is an in-memory seeded dataset. This project models the parts
of the dashboard that compute something, and proves properties about them:

- **the dataset and its helpers** (`mock_data.dfy`, module `MockData`).
  - The tourist, zone and officer records, and the seeded five zones, ten
    tourists and two officers.
  - The status colours for a tourist and for a zone.
  - The flattening of zones into one tourist list.
  - The statistics behind the reports view: per-zone counts, the risk
    distribution, the SOS and unregistered counts, and the rounded average
    safety score.
- **the alerts page** (`alerts_page.dfy`, module `Alerts`).
  - The alert list it starts with: every SOS tourist, then every other
    tourist whose "N minutes ago" says more than twenty minutes.
  - The alert type shown for a tourist.
  - The case-insensitive tourist search.
  - The page state (class `AlertsView`): acknowledging an alert, selecting a
    tourist, typing a search term.
- **the zone map** (`zone_map.dfy`, module `ZoneMap`).
  - Zone crowding ("density") and the colour of each tourist dot.
  - The SOS banner text.
  - The map state (class `ZoneMapView`): loading and dismissing SOS alerts,
    selecting a zone or a tourist.
- **the session provider** (`auth_context.dfy`, module `Auth`, class
  `AuthProvider`).
  - Restoring a saved session at start-up, or signing in the first officer.
  - Login by email with the one demo password.
  - Signup of a new officer with a fresh email.
  - Logout.

Two support modules hold the JavaScript built-ins this code relies on:

- `collections.dfy` (module `Collections`) has `Array.prototype.filter`,
  order-preserving subsequences and key uniqueness.
- `js_text.dfy` (module `JsText`) has `toLowerCase` (ASCII letters),
  `includes` and `split(' ')[0]`. It also has the global `parseInt` without a
  radix, following ECMAScript: leading white space, one sign, a `0x` prefix,
  and the leading digit run. `NaN` is `None`.

Modelling choices:

- `undefined`, `null` and absent optional fields are `Option`.
  - `sosActive` is `Option<bool>`, and a tourist counts as SOS exactly when it
    is `Some(true)`.
  - `averageSafetyScore` is `None` where the source divides by zero and gets
    `NaN`.
- `Math.round(sum / n)` is the integer nearest to sum/n, with halves rounded
  up. It is computed exactly as `(2*sum + n) / (2*n)`.
- The views read the global `mockZonesData`. Here the zone list is a
  parameter, and the seeded data is the constant `MOCK_ZONES`.
- Browser storage under the key `yaraUser` is the field `storedUser`.
- The global `mockOfficers` list, which signup extends, is the field
  `officers`.
- `Date.now()` is the parameter `now`.
- Where the source state is React state updated by handlers, the model is a
  class with one field per state variable. Each handler is a method that
  modifies only the fields the handler sets.

Behaviour that the proofs make explicit:

- `getAlertType` has a staleness test whose two outcomes are both
  `'inactive'`, so the test decides nothing.
- A non-SOS tourist with no issued identity is labelled `unregistered` even
  when it is listed for inactivity. In the seeded data this is T007.
- A tourist dot on the map is coloured by how crowded its zone is, not by the
  tourist's own risk level. Only SOS overrides that colour.
- Acknowledging an alert removes every entry with that tourist id. With
  unique ids, which the seeded data has, that is exactly one entry.
- With no tourists, the average safety score is `NaN` in the code. The
  model returns `None` there.

## Model

| member | source | states |
|---|---|---|
| MockData.TouristStatusColor | src/data/mockData.ts:238-246 | the colour is "sos" exactly for an active SOS; otherwise Low, Moderate and High map one-to-one to safe, moderate and risky |
| MockData.ZoneStatusColor | src/data/mockData.ts:248-255 | "Moderate" and "Risky" get moderate and risky; every other string, "Safe" included, gets safe; never sos |
| MockData.ZoneColorsDistinct | src/data/mockData.ts:248-255 | the three zone statuses get three different colours, none of them sos |
| MockData.AllTourists | src/data/mockData.ts:260 | the flattened list has as many entries as the zones hold together, and holds exactly the tourists of some zone |
| MockData.AllTouristsConcat | src/data/mockData.ts:260 | flattening keeps zone order: the list for a + b is the list for a followed by the list for b |
| MockData.IsSos | src/data/mockData.ts:286 | the tourist test `t => t.sosActive` (also src/components/dashboard/AlertsPage.tsx:20) |
| MockData.IsUnregistered | src/data/mockData.ts:287 | the tourist test `t => !t.idIssued` |
| MockData.WithoutId | src/components/dashboard/AlertsPage.tsx:37 | the list keeps exactly the tourists whose id differs from the given one (also src/components/maps/ZoneMap.tsx:36) |
| MockData.ScoreOrZero | src/data/mockData.ts:288 | a tourist's safety score, 0 when absent (`t.safetyScore \|\| 0`) |
| MockData.SumScores | src/data/mockData.ts:288 | the sum of the tourists' scores with an absent score counted as 0 (the `reduce` from 0) |
| MockData.StatusCount | src/data/mockData.ts:270-272 | the number of zones whose status is the given one (`zones.filter(...).length`) |
| MockData.SosTourists | src/data/mockData.ts:286 | the result holds exactly the listed tourists with an active SOS |
| MockData.WithoutIdKeepsOthers | src/components/dashboard/AlertsPage.tsx:36-37 | removing an id keeps every tourist with another id, with all its occurrences, in the original order |
| MockData.WithoutIdAbsent | src/components/maps/ZoneMap.tsx:35-37 | removing an id nobody has changes nothing; removing the same id twice equals removing it once |
| MockData.RoundedMean | src/data/mockData.ts:288 | defined exactly when there is at least one tourist; then the result r satisfies sum/n - 1/2 < r <= sum/n + 1/2, halves rounded up as Math.round does (RoundedMean(5, 2) is 3) |
| MockData.SumScoresConcat | src/data/mockData.ts:288 | the score sum (absent score as 0) of joined lists is the sum of their sums |
| MockData.StatusCountsCoverZones | src/data/mockData.ts:269-273 | the safe, moderate and risky zone counts add up to the number of zones |
| MockData.GetStatisticsData | src/data/mockData.ts:258-289 | one entry per zone with its name, tourist count and status in order; the Safe, Moderate and High slices carry their names, colours and the number of zones with that status, and sum to the zone count; total = tourists in all zones; activeSOS and unregisteredTourists are the lengths of the SOS and no-identity filters of all tourists, at most the total; the average is RoundedMean of the score sum (absent score as 0) over the total, present exactly when there are tourists |
| MockData.SumScoresBounds | src/data/mockData.ts:288 | with scores in [0, 100] the score sum lies in [0, 100 * count] |
| MockData.RoundedMeanBounds | src/data/mockData.ts:288 | the rounded mean of values in [lo, hi] stays in [lo, hi] |
| MockData.AverageScoreInRange | src/data/mockData.ts:288 | with at least one tourist and every score in [0, 100], the average safety score exists and lies in [0, 100] |
| MockData.SeededTourists | src/data/mockData.ts:52-236 | the seeded zones flatten to T001 … T010 in zone order |
| MockData.SeededKeysUnique | src/data/mockData.ts:35-236 | the seeded tourist ids and officer emails are unique |
| MockData.SeededSos | src/data/mockData.ts:286 | the seeded SOS tourists are T003 and T008, in that order |
| MockData.SeededUnregistered | src/data/mockData.ts:287 | the seeded tourists without an issued identity are T004 and T007 |
| MockData.SeededScoreSum | src/data/mockData.ts:288 | the seeded safety scores sum to 722 |
| MockData.SeededStatusCounts | src/data/mockData.ts:269-273 | the seeded zones are two safe, one moderate and two risky |
| MockData.SeededStatistics | src/data/mockData.ts:258-289 | on the seeded data: 10 tourists, 2 SOS, 2 unregistered, average 72, distribution 2/1/2 |
| Collections.Filter | src/components/dashboard/AlertsPage.tsx:20 | `Array.prototype.filter`: at most as long as the list, holds exactly the entries that pass the test, in their order (every `.filter` of the model) |
| JsText.ToLower | src/components/dashboard/AlertsPage.tsx:31-33 | same length, each character lower-cased (ASCII letters) |
| JsText.Includes | src/components/dashboard/AlertsPage.tsx:31-33 | `s.includes(needle)`: the needle starts at some position of s |
| JsText.IncludesEmpty | src/components/dashboard/AlertsPage.tsx:31-33 | every string includes the empty string, so an empty search term matches every tourist |
| JsText.IncludesAt | src/components/dashboard/AlertsPage.tsx:31-33 | `includes` holds exactly when the needle occurs at some position |
| JsText.FirstToken | src/components/dashboard/AlertsPage.tsx:23 | the first word is a prefix without a space, followed by a space or the end of the string |
| JsText.ParseInt | src/components/dashboard/AlertsPage.tsx:23 | `parseInt` with no radix: skip white space, take one sign, read a hexadecimal numeral after 0x or 0X and a decimal one otherwise; NaN (None) when no digit is read |
| JsText.Unsigned | src/components/dashboard/AlertsPage.tsx:23 | the text parseInt reads digits from: a suffix of the input, after white space and at most one sign |
| JsText.NoLeadingDigit | src/components/dashboard/AlertsPage.tsx:23 | no decimal digit follows white space and one sign |
| JsText.LeadingNumber | src/components/dashboard/AlertsPage.tsx:23 | a decimal digit after white space and one sign (without a 0x prefix) always gives a number |
| JsText.MinusWordNaN | src/components/dashboard/AlertsPage.tsx:23 | parseInt("-abc") is NaN |
| JsText.LoneSignNaN | src/components/dashboard/AlertsPage.tsx:23 | parseInt("+") is NaN |
| JsText.TabWordNaN | src/components/dashboard/AlertsPage.tsx:23 | parseInt of a tab followed by "now" is NaN |
| JsText.ParseDecimal | src/components/dashboard/AlertsPage.tsx:23 | parseInt reads back the numeral of n, also when non-digit text follows (except "0" followed by x, which is hexadecimal) |
| JsText.NoLeadingNumber | src/components/dashboard/AlertsPage.tsx:23 | parseInt is NaN whenever, after leading white space and at most one sign, no decimal digit follows (empty, "-abc", "+", tab followed by "now") |
| JsText.DecimalValue | src/contexts/AuthContext.tsx:74 | the decimal numeral written for n reads back as n |
| Alerts.SilentTooLong | src/components/dashboard/AlertsPage.tsx:22-23 | a present, non-empty last-active time whose first space-separated word parses to more than 20 |
| Alerts.IsInactivityAlert | src/components/dashboard/AlertsPage.tsx:21-23 | the inactivity filter: no active SOS and silent too long |
| Alerts.DeriveAlerts | src/components/dashboard/AlertsPage.tsx:18-26 | a tourist is in the alert list exactly when it has an active SOS, or has none and has been silent more than 20 minutes |
| Alerts.AlertsGroups | src/components/dashboard/AlertsPage.tsx:19-25 | the alert list is exactly the SOS filter of the tourists followed by the inactivity filter, each an order-preserving subsequence of the tourists |
| Alerts.AlertsSosFirst | src/components/dashboard/AlertsPage.tsx:18-26 | the list is the SOS tourists in order, then the inactive ones in order; every SOS entry precedes every other entry |
| Alerts.AlertsUnique | src/components/dashboard/AlertsPage.tsx:18-26 | with unique tourist ids, no tourist appears twice in the alert list |
| Alerts.FirstTokenOf | src/components/dashboard/AlertsPage.tsx:23 | the first word of "word rest" is word when word has no space |
| Alerts.SilentForMinutes | src/components/dashboard/AlertsPage.tsx:21-23 | a last-active time "N …" puts the tourist over the threshold exactly when N > 20 |
| Alerts.UnreadableTimeNoAlert | src/components/dashboard/AlertsPage.tsx:21-23 | a non-SOS tourist whose time is absent, or whose first word has no decimal digit after white space and one sign, is never listed |
| Alerts.GetAlertType | src/components/dashboard/AlertsPage.tsx:52-57 | Sos exactly for an active SOS; otherwise Unregistered exactly without an issued identity; otherwise Inactive |
| Alerts.AlertTypesOrdered | src/components/dashboard/AlertsPage.tsx:52-57 | in the alert list every entry labelled Sos precedes every other entry, and the others are exactly inactivity alerts |
| Alerts.MatchesSearch | src/components/dashboard/AlertsPage.tsx:31-33 | the lower-cased term occurs in the lower-cased name, the nationality when present, or the id |
| Alerts.SearchTourists | src/components/dashboard/AlertsPage.tsx:30-34 | the result holds exactly the tourists whose name, nationality or id contains the term, ignoring case |
| Alerts.SearchKeepsOrder | src/components/dashboard/AlertsPage.tsx:30-34 | the search result is a subsequence of the list and keeps every occurrence of a matching tourist |
| Alerts.EmptySearchListsAll | src/components/dashboard/AlertsPage.tsx:30-34 | an empty search term lists every tourist |
| Alerts.SearchIgnoresCase | src/components/dashboard/AlertsPage.tsx:30-34 | two terms equal up to letter case give the same result |
| Alerts.AlertsView.constructor | src/components/dashboard/AlertsPage.tsx:12-14 | the page starts with an empty search, no selection and no alerts |
| Alerts.AlertsView.LoadAlerts | src/components/dashboard/AlertsPage.tsx:18-26 | the alert list becomes the derived list; search and selection are unchanged |
| Alerts.AlertsView.AcknowledgeAlert | src/components/dashboard/AlertsPage.tsx:36-42 | the list loses every entry with that id and nothing else, and stays a subsequence of the derived list |
| Alerts.AlertsView.SelectTourist | src/components/dashboard/AlertsPage.tsx:120 | the profile shows that tourist |
| Alerts.AlertsView.CloseProfile | src/components/dashboard/AlertsPage.tsx:343 | no tourist is selected |
| Alerts.AlertsView.SetSearchTerm | src/components/dashboard/AlertsPage.tsx:156 | the search term becomes the typed text |
| Alerts.AlertsView.FilteredTourists | src/components/dashboard/AlertsPage.tsx:28-34 | the listed tourists are exactly those of all zones that match the current search term |
| Alerts.SeededT001Silence | src/components/dashboard/AlertsPage.tsx:21-23 | T001 ("5 minutes ago") is not over the threshold |
| Alerts.SeededT002Silence | src/components/dashboard/AlertsPage.tsx:21-23 | T002 ("3 minutes ago") is not over the threshold |
| Alerts.SeededT004Silence | src/components/dashboard/AlertsPage.tsx:21-23 | T004 ("8 minutes ago") is not over the threshold |
| Alerts.SeededT005Silence | src/components/dashboard/AlertsPage.tsx:21-23 | T005 ("12 minutes ago") is not over the threshold |
| Alerts.SeededT006Silence | src/components/dashboard/AlertsPage.tsx:21-23 | T006 ("15 minutes ago") is not over the threshold |
| Alerts.SeededT007Silence | src/components/dashboard/AlertsPage.tsx:21-23 | T007 ("25 minutes ago") is over the threshold |
| Alerts.SeededT009Silence | src/components/dashboard/AlertsPage.tsx:21-23 | T009 ("10 minutes ago") is not over the threshold |
| Alerts.SeededT010Silence | src/components/dashboard/AlertsPage.tsx:21-23 | T010 ("7 minutes ago") is not over the threshold |
| Alerts.SeededInactiveFront | src/components/dashboard/AlertsPage.tsx:21-24 | none of T001 … T005 is an inactivity alert |
| Alerts.SeededInactiveBack | src/components/dashboard/AlertsPage.tsx:21-24 | of T006 … T010 only T007 is an inactivity alert |
| Alerts.SeededInactive | src/components/dashboard/AlertsPage.tsx:21-24 | the one seeded inactivity alert is T007 |
| Alerts.SeededAlerts | src/components/dashboard/AlertsPage.tsx:18-26 | the seeded page starts with the alerts T003, T008, T007 |
| Alerts.SeededAlertTypes | src/components/dashboard/AlertsPage.tsx:52-57 | T003 and T008 are labelled Sos; T007 is labelled Unregistered |
| Alerts.SeededAcknowledge | src/components/dashboard/AlertsPage.tsx:36-37 | acknowledging T003 on the seeded list leaves T008, T007 |
| ZoneMap.Density | src/components/maps/ZoneMap.tsx:42-45 | "high" exactly from three tourists, "medium" exactly for two, "low" exactly below two |
| ZoneMap.CalculateDensity | src/components/maps/ZoneMap.tsx:40-46 | the zone at that index is "high" exactly with three or more tourists and "low" exactly with fewer than two |
| ZoneMap.DensityMonotone | src/components/maps/ZoneMap.tsx:43-45 | more tourists never give a lower crowding level |
| ZoneMap.DensityColor | src/components/maps/ZoneMap.tsx:48-54 | high is risky, medium is moderate, any other string is safe; never sos |
| ZoneMap.DotColor | src/components/maps/ZoneMap.tsx:172-176 | a dot is sos exactly for an active SOS, otherwise the crowding colour |
| ZoneMap.DotColorAgreesOnSos | src/components/maps/ZoneMap.tsx:172-176 | a map dot shows SOS exactly when the status colour of the tourist does |
| ZoneMap.DotColorIgnoresRisk | src/components/maps/ZoneMap.tsx:172-176 | two non-SOS tourists of the same zone get the same dot colour, whatever their risk levels |
| ZoneMap.DotColorByCrowding | src/components/maps/ZoneMap.tsx:134-176 | in a zone of 3+, 2, or fewer tourists a non-SOS dot is risky, moderate or safe |
| ZoneMap.SosBanner | src/components/maps/ZoneMap.tsx:60-64 | the banner is shown exactly when there are SOS alerts and starts with their count |
| ZoneMap.ZoneHighlighted | src/components/maps/ZoneMap.tsx:101 | a zone card is ringed exactly when a zone is selected and has the same zone id |
| ZoneMap.SeededDensities | src/components/maps/ZoneMap.tsx:40-46 | the seeded zones are medium, high, low, medium, medium |
| ZoneMap.ZoneMapView.constructor | src/components/maps/ZoneMap.tsx:14-17 | nothing selected, empty token, no alerts |
| ZoneMap.ZoneMapView.LoadSosAlerts | src/components/maps/ZoneMap.tsx:20-24 | the banner lists exactly the SOS tourists of all zones, in order |
| ZoneMap.ZoneMapView.ZoneClick | src/components/maps/ZoneMap.tsx:26-29 | the zone is selected (the cards with its id are highlighted) and the tourist details are closed |
| ZoneMap.ZoneMapView.TouristClick | src/components/maps/ZoneMap.tsx:31-33 | the tourist is selected; the zone selection is kept |
| ZoneMap.ZoneMapView.CloseTouristDialog | src/components/maps/ZoneMap.tsx:290 | no tourist is selected |
| ZoneMap.ZoneMapView.SetMapboxToken | src/components/maps/ZoneMap.tsx:76-79 | the token field holds the typed text |
| ZoneMap.ZoneMapView.DismissAlert | src/components/maps/ZoneMap.tsx:35-37 | the banner loses every entry with that id and still lists only SOS tourists, in their original order |
| ZoneMap.ZoneMapView.Banner | src/components/maps/ZoneMap.tsx:60-64 | the banner is shown exactly when the alert list is non-empty |
| Auth.EmailTaken | src/contexts/AuthContext.tsx:67 | `officers.some(o => o.email === email)`: some listed officer has that email |
| Auth.FindByEmail | src/contexts/AuthContext.tsx:47 | found exactly when some officer has that email, and then it is the first such officer |
| Auth.FindRegistered | src/contexts/AuthContext.tsx:47 | with unique emails, looking up an officer's email finds that officer |
| Auth.FindAfterAppend | src/contexts/AuthContext.tsx:67-82 | after appending an officer, lookups of emails already present are unchanged, and the new email finds the new officer |
| Auth.LoginResult | src/contexts/AuthContext.tsx:47-49 | login succeeds exactly for a listed email with "password123", and returns a listed officer with that email |
| Auth.WrongPasswordRefused | src/contexts/AuthContext.tsx:49 | any other password is refused, whatever the email |
| Auth.NewOfficer | src/contexts/AuthContext.tsx:73-79 | the new officer has the given name, email and department, the role "Tourism Safety Officer", and the id "OFF" followed by the number now |
| Auth.SignupThenLogin | src/contexts/AuthContext.tsx:67-84 | after signup with a new email, that officer can log in, the email counts as taken, and other logins are unchanged |
| Auth.SeededLogins | src/contexts/AuthContext.tsx:47-49 | the two seeded officers log in with their emails; an unknown email does not |
| Auth.AuthProvider.constructor | src/contexts/AuthContext.tsx:23-24 | nobody signed in, loading |
| Auth.AuthProvider.Restore | src/contexts/AuthContext.tsx:27-38 | a saved session is resumed; otherwise the first officer is signed in and saved; afterwards someone is signed in, it equals the saved session, and loading is over |
| Auth.AuthProvider.Login | src/contexts/AuthContext.tsx:40-58 | success exactly for a listed email with the demo password; then the first match is signed in and saved; on failure session and storage are unchanged; loading is over |
| Auth.AuthProvider.Signup | src/contexts/AuthContext.tsx:60-88 | success exactly for an email not listed; then exactly one officer is appended and signed in and saved; on failure nothing changes; unique emails stay unique |
| Auth.AuthProvider.Logout | src/contexts/AuthContext.tsx:90-93 | nobody is signed in and the saved session is cleared |

## Left out

- Rendering (JSX, CSS classes, icons, tooltips, cards, dialogs, toasts) is not modelled. Nor are the alert icon and colour tables of the alerts page (`getAlertIcon`, `getAlertColor`) or the labels shown on them.
- `handleIssueId` on the alerts page only shows a toast; it changes no state and is not modelled.
- Chart rendering, the reports page, the navigation bar, routing and the pages are not part of this model.
- The fixed `touristActivity` series of the statistics is a constant chart input and is left out of `Statistics`.
- Coordinates, zone radius and marker positions are floating-point layout and are left out.
- The one-second simulated delay of login and signup, and the `isLoading = true` state during it, are not modelled as separate steps. Each method is one atomic step and ends with loading over.
- JSON serialisation of the saved session is not modelled; the saved session is the officer record itself.
- The `useAuth` guard for use outside a provider belongs to React context plumbing and is left out.
- JsText.ToLower: only ASCII letters are lower-cased; Unicode case mapping is not modelled.
- MockData.RoundedMean: exact integer arithmetic stands for the floating-point division and `Math.round`. It agrees with them for the sums and counts of this dataset, but not for values too large for a double.
- Auth.AuthProvider.Signup: the password argument is accepted and ignored, as in the source.
- Auth.AuthProvider.constructor: requires a non-empty officer list. The seeded list has two officers and only grows, so start-up always finds a first officer.
- The Mapbox token only fills a text field; loading a real map is not part of this model.
