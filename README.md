# WasteWise admin front-end — a Dafny model

WasteWise is the administrator front-end of a municipal waste-collection
application. This project models the parts of four of its React components
whose logic can be stated exactly:

- **The admin shell** (`AdminDashboard.jsx`) keeps five state cells: the current
  view string, the zone ids picked for update and for delete, and the two sidebar
  flags. It has callbacks that update those cells and a `switch` that picks the
  panel for the current view. It also builds the avatar initials from the user's
  name.
  - `Admin.Step` gives each callback as one atomic update of an `AdminState` value.
  - The class `Admin.AdminDashboard` holds the same cells, with one method per
    callback. Each method promises `State() == Step(old(State()), handler)` and
    spells out its new fields.
  - The lemmas about `Step`, `Run` (handlers in sequence), `Dispatch` and
    `Initials` state what the shell guarantees.
  - One odd feature is proved: the Route, Vehicle and Assignment nav entries have
    no `case` of their own, so they show the default welcome content.
- **The zone panel** (`ZoneManagementDashboard.jsx`): "Total zones", "Zones with
  routes" (distinct `zoneId`s among routes) and "Unassigned routes" (routes whose
  `zoneId` is no zone's id). Also the zone ids its buttons pass to the shell.
- **The worker panel** (`WorkerManagementDashboard.jsx`): the occupied, available
  and absent counts (exact string comparison). Also the three state cells that
  the panel's effect writes them to (`WorkerManagement.WorkerDashboard`).
- **The route panel** (`RouteManagementDashboard.jsx`): "Total routes", the
  number of distinct route ids among assignments, and the average estimated time.
  - Each route's free-text `estimatedTime` is read with the regular expression
    `(\d+)\s*(hour|minute)s?`, under the leftmost, backtracking match of ECMA-262
    section 22.2.
  - The reduce sums the minutes, and the average is rounded as `toFixed(0)` does.
  - `RouteManagement.Matches` states the language of the pattern.
    `MatchAtComplete` proves that the greedy attempt at a position is the only
    way to match there. `FirstMatchFrom` is the leftmost search.

Data comes from a shared provider as plain sequences of `Zone`, `Route`,
`Worker` and `Assignment` records (module `Pickup`). Ids are strings, and a
JavaScript `null` or `undefined` id is `Option.None`.

Module layout: `Common` (Option, `Distinct` = `new Set(xs)`, `Count` =
`filter(p).length`), `Pickup`, `ZoneManagement`, `WorkerManagement`,
`RouteManagement`, `Admin`.

## Model

| member | source | states |
|---|---|---|
| `Common.Distinct` | ZoneManagementDashboard.jsx:13 | `new Set(xs)` holds exactly the values of `xs`; its size is at most `|xs|` and is 0 exactly for the empty list |
| `Common.DistinctPermutation` | ZoneManagementDashboard.jsx:13 | reordering a list leaves its set of values unchanged |
| `Common.DistinctAppendPresent` | ZoneManagementDashboard.jsx:13 | appending a value already present leaves the set and its size unchanged |
| `Common.Count` | WorkerManagementDashboard.jsx:25-27 | `filter(p).length` is at most the list length |
| `Common.CountPermutation` | WorkerManagementDashboard.jsx:25-27 | a filter count does not depend on the order of the list |
| `Common.CountExtremes` | ZoneManagementDashboard.jsx:16 | a filter count equals the length exactly when every element passes, and is 0 exactly when none does |
| `ZoneManagement.RouteZoneIds` | ZoneManagementDashboard.jsx:13 | `routes.map(route => route.zoneId)` has one entry per route, in order |
| `ZoneManagement.HasZone` | ZoneManagementDashboard.jsx:16 | `zones.some(zone => zone.id === id)`: some listed zone has exactly this id |
| `ZoneManagement.ZonesWithRoutes` | ZoneManagementDashboard.jsx:13 | the size of the set of route `zoneId`s; at most `|routes|`, and 0 exactly when there are no routes |
| `ZoneManagement.UnassignedRoutes` | ZoneManagementDashboard.jsx:16 | the number of routes whose `zoneId` no listed zone has; at most `|routes|` |
| `ZoneManagement.Stats` | ZoneManagementDashboard.jsx:12-16 | total zones is `|zones|`; zones-with-routes is at most `|routes|` and 0 exactly when there are no routes; unassigned routes is at most `|routes|` |
| `ZoneManagement.ActionButtons` | ZoneManagementDashboard.jsx:88-102 | the buttons above the table ask for the create form, and for the update and delete forms with `null` |
| `ZoneManagement.RowButtons` | ZoneManagementDashboard.jsx:153-161 | a row's edit and delete buttons ask for the update and delete forms on that row's `zone.id` |
| `ZoneManagement.ZonesWithRoutesIds` | ZoneManagementDashboard.jsx:13 | zones-with-routes is the number of distinct `zoneId`s of routes, whatever the zones are |
| `ZoneManagement.DanglingZoneIdCountedTwice` | ZoneManagementDashboard.jsx:13-16 | with no zones, one route gives 0 zones, 1 zone with routes and 1 unassigned route |
| `ZoneManagement.ZonesWithRoutesAddPresent` | ZoneManagementDashboard.jsx:13 | adding a route whose `zoneId` another route already has leaves zones-with-routes unchanged |
| `ZoneManagement.ZonesWithRoutesPermutation` | ZoneManagementDashboard.jsx:13 | zones-with-routes does not depend on the order of routes |
| `ZoneManagement.UnassignedWithoutZones` | ZoneManagementDashboard.jsx:14-16 | with no zones every route is unassigned |
| `ZoneManagement.UnassignedZeroIff` | ZoneManagementDashboard.jsx:14-16 | no route is unassigned exactly when every route's `zoneId` is some zone's id |
| `ZoneManagement.UnassignedPartition` | ZoneManagementDashboard.jsx:16 | unassigned routes plus routes whose zone exists is `|routes|` |
| `ZoneManagement.UnassignedPermutation` | ZoneManagementDashboard.jsx:16 | unassigned routes depends on neither the order of routes nor the order of zones |
| `WorkerManagement.StatusPartition` | WorkerManagementDashboard.jsx:25-27 | each worker is counted as occupied, available, absent, or none of them, exactly once |
| `WorkerManagement.CountStatus` | WorkerManagementDashboard.jsx:25-27 | `workers.filter(w => w.status === status).length`: the workers whose status is exactly that string; at most `|workers|` |
| `WorkerManagement.StatusCounts` | WorkerManagementDashboard.jsx:25-27 | the three counts sum to at most `|workers|`, with equality exactly when every status is one of the three strings |
| `WorkerManagement.UncountedStatusIgnored` | WorkerManagementDashboard.jsx:25-27 | a worker with any other status string changes none of the counts |
| `WorkerManagement.CapitalisedStatusIgnored` | WorkerManagementDashboard.jsx:25 | status "Occupied" (different case) is not counted as occupied |
| `WorkerManagement.StatusCountsPermutation` | WorkerManagementDashboard.jsx:25-27 | the counts do not depend on the order of workers |
| `WorkerManagement.WorkerDashboard.constructor` | WorkerManagementDashboard.jsx:18-20 | the three cells start at 0 |
| `WorkerManagement.WorkerDashboard.RecountStatuses` | WorkerManagementDashboard.jsx:22-32 | after the effect the cells hold the filter counts of the current workers |
| `RouteManagement.DigitRunEnd` | RouteManagementDashboard.jsx:16 | `\d+` taken greedily: the end of the longest digit run from a position |
| `RouteManagement.IsSpace` | RouteManagementDashboard.jsx:16 | the characters `\s` matches (the set is narrowed, see `## Left out`) |
| `RouteManagement.SpaceRunEnd` | RouteManagementDashboard.jsx:16 | `\s*` taken greedily: the end of the longest white-space run from a position |
| `RouteManagement.UnitAt` | RouteManagementDashboard.jsx:16 | `(hour|minute)` at a position: `Hour` exactly when the text there starts with "hour", `Minute` exactly when it starts with "minute" |
| `RouteManagement.Matches` | RouteManagementDashboard.jsx:16 | the language of the pattern: one or more digits, then white space, then a unit word |
| `RouteManagement.MatchAt` | RouteManagementDashboard.jsx:16 | a match reported at `i` is in the pattern's language, and its group 1 is a non-empty digit string read from the text at `i` |
| `RouteManagement.DigitRunEndUnique` | RouteManagementDashboard.jsx:16 | a digit run that cannot be extended is the one `\d+` takes greedily |
| `RouteManagement.SpaceRunEndUnique` | RouteManagementDashboard.jsx:16 | a white-space run that cannot be extended is the one `\s*` takes greedily |
| `RouteManagement.MatchAtComplete` | RouteManagementDashboard.jsx:16 | any way the pattern matches at `i` is the greedy one, so backtracking finds nothing else |
| `RouteManagement.FirstMatchFrom` | RouteManagementDashboard.jsx:16 | the search returns the leftmost position with a match, or none when no position matches |
| `RouteManagement.FirstMatch` | RouteManagementDashboard.jsx:16 | `estimatedTime.match(...)`: the match at the leftmost position of the text where one exists, none when no position matches |
| `RouteManagement.MatchExtendsLeft` | RouteManagementDashboard.jsx:16 | a match starting inside a digit run also exists one digit earlier |
| `RouteManagement.FirstMatchIsWholeRun` | RouteManagementDashboard.jsx:16-18 | the leftmost match starts at the start of a maximal digit run, and group 1 is that whole run |
| `RouteManagement.DigitChar` | RouteManagementDashboard.jsx:23 | the digit character printed for `d < 10` reads back as `d` |
| `RouteManagement.ParseDecimal` | RouteManagementDashboard.jsx:18 | `parseInt(timeParts[1])`: the base-10 value of the digit string |
| `RouteManagement.LeadingZero` | RouteManagementDashboard.jsx:18 | `parseInt` ignores leading zeros |
| `RouteManagement.DecimalString` | RouteManagementDashboard.jsx:23 | the printed integer is a non-empty digit string without leading zeros |
| `RouteManagement.DecimalRoundTrip` | RouteManagementDashboard.jsx:18-23 | reading the printed integer back in base 10 gives the integer |
| `RouteManagement.RouteMinutes` | RouteManagementDashboard.jsx:16-22 | what one route adds to the sum: group 1 in base 10, times 60 for `hour`, and 0 when the text does not match |
| `RouteManagement.TotalMinutes` | RouteManagementDashboard.jsx:15-22 | the `reduce` from 0: the sum of every route's minutes, so no single route's minutes exceed it |
| `RouteManagement.RoundedQuotient` | RouteManagementDashboard.jsx:23 | `toFixed(0)` of `sum / count` gives the nearest integer, the larger one on a tie |
| `RouteManagement.AverageEstimatedTime` | RouteManagementDashboard.jsx:14-24 | the card shows `'N/A'` exactly when there are no routes |
| `RouteManagement.DisplayReadsBack` | RouteManagementDashboard.jsx:23 | a printed integer followed by `' minutes'` reads back as that integer |
| `RouteManagement.AverageMeaning` | RouteManagementDashboard.jsx:14-23 | otherwise the card is a decimal integer and `' minutes'`, and the integer is the mean minutes per route, rounded half up |
| `RouteManagement.RouteMinutesOfLeftmostMatch` | RouteManagementDashboard.jsx:16-20 | a route whose text first matches at `i` adds the number there, times 60 for `hour` |
| `RouteManagement.UnparseableStillCounted` | RouteManagementDashboard.jsx:21-23 | a route with no match adds 0 to the sum but is still counted in the divisor |
| `RouteManagement.OnlyFirstMatchCounts` | RouteManagementDashboard.jsx:16 | "1 hour 30 minutes" adds 60 |
| `RouteManagement.UnanchoredSuffix` | RouteManagementDashboard.jsx:16 | "2 hourly" adds 120 |
| `RouteManagement.LeadingHourMatch` | RouteManagementDashboard.jsx:16-20 | a text that starts with one digit, a space and "hour" adds that digit times 60 |
| `RouteManagement.AssignmentRouteIds` | RouteManagementDashboard.jsx:13 | `assignments.map(a => a.routeId)` has one entry per assignment, in order |
| `RouteManagement.Stats` | RouteManagementDashboard.jsx:12-24 | total routes is `|routes|`; routes assigned is at most `|assignments|` and 0 exactly when there are none; the average is `'N/A'` exactly when there are no routes |
| `RouteManagement.RoutesAssignedIds` | RouteManagementDashboard.jsx:13 | routes assigned is the number of distinct `routeId`s among the assignments, whatever the routes are |
| `RouteManagement.RoutesAssignedCountsUnknownIds` | RouteManagementDashboard.jsx:13 | an assignment counts toward routes assigned even when no listed route has its id |
| `RouteManagement.ActionButtons` | RouteManagementDashboard.jsx:81-87 | the buttons above the table call `onCreateRoute`, and `onUpdateRoute()` and `onDeleteRoute()` with no argument |
| `RouteManagement.RowButtons` | RouteManagementDashboard.jsx:126-129 | a row's edit and delete buttons call `onUpdateRoute` and `onDeleteRoute` with that row's `route.id` |
| `RouteManagement.ButtonArguments` | RouteManagementDashboard.jsx:84-129 | row buttons pass their route's id; the general Update and Delete buttons pass no argument |
| `Admin.InitialState` | AdminDashboard.jsx:24-28 | the five cells as `useState` starts them: view `'adminDashboard'`, both ids `null`, both sidebar flags false |
| `Admin.Step` | AdminDashboard.jsx:30-163 | one handler as one atomic update: navigation sets the view, closes the mobile sidebar and clears both ids; the worker and zone handlers and the `onBack` lambdas set the view, and the update/delete zone handlers also store their id; the desktop toggle negates the collapse flag; the mobile sheet sets the open flag |
| `Admin.Run` | AdminDashboard.jsx:30-163 | handlers applied one after the other, each on the state the previous one left |
| `Admin.Dispatch` | AdminDashboard.jsx:70-117 | the welcome content is shown exactly for views outside the seven named cases; the update and delete forms receive the given ids |
| `Admin.DispatchRoundTrip` | AdminDashboard.jsx:70-117 | each case label selects its own panel, and each panel is selected by its own label |
| `Admin.Content` | AdminDashboard.jsx:70-117 | the panel the `switch` renders for the state's view, with the held zone ids passed to the update and delete forms |
| `Admin.InitialContent` | AdminDashboard.jsx:24-28 | the shell starts on the welcome content, with no zone ids and both sidebar flags false |
| `Admin.NavItems` | AdminDashboard.jsx:119-126 | the six nav entries, with their names and target views, in order |
| `Admin.NavigationTargets` | AdminDashboard.jsx:119-126 | Dashboard, Route, Vehicle and Assignment nav entries show the welcome content; Worker and Zone open their panels |
| `Admin.FormsReceiveHeldIds` | AdminDashboard.jsx:97-102 | the update and delete forms receive exactly `zoneToUpdateId` and `zoneToDeleteId` |
| `Admin.ZoneHandler` | AdminDashboard.jsx:87-91 | the zone panel's `onCreateZone`, `onUpdateZone` and `onDeleteZone` are `handleCreateZone`, `handleUpdateZone` and `handleDeleteZone`, and the id is passed through |
| `Admin.CollapseFlagWriters` | AdminDashboard.jsx:163 | only the desktop toggle writes the collapse flag, and it negates it |
| `Admin.ToggleTwice` | AdminDashboard.jsx:163 | toggling the desktop sidebar twice restores the whole state |
| `Admin.CollapseAfterRun` | AdminDashboard.jsx:160-167 | after any run of handlers the flag is its start value xor an odd number of toggles |
| `Admin.ViewOnlyHandlers` | AdminDashboard.jsx:38-101 | the create/update-worker handlers, success handlers and `onBack` lambdas change only the view, to `'workerManagement'` or `'zoneManagement'` for success and back |
| `Admin.IdsSurviveUntilNavigation` | AdminDashboard.jsx:55-63 | a picked zone id survives every handler except navigation and a new pick of the same kind |
| `Admin.NavigationClearsIds` | AdminDashboard.jsx:30-35 | after navigation, no zone id is held until an update or delete button sets one |
| `Admin.RowButtonsOpenFormOnZone` | ZoneManagementDashboard.jsx:150-165 | a row's edit or delete button opens that form on the row's zone id |
| `Admin.GeneralButtonsOpenBlankForms` | ZoneManagementDashboard.jsx:87-107 | the general buttons open the create form, and the update and delete forms with a null id |
| `Admin.SplitOnSpace` | AdminDashboard.jsx:188 | `split(' ')` gives at least one piece and no piece contains a space |
| `Admin.SplitJoin` | AdminDashboard.jsx:188 | joining the pieces with single spaces gives back the name |
| `Admin.FirstChars` | AdminDashboard.jsx:188 | `.map(n => n[0]).join('')`: the first character of each piece, and nothing for an empty piece |
| `Admin.WordStarts` | AdminDashboard.jsx:188 | the reference reading: word-initial characters, never a space, at most one per character |
| `Admin.FirstCharsAreWordStarts` | AdminDashboard.jsx:188 | `split(' ').map(n => n[0]).join('')` is exactly the characters that start the name or follow a space |
| `Admin.NoWordStarts` | AdminDashboard.jsx:188 | there is no word start exactly when the name is all spaces (or empty) |
| `Admin.Initials` | AdminDashboard.jsx:188 | no name gives `'U'`; an all-space or empty name gives `'U'`; otherwise the result is the word-initial characters; never empty, never a space |
| `Admin.AdminDashboard.constructor` | AdminDashboard.jsx:24-28 | view `'adminDashboard'`, both ids null, both sidebar flags false |
| `Admin.AdminDashboard.HandleNavigation` | AdminDashboard.jsx:30-35 | view := module, mobile sidebar closed, both ids null, collapse flag unchanged |
| `Admin.AdminDashboard.HandleCreateWorker` | AdminDashboard.jsx:38-40 | only the view changes, to `'createWorker'` |
| `Admin.AdminDashboard.HandleUpdateWorker` | AdminDashboard.jsx:42-44 | only the view changes, to `'updateWorker'` |
| `Admin.AdminDashboard.HandleWorkerSuccess` | AdminDashboard.jsx:46-48 | only the view changes, to `'workerManagement'` |
| `Admin.AdminDashboard.BackToWorkers` | AdminDashboard.jsx:80-83 | the worker forms' `onBack` changes only the view, to `'workerManagement'` |
| `Admin.AdminDashboard.HandleCreateZone` | AdminDashboard.jsx:51-53 | only the view changes, to `'createZone'` |
| `Admin.AdminDashboard.HandleUpdateZone` | AdminDashboard.jsx:55-58 | `zoneToUpdateId` := the id and view := `'updateZone'`; `zoneToDeleteId` and the flags unchanged |
| `Admin.AdminDashboard.HandleDeleteZone` | AdminDashboard.jsx:60-63 | `zoneToDeleteId` := the id and view := `'deleteZone'`; `zoneToUpdateId` and the flags unchanged |
| `Admin.AdminDashboard.HandleZoneSuccess` | AdminDashboard.jsx:65-67 | only the view changes, to `'zoneManagement'` |
| `Admin.AdminDashboard.BackToZones` | AdminDashboard.jsx:95-101 | the zone forms' `onBack` changes only the view, to `'zoneManagement'` |
| `Admin.AdminDashboard.ToggleDesktopSidebar` | AdminDashboard.jsx:163 | only the collapse flag changes, to its negation |
| `Admin.AdminDashboard.SetMobileSidebarOpen` | AdminDashboard.jsx:136 | only the mobile sidebar flag changes, to the value passed |

## Left out

- All JSX rendering: class names, icons, cards, tables and animation props. It has no logic beyond what is modelled.
- The auth, theme and pickup providers (`useAuth`, `useTheme`, `usePickup`), `logout` and `toggleTheme`. Their code is not part of this model. The shell's user name becomes the `Option<string>` argument of `Initials`. The provider's collections become plain input sequences.
- The `CreateWorker`, `UpdateWorker`, `CreateZone`, `UpdateZone` and `DeleteZone` forms are not part of this model. Only the panel value that selects them, and the id handed to them, is modelled.
- React scheduling: when `useEffect` runs and how `set*` calls are batched. Each handler is one atomic update, and `RecountStatuses` is the whole effect.
- When the mobile `Sheet` library component calls `onOpenChange`. Only the state change it causes is modelled (`SetMobileSidebarOpen`).
- `RouteManagement.RoundedQuotient`: the average is computed on exact integers. Floating-point division, and `toFixed` printing in exponent form for values of 10^21 and above, are not modelled.
- `RouteManagement.ParseDecimal`: `parseInt` precision loss on very long digit strings is not modelled; numbers are unbounded.
- `RouteManagement.IsSpace`: `\s` is a fixed set of ten characters (ASCII white space, no-break space, byte-order mark, line and paragraph separators). The other Unicode space separators are left out.
- `Admin.FirstChars`: the first element of each piece is modelled as one character. JavaScript's `n[0]` takes one UTF-16 code unit, which splits astral characters.
- A route whose `estimatedTime` is not a string makes `.match` throw. The model takes `estimatedTime` to be a string.
- A `user.name` that is present but not a string is not modelled: the name is `Option<string>`.
- The route panel's Create/Update/Delete callbacks are only modelled as the arguments its buttons pass. The shell never renders the route panel (see `Admin.NavigationTargets`), so no handler is wired to them.
