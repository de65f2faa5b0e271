# Campus Express in Dafny

A model of the core of Campus Express, a Next.js logistics dashboard for a campus delivery service, with proofs about it. The model covers:

- **Auth gate** (`Auth`): pulls the bearer token out of the `Authorization` header, verifies it and checks the caller's role against an allowed list.
- **Route handlers** (`MeRoute`, `LoginRoute`, `RegisterRoute`, `UsersRoute`, `ShipmentsRoute`, `LegacyShipmentsRoute`, `InventoryRoute`, `WarehousesRoute`): each returns a `Reply` (a JSON body with a status, or an uncaught exception). They work over an in-memory `Store.Database`, which has one sequence per collection and a counter for fresh ids.
  - The database is a class. Its `Valid()` invariant holds the schema checks, fresh and distinct ids, unique emails and unique tracking ids. Every handler that writes keeps it.
  - The two apps in the repository use different shipment schemas (`ShipmentModel` and `LegacyShipmentModel`). They are kept as separate collections.
- **Mongoose schemas** (`UserModel`, `WarehouseModel`, `InventoryItemModel`, `ShipmentModel`, `LegacyShipmentModel`): each `Build` says what `Model.create` stores for an input, or its ValidationError. It covers the required fields (missing or empty), enum fields, defaults and timestamps.
- **Browser side**:
  - `ProtectedRoute`: the redirecting guard. It is a class whose `loading`, `isAuthorized` and navigation history change step by step.
  - The two sidebars (`ClientSidebar`, `LegacySidebar`): role filtering and the active link.
  - The dashboard (`DashboardPage`): KPI counting and the fetch flow.
  - The charts (`ShipmentChart`, `LocationChart`): count, label, sort and cut.
  - `RecentShipments`: an in-place sort on an array, then the first ten.
  - `ShipmentMap`: coordinate resolution and live updates.
  - The forms and page state of the users, shipments and inventory pages and the create-shipment modal (`UsersPage`, `ShipmentsPage`, `InventoryPage`, `CreateShipmentModal`).

JavaScript behaviour is written out explicitly in the model:

- truthiness (`||` on strings, `0` coordinates, an empty role list);
- case-sensitive `startsWith`;
- `split(" ")[1]`;
- `toLowerCase`;
- the white space `\s` matches;
- `Object.entries` insertion order;
- `Array.filter` and `Array.sort`.

Things the model cannot compute become parameters:

- signing, verification and hashing (the `Crypto` record);
- the clock (`now`);
- `Date` parsing and calendar days;
- `parseFloat`;
- the random tracking id;
- the outcome of every fetch;
- the faults Mongoose may throw.

The shared helpers are `Wrappers`, `Text`, `Seqs`, `Tally`, `Sorting`, `Failures` and `Browser`.

## Model

| member | source | states |
|---|---|---|
| Auth.BearerToken | client/lib/auth.ts:14-19 | a token is taken exactly when the header is present and starts with the case-sensitive `Bearer ` |
| Auth.BearerTokenIsFirstWord | client/lib/auth.ts:19 | the token is the text after `Bearer ` up to the next space (the second piece of the split on spaces) |
| Auth.TokenIgnoresTail | client/lib/auth.ts:19 | anything after a space following the token is ignored |
| Auth.SchemeIsCaseSensitive | client/lib/auth.ts:15 | `bearer ` and `BEARER ` headers yield no token |
| Auth.VerifyAuth | client/lib/auth.ts:13-26 | a missing or non-Bearer header gives null; otherwise exactly what the verifier makes of the token, null for a rejected one |
| Auth.Includes | client/lib/auth.ts:30 | a role string is included exactly when some allowed role has that name |
| Auth.AuthorizeMeansMembership | client/lib/auth.ts:28-31 | authorised iff a user is present and its role claim names an allowed role; null users and empty role lists are refused |
| Auth.AuthorizeMonotone | client/lib/auth.ts:28-31 | widening the allowed roles never revokes access |
| Auth.ClaimsFor | app/api/auth/login/route.ts:29-33 | the token is signed over the user's id, email and role with a seven-day lifetime |
| MeRoute.Get | client/app/api/auth/me/route.ts:17-49 | connect failure 500; missing/non-Bearer header 401 "Unauthorized"; rejected token 401 "Invalid token"; no id claim 401 "Invalid token payload"; a throwing `findById` 500 "Something went wrong"; 404 exactly when no stored user has the id; 200 with that user minus the password exactly when one does |
| LoginRoute.Post | app/api/auth/login/route.ts:13-48 | a thrown fault gives 500; every other failure is 401 "Invalid credentials"; success means a stored user with that email whose hash matches, answered with its summary and a token signed over its claims |
| LoginRoute.FailuresIndistinguishable | app/api/auth/login/route.ts:19-27 | in any consistent users collection, an unknown email and a wrong password get the same reply |
| LoginRoute.EmailKeysUser | app/api/auth/login/route.ts:19 | with unique emails, looking a stored user up by email finds that user |
| LoginRoute.MatchingPasswordLogsIn | app/api/auth/login/route.ts:24-43 | a stored user with a matching password always logs in, with the exact reply |
| RegisterRoute.NewUser | client/app/api/auth/register/route.ts:24-31 | the created document carries the hash and the client's role when it is truthy, else `WarehouseStaff` |
| RegisterRoute.Post | client/app/api/auth/register/route.ts:13-52 | 400 "User already exists" when the email is taken; success exactly when the schema accepts the new user, which is then appended with the next id, the submitted name and email, the hashed password and the requested or default role; otherwise 500 and the users are unchanged |
| UserModel.ParseRole | shared/models/User.ts:17-21 | a string parses exactly when it is the name of one of the three roles |
| UserModel.RoleNameRoundTrip | shared/models/User.ts:19 | parsing a role's name gives the role back |
| UserModel.Build | shared/models/User.ts:12-24 | creation succeeds iff name, email and password are non-empty and the role is absent or one of the enum; the stored user has the given fields, the default role when none was given, and both timestamps set to now; otherwise a ValidationError |
| UserModel.Public | client/app/api/auth/me/route.ts:39 | the public view keeps every field except the password |
| UserModel.Summary | app/api/auth/login/route.ts:36-41 | the reply's user object is the id, name, email and role |
| UsersRoute.AdminOrManagerIsAuthorize | app/api/users/route.ts:31-33 | the route's own role test is exactly authorisation for Admin and Manager |
| UsersRoute.IsAdminIsAuthorize | app/api/users/route.ts:55-57 | the create handler's role test is exactly authorisation for Admin |
| UsersRoute.PublicList | app/api/users/route.ts:35 | the listed users are all stored users, in order, without passwords |
| UsersRoute.Get | app/api/users/route.ts:15-37 | connect failure and a throwing `User.find` are uncaught; missing/non-Bearer header 401; rejected token 401 "Invalid token"; other roles 403; success exactly for Admin/Manager when the query succeeds, listing every user without the password |
| UsersRoute.Post | app/api/users/route.ts:39-88 | the same header and token errors; 403 exactly for a verified non-Admin; 400 for a missing name, email or password and for a taken email; success appends a user with the hashed password and the requested or default role, answered 201 without the password; a failed request leaves the users unchanged |
| Store.FindUserByEmail | app/api/auth/login/route.ts:19 | a found user is stored and has that email; not found means no stored user has it |
| Store.FindUserById | client/app/api/auth/me/route.ts:39 | a found user is stored and has that id; not found means none has it |
| Store.FindWarehouseByName | client/app/api/shipments/route.ts:9 | a found warehouse is stored and has that name; not found means none has it |
| Store.InsertUser | shared/models/User.ts:15 | a fault is passed on; otherwise the insert succeeds exactly when the schema builds the user and no stored user has its email, and then stores exactly the built user (fresh id, schema-valid); a built user whose email is taken fails with the duplicate-key error |
| Store.InsertShipment | shared/models/Shipment.ts:24 | a fault is passed on; otherwise the insert succeeds exactly when the schema builds the shipment and its tracking id is free, and then stores exactly the built shipment (fresh id, schema-valid); a taken tracking id fails with the duplicate-key error |
| Store.AppendWarehouseOk | shared/models/Warehouse.ts:12-20 | appending a valid warehouse with the next id keeps the collection invariant |
| Store.AppendShipmentOk | shared/models/Shipment.ts:22-46 | appending a valid shipment with the next id and an unused tracking id keeps the collection invariant |
| Store.BuildWarehouses | client/app/api/warehouses/route.ts:33 | a batch insert succeeds exactly when every document passes the schema, each getting the next id in turn |
| Store.BuildWarehousesOk | shared/models/Warehouse.ts:12-20 | a successful batch keeps the warehouse collection invariant |
| Store.BuildShipments | client/app/api/shipments/route.ts:96 | a successful batch holds each input built with consecutive ids |
| Store.BuildShipmentsOk | client/app/api/shipments/route.ts:96 | a successful batch keeps the shipment collection invariant |
| Store.Database.CreateUser | shared/models/User.ts:12-24 | `User.create`: keeps the store valid; success appends exactly the built user and advances the id; failure changes nothing |
| Store.Database.CreateWarehouse | shared/models/Warehouse.ts:12-20 | `Warehouse.create`: the fault or the schema result; success appends, failure changes nothing |
| Store.Database.InsertWarehouses | shared/models/Warehouse.ts:12-20 | `Warehouse.insertMany`: all-or-nothing append of the built batch |
| Store.Database.CreateItem | shared/models/InventoryItem.ts:12-20 | `InventoryItem.create`: the fault or the schema result; success appends, failure changes nothing |
| Store.Database.CreateShipment | shared/models/Shipment.ts:22-46 | `Shipment.create`: the insert result; success appends, failure changes nothing |
| Store.Database.InsertShipments | client/app/api/shipments/route.ts:96 | `Shipment.insertMany`: the fault or the built batch, appended all-or-nothing |
| Store.Database.CreateLegacyShipment | models/Shipments.ts:1-29 | the root app's `Shipment.create`: the fault or the schema result; success appends, failure changes nothing |
| Failures.ShipmentError | client/app/api/shipments/route.ts:168-192 | a caught error answers 400 exactly for a ValidationError or CastError, otherwise 500 |
| Failures.ServerError | client/app/api/shipments/route.ts:105-116 | a caught error answers 500, with its message when it is an Error and none otherwise |
| ShipmentsRoute.FindAfterAppend | client/app/api/shipments/route.ts:9-18 | a warehouse created under a missing name is found by that name afterwards |
| ShipmentsRoute.GetDefaultWarehouse | client/app/api/shipments/route.ts:8-21 | returns the existing "Default Warehouse" unchanged, or appends one at "Main Distribution Center" with capacity 1000 and load 0; afterwards the name always resolves to the returned id |
| ShipmentsRoute.TrackingIdsDistinct | shared/models/Shipment.ts:24 | in a consistent store the listed shipments' tracking ids are pairwise distinct (the unique index) |
| ShipmentsRoute.SamplesInsert | client/app/api/shipments/route.ts:38-96 | the three sample shipments pass the schema, get TRK001-TRK003 in order, the default warehouse and are not delivered |
| ShipmentsRoute.Get | client/app/api/shipments/route.ts:23-117 | 401 unless Admin, Manager or WarehouseStaff; a non-empty store is listed unchanged; an empty one is seeded with the three samples under the default warehouse, or answered [] when seeding fails |
| ShipmentsRoute.WeightOr | client/app/api/shipments/route.ts:140 | the stored weight is never 0: a non-zero weight is kept, anything else becomes 1 |
| ShipmentsRoute.InsertIgnoresId | shared/models/Shipment.ts:22-46 | whether a create succeeds does not depend on the id it would get |
| ShipmentsRoute.Normalise | client/app/api/shipments/route.ts:136-153 | every default of the create body: description, location falling back to the sender address, weight, dimensions, status "pending", empty contact fields, dates defaulting to now and a week later, delivered exactly for status "delivered" |
| ShipmentsRoute.MissingFieldsInOrder | client/app/api/shipments/route.ts:155-156 | the missing fields are the four checked fields that are empty, in the checked order |
| ShipmentsRoute.MissingFieldsMeaning | client/app/api/shipments/route.ts:155-158 | no field is missing iff all four are non-empty; each name is listed iff its field is empty |
| ShipmentsRoute.ContactsLeftToSchema | shared/models/Shipment.ts:22-46 | an empty sender contact passes the route's check but the schema rejects it, answered 400 |
| ShipmentsRoute.Warehouse | client/app/api/shipments/route.ts:134 | the body's warehouse, else the token's, else the default one (perhaps newly created) |
| ShipmentsRoute.CreateChecked | client/app/api/shipments/route.ts:155-192 | 400 with the missing fields; otherwise the create fault's error or, without one, success exactly when the schema accepts; success is 201 with the appended shipment |
| ShipmentsRoute.Submit | client/app/api/shipments/route.ts:128-166 | the normalised document under the resolved warehouse goes through the missing-field check and the create; the default warehouse may be created even when the request then fails |
| ShipmentsRoute.Post | client/app/api/shipments/route.ts:119-193 | a fault is mapped by error name; 403 unless Admin or Manager; an unreadable body 500; otherwise as Submit; a failed request stores no shipment |
| WarehousesRoute.SamplesInsert | client/app/api/warehouses/route.ts:18-33 | the two sample warehouses are stored as given, with consecutive ids and load 0 |
| WarehousesRoute.Get | client/app/api/warehouses/route.ts:6-43 | connect failure, a throwing `find` and a throwing seed `insertMany` are uncaught and write nothing; 401 unless one of the three roles; a non-empty collection is listed unchanged; an empty one is seeded with the two samples and they are listed |
| WarehousesRoute.Post | client/app/api/warehouses/route.ts:45-60 | 403 unless Admin; success exactly when the body is readable, no fault occurs and the schema accepts it, answered 201 with the appended warehouse; every other failure is 500 "Failed to add warehouse" and stores nothing |
| WarehouseModel.Build | shared/models/Warehouse.ts:12-20 | creation succeeds iff name and location are non-empty and a capacity is given; the load defaults to 0 and the timestamps are now; otherwise a ValidationError |
| WarehouseModel.CapacityNotEnforced | shared/models/Warehouse.ts:16-17 | for every capacity and every load, beyond the capacity or negative, the schema stores both as given |
| InventoryItemModel.Build | shared/models/InventoryItem.ts:12-20 | creation succeeds iff the name is non-empty and a warehouse is given; quantity defaults to 0 and threshold to 10; otherwise a ValidationError |
| ShipmentModel.ParseStatus | shared/models/Shipment.ts:29-33 | a status string parses exactly when it is one of the four enum values |
| ShipmentModel.Build | shared/models/Shipment.ts:22-46 | creation succeeds iff every required field is present and the status is absent or in the enum; every stored field is the input's (tracking id, description, location, weight, dimensions, warehouse, the six contact fields, both dates), the status defaults to pending, delivered to false, timestamps are now; otherwise a ValidationError |
| InventoryRoute.WithAlerts | app/api/inventory/route.ts:16-19 | every item is kept in order and flagged low exactly when its quantity is below its threshold |
| InventoryRoute.Get | app/api/inventory/route.ts:6-22 | connect failure and a throwing `find().populate()` are uncaught; 401 unless one of the three roles; otherwise every item with its low-stock flag |
| InventoryRoute.ErrorMessage | app/api/inventory/route.ts:48 | an Error's own message, otherwise "Failed to add item" |
| InventoryRoute.Post | app/api/inventory/route.ts:24-51 | 403 unless Admin or Manager; an unreadable body 500; no warehouse 400 "Warehouse is required"; otherwise the schema's item with 201 or a 500 carrying the error's message; only success stores an item |
| LegacyShipmentModel.ParseStatus | models/Shipments.ts:19-23 | a status string parses exactly when it is one of the six enum values |
| LegacyShipmentModel.Build | models/Shipments.ts:13-26 | creation succeeds iff sender, receiver, origin and destination are non-empty and the status is absent or in the enum; the status defaults to Pending; otherwise a ValidationError |
| LegacyShipmentsRoute.Get | app/api/shipments/route.ts:6-29 | a fault answers 500 with the error's message; 401 unless one of the three roles; otherwise every stored shipment |
| LegacyShipmentsRoute.MapStatusToModel | app/api/shipments/route.ts:96-105 | the four lower-case form statuses map to their model names and anything else (or nothing) to "Pending"; the result is always a valid schema status |
| LegacyShipmentsRoute.MapNeverPickedUpOrDelayed | app/api/shipments/route.ts:97-104 | no request can create a PickedUp or Delayed shipment |
| LegacyShipmentsRoute.MapStatusAsWritten | app/api/shipments/route.ts:104 | the lookup as written: it reads an inherited member exactly when the status names one; otherwise it agrees with the corrected map |
| LegacyShipmentsRoute.ConstructorIsNotPending | app/api/shipments/route.ts:104 | the status "constructor" reads `Object.prototype.constructor`, where the evident intent is "Pending" |
| LegacyShipmentsRoute.MapFields | app/api/shipments/route.ts:43-49 | each stored field is the first non-empty of the form's name, the model's name and ""; the status is the corrected map's unless it names an inherited member, and it fails the enum exactly then |
| LegacyShipmentsRoute.MissingFieldsInOrder | app/api/shipments/route.ts:52-53 | the missing fields are the empty ones among sender, receiver, origin, destination, in that order |
| LegacyShipmentsRoute.CheckedBodyValidates | models/Shipments.ts:13-26 | a body that passes the route's check passes the schema exactly when its status names no inherited member, and is then stored with the mapped status |
| LegacyShipmentsRoute.CorrectedCheckedBodyValidates | app/api/shipments/route.ts:96-105 | with the corrected map in place of the lookup, every body that passes the route's check passes the schema |
| LegacyShipmentsRoute.Post | app/api/shipments/route.ts:31-93 | a fault is mapped by error name; 403 unless Admin or Manager; an unreadable body 500; 400 with the missing fields; then the create fault's error, or 400 for a status naming an inherited member, or 201 with the appended shipment; a failure stores nothing |
| ProtectedRoute.Gate.constructor | client/components/auth/ProtectedRoute.tsx:11-14 | the gate starts loading, not authorised, with nothing pushed |
| ProtectedRoute.Gate.CheckAuth | client/components/auth/ProtectedRoute.tsx:17-47 | no token: push /login and stay loading; otherwise loading ends; a failed or throwing check pushes /login; a role outside a given list pushes /unauthorized; an allowed role authorises and pushes nothing |
| ProtectedRoute.Gate.Render | client/components/auth/ProtectedRoute.tsx:52-54 | the placeholder exactly while loading; the children exactly when loaded and authorised |
| ProtectedRoute.Mount | client/components/auth/ProtectedRoute.tsx:11-55 | after one check the children show exactly for a token whose user's role is allowed (any role when no list is given); without a token the page stays on the placeholder; /unauthorized exactly for a disallowed role; a redirect happens exactly when the children are not shown |
| ClientSidebar.VisibleMeaning | client/components/dashboard/AppSidebar.tsx:67-68 | an item is shown iff it is a menu item and the role is set, non-empty and listed for it; the shown items keep the menu order |
| ClientSidebar.VisibleByRole | client/components/dashboard/AppSidebar.tsx:9-15 | no role shows nothing; Users is shown exactly to Admin and Manager |
| ClientSidebar.NoneShown | client/components/dashboard/AppSidebar.tsx:68 | a filter that accepts nothing shows nothing |
| ClientSidebar.StaffMenu | client/components/dashboard/AppSidebar.tsx:9-15 | WarehouseStaff sees exactly Dashboard, Shipments, Inventory and Warehouses |
| ClientSidebar.FullMenu | client/components/dashboard/AppSidebar.tsx:9-15 | Admin and Manager see the whole menu |
| ClientSidebar.Activation | client/components/dashboard/AppSidebar.tsx:42-47 | Dashboard is active only on exactly /dashboard; other entries on any path they prefix |
| ClientSidebar.RoleState.constructor | client/components/dashboard/AppSidebar.tsx:18 | no role before the fetch |
| ClientSidebar.RoleState.FetchUser | client/components/dashboard/AppSidebar.tsx:21-37 | no token or a non-ok reply keeps the role; a reply sets the user's role; a thrown fetch clears it |
| LegacySidebar.SameActivation | components/dashboard/AppSidebar.tsx:27-28 | the conditional form of `isActive` agrees with the client sidebar's on every path |
| LegacySidebar.Links | components/dashboard/AppSidebar.tsx:16-57 | every menu item becomes a link, in order, with the primary class exactly when active |
| LegacySidebar.OneActiveLink | components/dashboard/AppSidebar.tsx:27-33 | on /dashboard only the first link is highlighted; on /shipments/tracking only the second |
| DashboardPage.CalculateKPIMetrics | client/app/dashboard/page.tsx:91-119 | each counter is the number of rows with its status; delivered rows count only when updated today; the four counters together never exceed the number of rows |
| DashboardPage.CountStatusAppend | client/app/dashboard/page.tsx:94-116 | a status count over two lists is the sum of their counts, so the reduce can be split anywhere |
| DashboardPage.Page.constructor | client/app/dashboard/page.tsx:42-49 | no shipments, zero metrics, loading |
| DashboardPage.Page.FetchShipments | client/app/dashboard/page.tsx:52-89 | loading always ends; no token redirects to /login; a 401 removes the token and redirects; an ok reply replaces the shipments and sets every metric to its count; any other outcome leaves the data unchanged |
| ShipmentChart.StripSpaces | client/components/dashboard/ShipmentChart.tsx:45 | the result keeps every non-white-space character of the input and nothing else |
| ShipmentChart.ChartData | client/components/dashboard/ShipmentChart.tsx:31-48 | bars sorted by count, largest first; each bar's value is the number of shipments whose lowercased status is its key, at least 1, and its label is the display name; a key has a bar iff some shipment has it; keys are distinct; the values add up to the number of shipments; no shipments iff no bars |
| ShipmentChart.BarCounts | client/components/dashboard/ShipmentChart.tsx:32-44 | every sorted bar carries its key's count and label |
| ShipmentChart.BarKeys | client/components/dashboard/ShipmentChart.tsx:32-38 | a lowercased status has a bar iff some shipment has it |
| ShipmentChart.CountedHasBar | client/components/dashboard/ShipmentChart.tsx:38-47 | every counted key survives the map and the sort |
| ShipmentChart.BarWasCounted | client/components/dashboard/ShipmentChart.tsx:38-47 | the sort adds no key that was not counted |
| ShipmentChart.BarsDistinct | client/components/dashboard/ShipmentChart.tsx:32-47 | no two bars share a key |
| ShipmentChart.BarsTotal | client/components/dashboard/ShipmentChart.tsx:32-47 | the bar values add up to the number of shipments |
| ShipmentChart.BarsSum | client/components/dashboard/ShipmentChart.tsx:38-44 | mapping entries to bars keeps the sum of the counts |
| ShipmentChart.TwoWordLabels | client/components/dashboard/ShipmentChart.tsx:40-42 | PickedUp, InTransit and OutForDelivery are labelled "Picked Up", "In Transit" and "Out for Delivery" |
| ShipmentChart.OneWordLabels | client/components/dashboard/ShipmentChart.tsx:43 | Pending, Delivered and Delayed come back as stored after lowercasing and capitalising |
| ShipmentChart.OneWordLabel | client/components/dashboard/ShipmentChart.tsx:33-43 | a capitalised lower-case word other than the three special keys is labelled as stored |
| LocationChart.ChartData | client/components/dashboard/LocationChart.tsx:31-47 | at most six slices (fewer only when there are fewer locations); sorted by count, largest first; distinct names; each value is its destination's count (missing destinations count as "Unknown Location") and at least 1; each colour is the palette entry of its first-seen position; every location left out has no more shipments than any slice kept; the values add up to at most the number of shipments, exactly when nothing was cut |
| LocationChart.TopSlices | client/components/dashboard/LocationChart.tsx:39-46 | what the cut to the first `n` ranked entries keeps: order, distinct names, counts, colours and the sum |
| LocationChart.TopKeepsLargest | client/components/dashboard/LocationChart.tsx:45-46 | a location cut off has no more shipments than any slice kept |
| LocationChart.RankedEntries | client/components/dashboard/LocationChart.tsx:32-45 | every ranked entry carries its location's count (at least 1) and its first-seen colour |
| LocationChart.RankedHas | client/components/dashboard/LocationChart.tsx:32-45 | every location appears among the ranked entries with its count |
| LocationChart.RankedDistinct | client/components/dashboard/LocationChart.tsx:32-45 | no two ranked entries share a location |
| LocationChart.RankedTotal | client/components/dashboard/LocationChart.tsx:32-45 | the ranked counts add up to the number of shipments |
| LocationChart.ColouredSum | client/components/dashboard/LocationChart.tsx:40-44 | colouring the entries keeps the sum of the counts |
| LocationChart.SumPrefix | client/components/dashboard/LocationChart.tsx:46 | cutting the list never increases the sum of the counts |
| Tally.CountAll | client/components/dashboard/LocationChart.tsx:32-37 | the reduce into a record builds the entries in first-seen order |
| Tally.TallyCounts | client/components/dashboard/ShipmentChart.tsx:32-36 | every key's count is the number of its occurrences |
| Tally.TallyKeys | client/components/dashboard/ShipmentChart.tsx:32-36 | a key has an entry iff it occurs |
| Tally.TallyDistinct | client/components/dashboard/ShipmentChart.tsx:32-36 | no key has two entries |
| Tally.TallyEntry | client/components/dashboard/ShipmentChart.tsx:32-36 | each entry holds its key's occurrence count, at least 1 |
| Tally.TallyTotal | client/components/dashboard/ShipmentChart.tsx:32-36 | the counts add up to the number of keys |
| Sorting.SortDesc | client/components/dashboard/ShipmentChart.tsx:47 | the result is sorted by key, largest first, and is a permutation of the input |
| Sorting.SortSum | client/components/dashboard/ShipmentChart.tsx:47 | sorting keeps the sum of the keys |
| Sorting.SortDistinct | client/components/dashboard/ShipmentChart.tsx:47 | sorting keeps elements with distinct names distinct |
| Text.Or | app/api/shipments/route.ts:44-47 | `a \|\| b` on strings: a present non-empty value wins, otherwise the fallback; the result is empty only when both are |
| Text.Split | client/lib/auth.ts:19 | splitting always gives at least one piece |
| Text.SplitPiecesHaveNoSeparator | client/lib/auth.ts:19 | no piece of a split contains the separator |
| Text.NotPrefixAt | client/components/dashboard/AppSidebar.tsx:46 | a string that differs from the prefix at some position does not start with it |
| Seqs.Filter | client/components/dashboard/AppSidebar.tsx:68 | `Array.filter`: keeps only elements that pass, drawn from the input |
| Seqs.FilterMembership | client/components/dashboard/AppSidebar.tsx:68 | an element is kept iff it is in the input and passes |
| Seqs.FilterIsSubsequence | client/components/dashboard/AppSidebar.tsx:68 | the kept elements are in their original order |
| Seqs.FilterAll | client/components/dashboard/AppSidebar.tsx:68 | a filter every element passes keeps the list as it is |
| RecentShipments.StatusColorCoversSchema | client/components/dashboard/RecentShipments.tsx:29-45 | the gray fallback is reached exactly for strings that are not one of the six schema statuses |
| RecentShipments.Swap | client/components/dashboard/RecentShipments.tsx:50 | exchanges two rows and nothing else |
| RecentShipments.Sink | client/components/dashboard/RecentShipments.tsx:50 | moves one row into place in an ordered prefix, keeping the rows and leaving the rest untouched |
| RecentShipments.SortNewestFirst | client/components/dashboard/RecentShipments.tsx:50 | `shipments.sort(...)` in place: newest first, same rows |
| RecentShipments.Recent | client/components/dashboard/RecentShipments.tsx:48-52 | the caller's array is sorted newest first in place, as a permutation; the result is its first min(10, n) rows, each at least as new as any row left out, and empty exactly for no shipments |
| ShipmentMap.Lookup | client/components/shipments/ShipmentMap.tsx:24-31 | a name has coordinates iff the table lists it, and then they are the listed ones |
| ShipmentMap.ReplaceById | client/components/shipments/ShipmentMap.tsx:48-50 | every shipment with the update's id is replaced by it; every other one is kept; the length is unchanged |
| ShipmentMap.ReplaceAbsent | client/components/shipments/ShipmentMap.tsx:48-50 | an update for an unknown id changes nothing (it is not added) |
| ShipmentMap.ReplaceTwice | client/components/shipments/ShipmentMap.tsx:48-50 | applying the same update twice is the same as once |
| ShipmentMap.Coordinates | client/components/shipments/ShipmentMap.tsx:70-83 | a point is placed iff both coordinates are non-zero (truthy), at those coordinates; a name is placed iff the table lists it |
| ShipmentMap.Markers | client/components/shipments/ShipmentMap.tsx:67-92 | every marker sits at its shipment's coordinates; there are never more markers than shipments |
| ShipmentMap.MarkersAreFilter | client/components/shipments/ShipmentMap.tsx:67-87 | the marked shipments are exactly the placeable ones, in order |
| ShipmentMap.ZeroIsHidden | client/components/shipments/ShipmentMap.tsx:72-74 | a point on the equator or the prime meridian gets no marker |
| ShipmentMap.Live.Loaded | client/components/shipments/ShipmentMap.tsx:39-45 | the fetched list replaces the shipments |
| ShipmentMap.Live.Updated | client/components/shipments/ShipmentMap.tsx:47-51 | a `shipmentUpdated` event replaces the shipment with that id and keeps the list's length |
| UsersPage.FilteredMeaning | app/users/page.tsx:78-80 | a user is listed iff its lowercased name contains the lowercased search term; the list keeps the fetched order |
| UsersPage.EmptySearchShowsAll | app/users/page.tsx:78-80 | an empty search lists every user |
| UsersPage.DeleteMeaning | app/users/page.tsx:64 | after a delete the list holds exactly the other users, in order |
| UsersPage.BadgesTellRolesApart | app/users/page.tsx:82-91 | the three roles get three different badge styles |
| UsersPage.Page.constructor | app/users/page.tsx:29-31 | no users, an empty search, page 1 |
| UsersPage.Page.FetchUsers | app/users/page.tsx:34-51 | a listed reply replaces the users; a failure keeps them and adds a toast with the error's message or "Failed to load users" |
| UsersPage.Page.HandleDelete | app/users/page.tsx:55-76 | a successful delete removes every user with that id and adds a success toast; a failure keeps the users and adds a toast with the message or "Delete failed"; no user is ever added |
| UsersPage.Page.SetSearchTerm | app/users/page.tsx:105-110 | the search term becomes the typed text |
| UsersPage.Page.Previous | app/users/page.tsx:158-166 | enabled only off page 1; goes back one page; the rows shown do not change |
| UsersPage.Page.Next | app/users/page.tsx:185-192 | goes forward one page with no upper bound; previous becomes enabled; the rows shown do not change |
| UsersPage.Page.GoTo | app/users/page.tsx:168-183 | the numbered buttons set page 1 or 2; previous is disabled exactly on page 1; the rows shown do not change |
| CreateShipmentModal.AcceptsMeaning | client/components/shipments/CreateShipmentModal.tsx:35-49 | the form is accepted iff all twelve text fields are non-empty and the status is one of the four values |
| CreateShipmentModal.DefaultsIssues | client/components/shipments/CreateShipmentModal.tsx:68-82 | the untouched form is rejected on exactly the ten empty text fields, in declaration order |
| CreateShipmentModal.Payload | client/components/shipments/CreateShipmentModal.tsx:97-100 | the request body carries the parsed weight and no warehouse |
| CreateShipmentModal.AcceptedFormPassesServerCheck | client/components/shipments/CreateShipmentModal.tsx:35-49 | every form the client accepts passes the create route's missing-field check, carries a schema status and is delivered exactly for "delivered" |
| CreateShipmentModal.FilledFormPassesServerCheck | client/app/api/shipments/route.ts:136-158 | the four names and addresses filled and a listed status are all the create route needs to pass its own check |
| CreateShipmentModal.ToastsForServerErrors | client/components/shipments/CreateShipmentModal.tsx:103-114 | a missing-field rejection toasts the joined field list; a validation failure toasts its message only when the message contains "validation" (case-sensitive), else the bare error |
| CreateShipmentModal.Modal.constructor | client/components/shipments/CreateShipmentModal.tsx:64-83 | the modal starts closed, idle, with the default form |
| CreateShipmentModal.Modal.Submit | client/components/shipments/CreateShipmentModal.tsx:85-130 | a request is sent iff the form is accepted, with the parsed weight; nothing changes otherwise; success toasts the tracking id, resets the form, closes and notifies once; a rejection toasts twice (the specific message, then the error) and keeps the form open; loading always ends |
| ShipmentsPage.AcceptsMeaning | client/app/shipments/page.tsx:75-92 | the edit form is accepted iff all fifteen text fields are non-empty (any non-empty status passes) |
| ShipmentsPage.DefaultsRejected | client/app/shipments/page.tsx:103-123 | the untouched form is always rejected, the empty description among its issues |
| ShipmentsPage.PendingLooksUnknown | client/app/shipments/page.tsx:205-213 | "pending" gets the same badge as any unknown status, and only the three other statuses differ from it |
| ShipmentsPage.SubmitTarget | client/app/shipments/page.tsx:219-222 | editing sends PUT to the shipment's own url; otherwise POST to the collection |
| ShipmentsPage.Page.constructor | client/app/shipments/page.tsx:96-123 | no shipments, not editing, dialog closed, the default form |
| ShipmentsPage.Page.FetchShipments | client/app/shipments/page.tsx:146-159 | an ok reply replaces the list; anything else keeps it |
| ShipmentsPage.Page.HandleEdit | client/app/shipments/page.tsx:161-182 | the shipment becomes the one being edited, its fields fill the form and become the defaults a bare reset restores, the dialog opens and a later save goes to PUT on its url |
| ShipmentsPage.Page.OnOpenChange | client/app/shipments/page.tsx:258-264 | closing the dialog clears the edit and resets the form to the current defaults (the last edited shipment's fields once one was edited); opening changes nothing else |
| ShipmentsPage.Page.Submit | client/app/shipments/page.tsx:215-250 | a request is sent iff the form is accepted, to the edit or create target; a save resets the form to the current defaults, ends editing, closes the dialog, refetches and toasts "updated" or "created"; a failure keeps the dialog and toasts the server's error, the default message or the thrown one; loading always ends |
| ShipmentsPage.Page.HandleDelete | client/app/shipments/page.tsx:184-203 | nothing is sent unless confirmed; then DELETE on the shipment's url; success toasts and refetches; a refusal or a throw toasts its own message |
| InventoryPage.AcceptsMeaning | app/inventory/page.tsx:20-25 | an item is accepted iff its name and warehouse are non-empty, the quantity is at least 0 and the threshold at least 1 |
| InventoryPage.DefaultsIssues | app/inventory/page.tsx:56 | the default quantity 0 and threshold 10 pass; only the name and warehouse need filling |
| InventoryPage.Payload | app/inventory/page.tsx:115 | the request carries the form's name and numbers, and a warehouse exactly when one was chosen |
| InventoryPage.AcceptedFormIsStored | app/inventory/page.tsx:20-25 | every item the form accepts passes the route's warehouse check and the schema, and is stored with its non-negative quantity and positive threshold |
| InventoryPage.DecimalRoundTrip | app/inventory/page.tsx:88 | the status code printed in the error message reads back as that code, so different codes print differently |
| InventoryPage.WarehouseErrorsDiffer | app/inventory/page.tsx:83-89 | 401, 403 and every other status give three different messages |
| InventoryPage.BadgeFollowsStock | app/inventory/page.tsx:276-284 | a row reads "Low Stock" exactly when its quantity is below its threshold |
| InventoryPage.Page.constructor | app/inventory/page.tsx:49-57 | no warehouses, the default form, idle and closed |
| InventoryPage.Page.FetchWarehouses | app/inventory/page.tsx:71-99 | a list replaces the warehouses; a non-ok status or a throw keeps them and toasts the matching message |
| InventoryPage.Page.Submit | app/inventory/page.tsx:106-133 | a request is sent iff the form is accepted; success toasts the name, resets the form, refetches and closes the modal; a refusal or throw keeps the modal and form and toasts the error; loading always ends |

## Left out

- The database connection (`dbConnect`) is not modelled. A failed connection is an input: it is a `connected` flag, or a fault that the handler's `catch` receives.
- `jwt.sign`, `jwt.verify`, `bcrypt.hash` and `bcrypt.compare` are not modelled. They are opaque functions passed in the `Crypto` record, and nothing is assumed about them.
- The clock is not modelled, and neither is parsing `Date` strings. The time is given as milliseconds (`now`). A date string is parsed by a `parseDate` parameter. The dashboard's "same day as today" test is a `dayOf` parameter.
- `Math.random` is not modelled. The tracking id of a new shipment is given as a parameter.
- `parseFloat` on the weight is not modelled. It is a `parseFloat` parameter.
- Floating-point arithmetic is not modelled. This covers the warehouse `capacityUsage` percentage, `toFixed` and `toLocaleString`.
- Populating references (`populate`), `toObject` and the second `findById` read after an inventory insert are not modelled. The item the insert returns stands for the populated item.
- A malformed ObjectId in a request would make Mongoose throw a CastError. The model does not produce one itself: it is covered by the fault input.
- `insertMany` that fails half-way is not modelled. A batch insert is all or nothing.
- `Store.FindUserByEmail`: login and register pass the body's `email` straight to `findOne`. What a missing `email` matches depends on driver settings, so the model assumes the email is a string.
- The Socket.IO server and client relays are not modelled. A `shipmentUpdated` event is a call to `ShipmentMap.Live.Updated`.
- `LocationChart.ChartData` does not model destinations that name an `Object.prototype` member. As written, `acc[location] || 0` (client/components/dashboard/LocationChart.tsx:35) reads the inherited member. For `"constructor"` the count becomes a string, which then sorts as NaN. For `"__proto__"` the assignment goes to the prototype and the location drops out of `Object.entries`. The model counts such a destination like any other.
- `Tally.CountAll` is an association list with no inherited keys, so the prototype lookup under `LocationChart.ChartData` is not modelled here either. The shipment chart is unaffected, because its keys are schema statuses.
- `ShipmentMap.Coordinates`: names are looked up only among the table's own keys. As written, `locationCoordinates[name]` also reads inherited `Object.prototype` members such as `"constructor"`, which are truthy and would produce a marker at a non-coordinate. This is the same flaw as the status lookup under Findings.
- `LocationChart.ChartData` and `ShipmentChart.ChartData` do not model one ordering rule of `Object.entries`: it lists integer-like keys (a destination such as `"42"`) first, in numeric order, before the other keys. The model keeps first-seen order for every key, so the colour of an integer-like location can differ.
- `RecentShipments.Recent` does not model what happens when `createdAt` cannot be parsed. `new Date(x).getTime()` is then NaN, and the comparator's order is undefined. The model compares integer times.
- `Text.ToLower` and `Text.Capitalize` handle ASCII letters only. JavaScript's `toLowerCase` and `toUpperCase` also map other Unicode letters.
- The inventory page's `fetchItems` is not modelled. It stores whatever JSON comes back, including an error object, as the item list. The page's `deleteItem` handler is not modelled either (a fetch, a toast and a refetch).
- The shipments page's `fetchWarehouses` is not modelled. It fills only the warehouse select.
- `ShipmentsPage.Page.HandleEdit` takes the listed weight as a string. As written, the form is filled from the server's numeric weight, and the form's string check would then reject it.
- `InventoryPage.AcceptsMeaning` uses integers for the quantity and the threshold. The real number inputs can also produce NaN or fractions.
- Toast styling, dialogs, `confirm`, loading skeletons, icons, CSS classes and the rest of the JSX are not modelled. The exceptions are the colour and badge choices listed above and the legacy sidebar's link classes.
- `ClientSidebar`: the client sidebar's link classes are not modelled. They are the same `isActive` choice as the legacy sidebar's, with different class strings.
- The context pages are not modelled. These are the login and register pages, the warehouses page, the tracking page, the static dashboard components and both layouts.

## Findings

| source | as written | input that shows it | evidently intended | confidence | as-written member | corrected member |
|---|---|---|---|---|---|---|
| app/api/shipments/route.ts:104 | `statusMap[frontendStatus] \|\| 'Pending'` reads any property of the map object, including those inherited from `Object.prototype` | a POST whose `status` is `"constructor"` (or `"toString"`, `"valueOf"`, ...): the stored status becomes the `Object` function instead of `"Pending"`, and the create then fails with a ValidationError | only the map's own four keys are looked up; anything else becomes `"Pending"` | medium, not executed | LegacyShipmentsRoute.MapStatusAsWritten, LegacyShipmentsRoute.ConstructorIsNotPending, LegacyShipmentsRoute.CheckedBodyValidates | LegacyShipmentsRoute.MapStatusToModel, LegacyShipmentsRoute.MapNeverPickedUpOrDelayed, LegacyShipmentsRoute.CorrectedCheckedBodyValidates |
