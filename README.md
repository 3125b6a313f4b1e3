# Digital menu board front-end, modelled in Dafny

This project models the client-side logic of a restaurant digital-signage
web application. Its modules are:

- **Api** (`src/services/api.ts`). The REST client: one `Endpoint` per API
  function, the request each one sends (method, path template with the ids
  spliced in, body), a router `Parse` that reads a request back into its
  endpoint, the request interceptor that attaches the stored bearer token,
  and the response interceptor that logs the user out on a 401.
- **Socket** (`src/services/socket.ts`). The `SocketService` singleton: a
  registry of listener sets per event name, forwarding of twelve server
  events to the registered callbacks, connect and disconnect guards, and
  emits that go out only while a connection object exists.
- **MenuEditor** (`src/components/MenuEditor.tsx`). The visual menu editor:
  the initial two-column grid layout, single selection, drag-and-drop of one
  item, the image-upload patch, and the save projection that strips the
  layout fields and refreshes the timestamps.
- **DisplayClient** (`src/pages/DisplayClient.tsx`). The kiosk screen: the
  pairing state machine (mount, fetch by stored pairing code, pairing, "Try
  Again"), the render cascade as a pure function of the state, and the
  `MenuViewer` rotation with its dot row.
- **ItemsPage**, **MenusPage**, **DisplaysPage** (`src/pages/*.tsx`). The
  three CRUD pages. Each caches a list, guards its forms, and patches the
  cache with the server's reply (append, replace by id, filter by id, or a
  one-field patch) only when the call succeeds.
- Shared modules:
  - **Types**: the `Item`, `Menu` and `Display` records, plus the JavaScript
    string semantics the handlers rely on (`trim`, `||` on strings,
    `toString` on integers, and `toUpperCase` restricted to the ASCII letters).
  - **Browser**: `localStorage` as a map, and the page location.
  - **Session**: the signed-in user's restaurant id.
  - **ListOps**: the shared list transforms.

Every handler is a method on a class that holds the component's state. The
outcome of each network call (`Ok(value)` or `Failed`) is a parameter. Each
handler returns the list of API requests it issued, so its contract states
both the calls and the new state.

Where the system's documentation and its code differ, the model follows the
code. For example, a failed fetch on the kiosk removes both `displayId` and
`pairingCode` from storage, not only the pairing code.

## Model

| member | source | states |
|---|---|---|
| Types.ItemIds | src/pages/MenusPage.tsx:151 | the id list has one entry per item, the i-th item's id at position i |
| Types.TrimStart | src/pages/ItemsPage.tsx:59 | the result is a suffix of the input, only whitespace was removed, and it does not start with whitespace |
| Types.TrimEnd | src/pages/ItemsPage.tsx:59 | the result is a prefix of the input, only whitespace was removed, and it does not end with whitespace |
| Types.BlankIffTrimEmpty | src/pages/ItemsPage.tsx:59 | `s.trim()` is empty exactly when every character of `s` is whitespace; this is the blank-name guard every form uses |
| Types.OrEmpty | src/pages/ItemsPage.tsx:143 | `o \|\| ''`: a present value is kept, an absent one becomes the empty string |
| Types.OrUndefined | src/pages/ItemsPage.tsx:84 | `s \|\| undefined`: the result is present exactly when `s` is non-empty, and then equals `s` |
| Types.OrUndefinedOrEmpty | src/pages/ItemsPage.tsx:146 | copying an optional field into the form and sending it back restores it, except that an empty string comes back absent |
| Types.UpperAscii | src/pages/DisplayClient.tsx:103 | same length; each ASCII letter a–z becomes its capital and every other character is kept as it is |
| Types.UpperAsciiIdempotent | src/pages/DisplayClient.tsx:103 | upper-casing twice equals upper-casing once, and no lower-case ASCII letter is left |
| Types.NumberText | src/pages/ItemsPage.tsx:144 | `price.toString()` is never empty, so the edit form's price guard always passes; it starts with '-' exactly for a negative number |
| Types.DigitsRoundTrip | src/pages/ItemsPage.tsx:144 | the printed digits of a natural number read back as that number |
| Browser.Stored | src/services/api.ts:15-16 | `localStorage.getItem(key)` as a condition: truthy exactly when the key is stored with a non-empty value, and then it is that value |
| Session.Resolve | src/pages/ItemsPage.tsx:29-45 | no restaurant: stop; a restaurant with an id: that id; a restaurant without one: the looked-up id, or stop when the lookup fails |
| Session.ResolveIgnoresLookup | src/pages/ItemsPage.tsx:31-33 | the lookup outcome is irrelevant unless the restaurant has no id |
| ListOps.MapWhere | src/components/MenuEditor.tsx:56-60 | same length; each element whose key matches is transformed and every other element is kept |
| ListOps.RemoveWhere | src/pages/ItemsPage.tsx:125 | no element with the key is left and the result is no longer than the input |
| ListOps.ReplaceWhereSpec | src/pages/ItemsPage.tsx:109 | replace by id: same length, matching positions hold the new value, all others are unchanged |
| ListOps.MapWhereAbsent | src/components/MenuEditor.tsx:56-60 | a patch for an id that is not in the list changes nothing |
| ListOps.MapWhereKeepsKeys | src/pages/DisplaysPage.tsx:109-111 | a patch that keeps ids keeps every position's id |
| ListOps.MapWhereIdempotent | src/pages/DisplaysPage.tsx:109-111 | applying an idempotent, id-preserving patch twice equals applying it once |
| ListOps.RemoveWhereSubseq | src/pages/ItemsPage.tsx:125 | the filtered list is a subsequence of the original: the rest stay in order |
| ListOps.RemoveWhereMembers | src/pages/ItemsPage.tsx:125 | an element is in the filtered list exactly when it is in the original and its key differs |
| ListOps.RemoveWhereCount | src/pages/ItemsPage.tsx:125 | the filter keeps every occurrence of an element whose key differs and drops every occurrence of one whose key matches |
| ListOps.RemoveWhereAbsent | src/pages/ItemsPage.tsx:125 | deleting an id that is not in the list changes nothing |
| ListOps.AppendThenRemove | src/pages/ItemsPage.tsx:87 | appending an element with a fresh id and then deleting that id restores the list |
| ListOps.RemoveAfterReplace | src/pages/ItemsPage.tsx:109-125 | deleting an id after replacing it is the same as deleting it straight away |
| Api.Build | src/services/api.ts:36-205 | each endpoint function's request: its method (`Verb`), its path template with the ids spliced in (`Segments`, joined with '/') and its body (`BodyOf`); every path starts with '/', GET and DELETE requests carry no body, POST and PUT requests always carry one |
| Api.UpdateMenuRequest | src/services/api.ts:88-90 | `updateMenu(id, data)` sends PUT to `/menus/` + id with the data as body |
| Api.PairingRequests | src/services/api.ts:175-182 | `pairDisplay(code)` sends POST to `/displays/pair` with body `{ pairingCode }`; `getDisplayByPairingCode(code)` sends GET to `/displays/pair/` + code with no body |
| Api.ParseBuild | src/services/api.ts:37-200 | every endpoint function, built into a request and routed back, gives the same endpoint and arguments, whenever its ids contain no '/' |
| Api.BuildInjective | src/services/api.ts:37-200 | two different well-formed endpoint calls never send the same method, path and body |
| Api.PairingRoutes | src/services/api.ts:175-182 | the router reads both pairing requests back into the endpoint and code they were built from |
| Api.AuthorizedSpec | src/services/api.ts:14-20 | with a stored token the request carries `Authorization: Bearer <token>` and the token reads back from it; with none the headers are unchanged; no other header ever changes |
| Api.AttachToken | src/services/api.ts:14-20 | the interceptor mutates the config's headers in place to the authorized headers and returns the same config |
| Api.ClearSession | src/services/api.ts:27-28 | removes exactly `token` and `user` from storage |
| Api.OnResponse | src/services/api.ts:24 | a successful response passes through unchanged |
| Api.OnResponseError | src/services/api.ts:25-32 | a 401 clears `token` and `user` and sets the location to `/login`; any other error leaves storage and location alone; every error is rejected unchanged |
| Api.NoAuthorizationAfterLogout | src/services/api.ts:15-29 | after a 401 the next request goes out with its headers untouched, carrying no token |
| Socket.Added | src/services/socket.ts:67 | `set.add`: cb is afterwards a member, the members are the old ones plus cb, and no duplicate appears |
| Socket.Removed | src/services/socket.ts:73 | `set.delete`: the members are the old ones minus cb |
| Socket.RemovedSpec | src/services/socket.ts:70-75 | deletion keeps the set duplicate-free and the remaining callbacks in registration order |
| Socket.AddedIdempotent | src/services/socket.ts:63-68 | registering the same callback twice leaves it registered once |
| Socket.RemovedAdded | src/services/socket.ts:63-75 | registering a new callback and unregistering it restores the set |
| Socket.RemovedAbsent | src/services/socket.ts:70-75 | unregistering a callback that is not registered changes nothing |
| Socket.Subscribed | src/services/socket.ts:63-68 | `on`: the event gets a set (empty if it had none) with cb added; no other event's set changes |
| Socket.Unsubscribed | src/services/socket.ts:70-75 | `off`: only the event's own set loses cb; an unknown event is left absent; no other set changes |
| Socket.OffOn | src/services/socket.ts:63-75 | `off` after `on` of a new callback restores every existing set, and leaves an empty set for a first-seen event |
| Socket.OffUnknown | src/services/socket.ts:70-75 | `off` for an event with no set changes nothing |
| Socket.RegistryPreserved | src/services/socket.ts:63-75 | `on` and `off` keep every set duplicate-free |
| Socket.Dispatched | src/services/socket.ts:38-59 | a server event invokes the event's current set only when it arrives on a socket whose forwarding handlers are attached (the current one, or one orphaned by `connect`) and is one of the twelve forwarded names; otherwise nothing |
| Socket.OrphanOutlivesDisconnect | src/services/socket.ts:9-33 | after `disconnect` nothing arrives through the current socket, but a socket orphaned by an earlier `connect` still invokes every listener of a forwarded event |
| Socket.DispatchAfterOnOff | src/services/socket.ts:53-75 | a callback registered for a forwarded event hears it, and after `off` it no longer does |
| Socket.SocketService.constructor | src/services/socket.ts:5-7 | no connection, no orphaned socket and an empty registry |
| Socket.SocketService.Connect | src/services/socket.ts:9-14 | a connected socket is kept; otherwise a new connection is opened, with auth only for a non-empty token, and an existing unconnected socket it replaces is counted as an orphan that keeps forwarding |
| Socket.SocketService.TransportConnected | src/services/socket.ts:10-18 | the library reporting the transport up marks the existing connection connected |
| Socket.SocketService.Disconnect | src/services/socket.ts:28-33 | the connection is dropped (a no-op without one), and the registry, outside the frame, is kept |
| Socket.SocketService.On | src/services/socket.ts:63-68 | the registry becomes `Subscribed(old, event, cb)` and stays duplicate-free |
| Socket.SocketService.Off | src/services/socket.ts:70-75 | the registry becomes `Unsubscribed(old, event, cb)` and stays duplicate-free |
| Socket.SocketService.Receive | src/services/socket.ts:53-59 | for an event arriving on the current socket or an orphan, the `forEach` loop invokes exactly the dispatched set, in registration order, each callback once |
| Socket.SocketService.JoinDisplay | src/services/socket.ts:78-82 | emits `join-display` with the id, only while a connection exists |
| Socket.SocketService.JoinPairing | src/services/socket.ts:85-89 | emits `pair-display` with `{ pairingCode }`, only while a connection exists |
| Socket.SocketService.Emit | src/services/socket.ts:92-96 | emits the event with its data, only while a connection exists |
| MenuEditor.Cell | src/components/MenuEditor.tsx:30 | a grid cell lies in column x = 50 or x = 350, at y at least 100 |
| MenuEditor.Layout | src/components/MenuEditor.tsx:27-34 | item i keeps its fields, sits at (50 + (i mod 2)·300, 100 + (i div 2)·200) with size 250×150 and z-index i |
| MenuEditor.CellInjective | src/components/MenuEditor.tsx:30 | different indices get different cells |
| MenuEditor.LayoutDisjoint | src/components/MenuEditor.tsx:27-34 | no two items of the initial layout overlap on the canvas |
| MenuEditor.Items | src/components/MenuEditor.tsx:123 | stripping the layout fields keeps the items and their order |
| MenuEditor.ItemsOfLayout | src/components/MenuEditor.tsx:28-29 | the initial layout keeps the menu's items, count and order |
| MenuEditor.Clicked | src/components/MenuEditor.tsx:67-69 | clicking the selected id clears the selection; clicking any other id selects that id |
| MenuEditor.ClickTwice | src/components/MenuEditor.tsx:67-69 | two clicks on the same item restore whether it was selected |
| MenuEditor.DroppedSpec | src/components/MenuEditor.tsx:56-60 | a drop changes only the position of the item with the dropped id, to the drop point; its size, z-index and fields and every other item are unchanged |
| MenuEditor.DroppedAbsent | src/components/MenuEditor.tsx:56-60 | a drop of an id that is not on the canvas changes nothing |
| MenuEditor.WithImageSpec | src/components/MenuEditor.tsx:97-101 | the upload patch replaces only `imageUrl` of the selected item |
| MenuEditor.Saved | src/components/MenuEditor.tsx:120-130 | one saved item per canvas item, in canvas order |
| MenuEditor.SavedSpec | src/components/MenuEditor.tsx:120-130 | the saved menu keeps every other field of the menu; the items keep the editor's order and ids with the layout fields removed; an existing `createdAt` is kept, an empty one becomes now, and `updatedAt` is now |
| MenuEditor.SaveIgnoresDrop | src/components/MenuEditor.tsx:120-125 | what is saved does not depend on where items were dropped |
| MenuEditor.SaveOfLayout | src/components/MenuEditor.tsx:27-130 | opening the editor and saving at once sends the menu's own item ids, in order |
| MenuEditor.SavedItemStable | src/components/MenuEditor.tsx:126-127 | saving an already saved item again at the same instant changes nothing |
| MenuEditor.Editor.constructor | src/components/MenuEditor.tsx:27-37 | the canvas starts as the grid layout, with no selection and both flags off |
| MenuEditor.Editor.DragStart | src/components/MenuEditor.tsx:40-43 | drag start selects the dragged item |
| MenuEditor.Editor.DragEnd | src/components/MenuEditor.tsx:45-47 | drag end clears the selection |
| MenuEditor.Editor.Drop | src/components/MenuEditor.tsx:49-61 | the canvas becomes the drop of that id at the client point minus the canvas origin |
| MenuEditor.Editor.ItemClick | src/components/MenuEditor.tsx:67-69 | the selection becomes `Clicked(old selection, id)` |
| MenuEditor.Editor.OpenImageUpload | src/components/MenuEditor.tsx:152-154 | the upload dialog opens only while an item with a non-empty id is selected |
| MenuEditor.Editor.CancelImageUpload | src/components/MenuEditor.tsx:267 | the upload dialog closes |
| MenuEditor.Editor.ImageUpload | src/components/MenuEditor.tsx:71-114 | without a file or a non-empty selected id nothing happens; otherwise the file goes to `/api/items/<id>/upload-image`, a success patches only that item's image, a failure leaves the canvas unchanged, and both end with uploading off and the dialog closed |
| MenuEditor.Editor.Save | src/components/MenuEditor.tsx:116-134 | the menu handed to `onSave` is `Saved(menu, canvas, now)` |
| DisplayClient.Tick | src/pages/DisplayClient.tsx:228-231 | with more than one item the index advances modulo the count and stays in range; otherwise it is left alone |
| DisplayClient.Ticks | src/pages/DisplayClient.tsx:225-232 | after any number of ticks from 0 the index is within [0, n) |
| DisplayClient.TicksCycle | src/pages/DisplayClient.tsx:225-232 | after k ticks from 0 the index is k mod n, so it cycles 0, 1, …, n-1, 0; with at most one item it stays 0 |
| DisplayClient.Dots | src/pages/DisplayClient.tsx:327-333 | one dot per item, lit exactly at the current index |
| DisplayClient.DotsOneLit | src/pages/DisplayClient.tsx:327-333 | exactly one dot is lit when the index is in range |
| DisplayClient.ViewerAt | src/pages/DisplayClient.tsx:240-337 | an empty menu shows the "No items" card; otherwise the current item, and the dots and the "i+1 of n" label only for more than one item |
| DisplayClient.ViewerAfterTicks | src/pages/DisplayClient.tsx:224-337 | whatever the number of ticks, the viewer shows a real item of the menu, and with several items, exactly one lit dot and a label i+1 of n with 1 ≤ i+1 ≤ n |
| DisplayClient.MediaOf | src/pages/DisplayClient.tsx:166-190 | media is shown exactly for a non-empty `mediaUrl`: an image for type image and a video for type video, each from the API base followed by the URL, and an empty frame for no type |
| DisplayClient.ScreenOf | src/pages/DisplayClient.tsx:70-216 | loading shows the spinner; unpaired with no display shows the pairing form (Connect enabled iff the code is not blank); paired with no display shows "Not Found"; a display shows its name, its media, and its own `currentMenu` when it has one, "Display Ready" otherwise |
| DisplayClient.NotFoundRecovers | src/pages/DisplayClient.tsx:128-148 | a paired kiosk without a display shows "Display Not Found", and after "Try Again" the pairing form with the code and error unchanged |
| DisplayClient.CodeInput | src/pages/DisplayClient.tsx:103-106 | the code input holds at most six characters, none of them a lower-case ASCII letter |
| DisplayClient.Kiosk.constructor | src/pages/DisplayClient.tsx:9-13 | no display, loading, no error, empty code, not paired |
| DisplayClient.Kiosk.Mount | src/pages/DisplayClient.tsx:15-45 | a stored code is fetched: success sets the reply's display (possibly none) and paired, failure sets "Failed to load display", removes `displayId` and `pairingCode` and unpairs; without a stored code loading ends and nothing else changes; the typed code and the location are kept |
| DisplayClient.Kiosk.FetchDisplayByPairingCode | src/pages/DisplayClient.tsx:27-45 | success sets the reply's display (possibly none) and paired; failure sets "Failed to load display", removes `displayId` and `pairingCode` and unpairs; loading ends false either way; "Display Not Found" follows exactly a success without a display |
| DisplayClient.Kiosk.EnterCode | src/pages/DisplayClient.tsx:103-106 | the typed value is kept to six characters and upper-cased |
| DisplayClient.Kiosk.HandlePairing | src/pages/DisplayClient.tsx:47-67 | a blank code does nothing; the code is stored only after `pairDisplay` succeeds; a fetched display is set and paired, and a reply without one leads to "Display Not Found"; a failure of either call sets "Invalid pairing code"; loading ends false |
| DisplayClient.Kiosk.TryAgain | src/pages/DisplayClient.tsx:136-140 | removes the stored code, unpairs and clears the display |
| DisplayClient.RemountFetchesSameCode | src/pages/DisplayClient.tsx:17-54 | after pairing, the stored code is the one entered, so the next mount fetches the same display |
| ItemsPage.CreateBody | src/pages/ItemsPage.tsx:79-86 | sends the form's fields, an empty image URL as absent, and `isAvailable: true` |
| ItemsPage.UpdateBody | src/pages/ItemsPage.tsx:102-108 | the create body without `isAvailable` |
| ItemsPage.FormOf | src/pages/ItemsPage.tsx:140-148 | the form holds the item's fields, a missing description or image as the empty string, and the printed price |
| ItemsPage.EditUntouched | src/pages/ItemsPage.tsx:98-146 | submitting an opened, untouched edit form sends the item's own fields back (an empty image URL as absent), and the guard then asks only for a non-blank name and a category |
| ItemsPage.AddThenDelete | src/pages/ItemsPage.tsx:87-125 | adding an item with a fresh id and deleting it restores the cached list |
| ItemsPage.Page.constructor | src/pages/ItemsPage.tsx:9-20 | empty list, loading, modals closed, empty form |
| ItemsPage.Page.FetchItems | src/pages/ItemsPage.tsx:28-56 | stops when no restaurant id resolves; otherwise fetches the restaurant's items, takes them on success, keeps the list on failure, and ends with loading off |
| ItemsPage.Page.AddItem | src/pages/ItemsPage.tsx:58-95 | nothing happens unless the name is not blank, a price and a category are given and a restaurant id resolves; then the create call is sent; success appends the server's item, clears the form and closes the modal; failure leaves list, form and modal; adding ends false |
| ItemsPage.Page.EditItem | src/pages/ItemsPage.tsx:97-118 | needs an item being edited and a valid form; success replaces only that id with the server's item, clears the form and the edited item and closes the modal; failure leaves everything but the busy flag |
| ItemsPage.Page.DeleteItem | src/pages/ItemsPage.tsx:120-129 | a declined confirm does nothing; otherwise the delete call is sent and only a success filters that id out |
| ItemsPage.Page.ToggleAvailability | src/pages/ItemsPage.tsx:131-138 | sends the toggle; success replaces only that id with the server's item |
| ItemsPage.Page.OpenEditModal | src/pages/ItemsPage.tsx:140-148 | the item becomes the edited one, the form becomes `FormOf(item)`, and the modal opens |
| ItemsPage.Page.ResetForm | src/pages/ItemsPage.tsx:150-156 | all five fields become empty |
| MenusPage.FormBody | src/pages/MenusPage.tsx:79-82 | name and description as typed, no item list |
| MenusPage.SaveCall | src/pages/MenusPage.tsx:142-152 | no call for a menu without an id; otherwise an update of that id carrying the item ids in order |
| MenusPage.EditorSaveSends | src/pages/MenusPage.tsx:148-152 | a visual-editor save sends the opened menu's id, name and description and the canvas items' ids in canvas order |
| MenusPage.EditorRoundTrip | src/pages/MenusPage.tsx:151 | opening the editor and saving at once sends the menu's item ids unchanged |
| MenusPage.Page.constructor | src/pages/MenusPage.tsx:9-20 | empty list, loading, modals and editor closed, empty form |
| MenusPage.Page.FetchMenus | src/pages/MenusPage.tsx:28-56 | as for items: stops without a restaurant id, takes the server's menus on success, and ends with loading off |
| MenusPage.Page.AddMenu | src/pages/MenusPage.tsx:58-92 | needs a non-blank name and a resolved restaurant; success appends the server's menu, clears name and description and closes the modal; failure changes nothing but the busy flag |
| MenusPage.Page.EditMenu | src/pages/MenusPage.tsx:94-113 | needs a menu being edited and a non-blank name; success replaces only that id, clears the form and the edited menu, and closes the modal |
| MenusPage.Page.DeleteMenu | src/pages/MenusPage.tsx:115-124 | a declined confirm does nothing; a successful delete filters that id out |
| MenusPage.Page.OpenEditModal | src/pages/MenusPage.tsx:126-131 | the menu becomes the edited one, with its name and its description (or the empty string) in the form |
| MenusPage.Page.OpenVisualEditor | src/pages/MenusPage.tsx:133-136 | the editor opens on that menu |
| MenusPage.Page.VisualEditorSave | src/pages/MenusPage.tsx:138-160 | a menu without an id makes no call and changes nothing; otherwise the update goes out; success replaces that menu and closes the editor; failure keeps the editor open and the list unchanged |
| MenusPage.Page.VisualEditorCancel | src/pages/MenusPage.tsx:162-165 | closes the editor without touching the list |
| DisplaysPage.CardOf | src/pages/DisplaysPage.tsx:289-319 | a card shows "Active" exactly when the display has a current menu, and its name or "No menu assigned" |
| DisplaysPage.ViewOf | src/pages/DisplaysPage.tsx:230-275 | the restaurant error wins over the spinner, which wins over the empty state, which wins over the grid of cards |
| DisplaysPage.FetchById | src/pages/DisplaysPage.tsx:55-64 | the usual fetch sends `getDisplays(id)`, takes the list on success, and ends with loading off |
| DisplaysPage.FallbackAsWritten | src/pages/DisplaysPage.tsx:35-53 | the fallback, as written: looks the restaurant up; it ends without a banner exactly when an id came back and the list loaded; it never changes `loading` |
| DisplaysPage.Fallback | src/pages/DisplaysPage.tsx:35-53 | the corrected fallback: the same calls, list and banner, with loading cleared |
| DisplaysPage.FetchedAsWritten | src/pages/DisplaysPage.tsx:29-65 | `fetchDisplays` as written: no restaurant does nothing; an own id fetches its displays and ends the spinner; a restaurant without an id starts with the lookup and leaves `loading` as it was |
| DisplaysPage.Fetched | src/pages/DisplaysPage.tsx:29-65 | `fetchDisplays` corrected: no restaurant does nothing; otherwise the spinner always ends, with the same first call (`getDisplays` of the own id, or the lookup) |
| DisplaysPage.FallbackStuckOnSpinner | src/pages/DisplaysPage.tsx:35-53 | a user whose restaurant has no id: a successful fallback loads the list but leaves the page on the spinner |
| DisplaysPage.FetchedNeverSpins | src/pages/DisplaysPage.tsx:29-65 | with the correction, a fetch for a user with a restaurant never ends on the spinner, and a successful one holds the loaded list |
| DisplaysPage.FetchedAgreesAsWritten | src/pages/DisplaysPage.tsx:29-65 | the correction changes nothing but the spinner |
| DisplaysPage.WithPairingCode | src/pages/DisplaysPage.tsx:109-111 | only the pairing code of the matching display changes |
| DisplaysPage.WithPairingCodeTwice | src/pages/DisplaysPage.tsx:106-115 | regenerating twice keeps only the latest code, and ids never change |
| DisplaysPage.Page.constructor | src/pages/DisplaysPage.tsx:9-21 | empty list, loading, no error, every modal closed, no selection |
| DisplaysPage.Page.FetchDisplaysAsWritten | src/pages/DisplaysPage.tsx:29-65 | the page's list, loading flag and banner, with the calls made, are `FetchedAsWritten` of the old ones |
| DisplaysPage.Page.FetchDisplays | src/pages/DisplaysPage.tsx:29-65 | the same with the corrected fallback, and the page is never left on the spinner |
| DisplaysPage.Page.AddDisplay | src/pages/DisplaysPage.tsx:67-93 | needs a non-blank name and a restaurant; a failed lookup sets the "Unable to load" banner and creates nothing; otherwise the create call goes out (after the lookup when one was needed); success appends, clears the name and closes the modal |
| DisplaysPage.Page.DeleteDisplay | src/pages/DisplaysPage.tsx:95-104 | a declined confirm does nothing; a successful delete filters that id out |
| DisplaysPage.Page.RegeneratePairingCode | src/pages/DisplaysPage.tsx:106-115 | success patches only the matching display's pairing code |
| DisplaysPage.Page.OpenAssignMenuModal | src/pages/DisplaysPage.tsx:117-138 | selects the display and opens the modal at once; loads the menus, looking the restaurant up when it has no id; any failure sets "Failed to load menus" |
| DisplaysPage.Page.AssignMenu | src/pages/DisplaysPage.tsx:140-172 | nothing without a selection; assign, then refetch only after the assign succeeded; both succeeding replaces that display, clears the selection and closes the modal; assigning ends false |
| DisplaysPage.Page.OpenMediaUploadModal | src/pages/DisplaysPage.tsx:174-177 | selects the display and opens the media modal |
| DisplaysPage.Page.MediaUpload | src/pages/DisplaysPage.tsx:179-198 | nothing without a file or a selection; success replaces that display, closes the modal and clears the selection; uploading ends false |
| DisplaysPage.Page.RemoveMedia | src/pages/DisplaysPage.tsx:200-209 | success replaces only that display with the server's copy |

## Left out

- Rendering, styling and animation beyond the view-selection branches: the JSX markup, framer-motion, `DashboardPage` and `Sidebar`.
- Routing (`App.tsx`, `ProtectedRoute.tsx`) and the `useAuth` hook. The hook's source is not part of this model, so the signed-in user's restaurant is a parameter of each page.
- Network I/O: axios, `fetch` and the Socket.IO transport. Each call is only its outcome, `Ok(value)` or `Failed`. Server behaviour, such as pairing-code generation or what a toggle returns, is an input.
- The raw `fetch` restaurant lookups on the items and menus pages and the editor's raw `fetch` image upload. They are modelled as outcomes, not as `Api` endpoints.
- Session.Resolve: a lookup reply without an id is `Ok("")`, so the handler goes on with an empty id and a path ending in "/". The source splices `undefined` into the template instead (`/items/restaurants/undefined`). The raw `fetch` lookups do not reject on an HTTP error status, so a 401 reply without an id also takes this path rather than `Failed`.
- Socket.IO's own `connected` flag and reconnection. `TransportConnected` stands for the library reporting a live transport.
- Socket.SocketService.Connect: an orphaned socket is only counted. Which rooms it joined and how often the server delivers an event to it are server behaviour, so the model says that an orphan can invoke the listeners, not how many times a given event does.
- Timers: the five-second `setInterval` is a discrete tick, and the time of day shown on the kiosk is left out.
- Concurrency: overlapping async handlers and stale late replies. Each handler runs to completion with the outcomes given.
- Floating point: `parseFloat` on the price form field and `toFixed(2)`. Prices are integers, and the form sends the price text.
- Browser services:
  - `new Date().toISOString()` is a "now" parameter.
  - `confirm` is a boolean input.
  - `alert` and `console` output are dropped.
  - `localStorage` is a map.
- Api.ParseBuild: holds only for ids that contain no '/'. An id containing '/' would change the path's segments.
- Socket.Registry: a `Set` of functions is an insertion-ordered, duplicate-free list of callback ids. Function identity is not modelled.
- The 401 interceptor acting during the page handlers' and the kiosk's `Api` calls: the two are modelled separately and not composed. A `Failed` outcome in a handler does not also clear `token` and `user` and send the user to `/login`, as the interceptor does for a 401.
- Opening and closing the add modals with their own buttons, and closing the edit modals: these plain flag toggles are not modelled. Closing an edit modal without saving leaves the shared form filled, so a later add modal opens with those values.
- Types.UpperAscii, DisplayClient.CodeInput, DisplayClient.Kiosk.EnterCode: only the ASCII letters a–z are upper-cased. JavaScript's `toUpperCase` maps every Unicode letter and can lengthen a string ('ß' becomes "SS"). The input's `maxLength` of six counts UTF-16 code units and is modelled as a cut to six characters before upper-casing. So CodeInput's "at most six characters" holds only for ASCII input; in the source, six 'ß' give twelve characters.
- The `Schedule` and socket payload type declarations, which no logic uses.

## Findings

| source | as written | input that shows it | evidently intended | confidence | as-written member | corrected member |
|---|---|---|---|---|---|---|
| src/pages/DisplaysPage.tsx:35-53 | the fallback for a restaurant without an id returns without ever setting `loading` to false, and `loading` starts true | a user whose restaurant has id "", a lookup returning "r1", and `getDisplays` returning the list: the banner is cleared, `loading` stays true, and the page shows the spinner forever | the fallback clears `loading` when done, as the usual path's `finally` does | not executed | DisplaysPage.FallbackStuckOnSpinner | DisplaysPage.FetchedNeverSpins |
