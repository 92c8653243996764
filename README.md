# MapTrackingGui: a Dafny model of the map, session and request logic

MapTrackingGui is a browser application for managing geospatial features and
users. Features are points, lines and polygons stored as WKT text. The
application shows them on an OpenLayers map and lets a signed-in user add,
move, reshape and delete them. This project models the logic the application
owns, and proves what that logic promises.

- **The map** (`MapModel`, `MapHelper`, `MapRefresh`, over `OlModel`). This is
  the single `MapModel` object with its vector source of rendered features, its
  popup overlay and its interaction list. It covers rendering and re-rendering
  from the feature list, click, double-click and pointer handling, the
  one-shot draw of add mode, the edit mode that puts a Translate and a Modify
  on one feature, and the popup anchor used when zooming to a feature.
  OpenLayers objects that the code mutates are classes: features, the source,
  the overlay, the map and its interactions.
- **The session** (`JwtService`, `AuthStore`, `AuthHelper`). `localStorage`
  holds a single `"auth"` key. The in-memory user is kept in step with it by
  `setAuth`, `purgeAuth` and `init`. A 401 response signs the user out.
  `isAdmin` is the role check.
- **Requests** (`ApiService`, `BaseModel`). This covers the envelope check,
  the header construction, the re-wrapping of errors, and the mapping of each
  CRUD operation to an HTTP method and path.
- **Stores and forms** (`FeatureStore`, `UserStore`, `SidemenuStore`,
  `SignIn`, `SignUp`). These cover lookup by id, wholesale list replacement,
  the side menu flags, and the sign-in and sign-up validators.

Several inputs come from outside the model and are passed in as parameters:

- What the library or the network produces is a parameter:
  - the WKT reader's result for a text (`read`);
  - the WKT writer (`write`);
  - the feature under the pointer (`hit`);
  - the geometry a draw or an edit gesture produced;
  - what axios settled with (`Transport`);
  - the result of a list fetch.
- Field values replace DOM reads in the forms.

Records such as `IFeature` are values. `Valid()` on `MapModel` holds three
invariants:

- a source holds each feature once, as OpenLayers enforces;
- map, overlay, layer and source exist together;
- an added feature only exists while there is a map.

Notable behaviours of the add-mode code:

- `activateAddMode` does not clear earlier interactions.
- After a draw completes, `addMode` stays on until the caller calls
  `disableAddMode`.
- `disableAddMode` removes the added feature but does not take a pending Draw
  interaction off the map.

## Model

| member | source | states |
|---|---|---|
| MapHelper.GenerateOlFeature | src/helpers/map.helper.ts:28-62 | Returns null exactly when the reader throws or yields no geometry. Otherwise it returns a fresh feature: the read geometry, clickable, tagged with its record, an icon style for a Point and a stroke for any other type. |
| MapHelper.SetFeatureSelected | src/helpers/map.helper.ts:268-296 | Only the style changes, to the selected look for the geometry type. The clickable flag, geometry and record stay. |
| MapHelper.DisableFeature | src/helpers/map.helper.ts:298-327 | The feature becomes non-clickable and gets the dimmed look for its type. Geometry and record stay. |
| MapHelper.GetWktCoordinates | src/helpers/map.helper.ts:87-110 | It is an error exactly when the reader throws. It is null exactly when there is no geometry or the type is not Point, LineString or Polygon. Otherwise it gives coordinates that rebuild the geometry that was read. |
| MapHelper.CreateMapPointPopup | src/helpers/map.helper.ts:120-138 | The popup HTML contains the record's name inside the title span, and its WKT inside the WKT span, verbatim. |
| MapHelper.ShowFeaturePopover | src/helpers/map.helper.ts:140-163 | The overlay is placed at the coordinate. With a record, the content is that record's popup and "show" is added to the classes. Without one, it throws after placing, so the content and classes are unchanged. |
| MapHelper.DisposePopover | src/helpers/map.helper.ts:165-170 | Only "show" is removed, and only when the element exists. The operation is idempotent, and the position and content stay. |
| MapHelper.RemoveInteraction | src/helpers/map.helper.ts:112-114 | The map's interaction list loses the first occurrence of the interaction and keeps the rest in order. |
| MapHelper.EnableDrawInteraction | src/helpers/map.helper.ts:172-194 | A fresh Draw of the requested type, then its Snap, are appended to the interactions. Nothing is removed. |
| MapHelper.EndDrawInteraction | src/helpers/map.helper.ts:195-207 | One-shot: after the draw ends, neither the Draw nor its Snap is on the map. Every other interaction stays, none is added, and the list stays free of repetitions. |
| MapRefresh.RefreshMapData | src/helpers/map.helper.ts:15-26 | Issues `getAll` on "/feature". On a successful fetch, the map's list and the store's list both become the data. On a failure, both become empty. The map is rendered again from that list in either case. |
| MapModel.FindByDataId | src/models/map.model.ts:222-225 | Models `find` on `get("data").id`. Found gives the first feature whose record has the id. NotFound means every feature has a record with another id. LookupThrew points at the first record-less feature reached before any match. |
| MapModel.RenderPlanIsPrefixUpToFailure | src/models/map.model.ts:110-119 | Both directions: the rendered views are exactly the conversions of the records before the first one that fails to convert. Later records are skipped and the error does not escape. |
| MapModel.RenderPlanTagsRecords | src/models/map.model.ts:110-119 | Each rendered feature is clickable, normally styled and tagged with the record at the same position. When every record converts, there is one feature per record. |
| MapModel.PopupAnchorIsFirstVertex | src/models/map.model.ts:276-287 | For a record whose WKT reads as the rendered geometry, the popup anchor is the Point itself, the first LineString vertex, or the first vertex of the first ring. |
| MapModel.LookupFindsRenderedRecord | src/models/map.model.ts:267-269 | After a render of a list with distinct ids, looking up the k-th record's id finds the k-th rendered feature. |
| MapModel.EditedRecordRendersEditedGeometry | src/models/map.model.ts:245-251 | When the written WKT reads back as the edited geometry, the record with the new WKT renders as that geometry. |
| MapModel.RemoveEditInteractions | src/models/map.model.ts:56-61 | The current Modify and Translate, where set, are removed from the map. Neither remains, and nothing else changes. |
| MapModel.HighlightOnly | src/models/map.model.ts:228-234 | The matched feature gets the selected style. Every other feature becomes non-clickable with the disabled style. |
| MapModel.AddEditInteractions | src/models/map.model.ts:240-256 | A fresh Translate, then a fresh Modify, are appended. Both act on the matched feature and carry the selected record. |
| MapModel.MapModel.constructor | src/models/map.model.ts:25-34 | The initial state: no map ref, no map, an empty list, add mode off, no added feature and no edit interactions. |
| MapModel.MapModel.SetMapRef | src/models/map.model.ts:25 | The map's container becomes available. |
| MapModel.MapModel.ResetMapState | src/models/map.model.ts:36-43 | Map, overlay, layer and source become null. Add mode is off and there is no added feature. The feature list, map ref, edit interactions and cursor are unchanged. |
| MapModel.RenderFeatures | src/models/map.model.ts:110-119 | The existing features stay in front. The fresh features appended after them are the render plan of the list, and distinctness is kept. |
| MapModel.InitLayers | src/models/map.model.ts:90-108 | A fresh overlay whose element carries the class "popup", placed nowhere and empty, and a fresh layer showing a fresh source with no features. |
| MapModel.MapModel.RenderMap | src/models/map.model.ts:45-64 | Without a map ref, nothing changes. Otherwise the source shows exactly the render plan of the list. The first render creates overlay, layer, source and a map with none of the application's interactions. A re-render keeps them and removes the current Modify and Translate without resetting those fields. |
| MapModel.MapModel.FirstRender | src/models/map.model.ts:47-52 | The first render creates a fresh overlay with class "popup", a fresh layer over a fresh source holding the render plan, and a fresh map carrying none of the application's interactions. |
| MapModel.MapModel.Rerender | src/models/map.model.ts:53-62 | The source is emptied and refilled with the render plan. The current Modify and Translate are then taken off the map. |
| MapModel.MapModel.HandleSingleClick | src/models/map.model.ts:128-147 | In add mode, nothing changes. A click on a clickable feature places the popup at the click and shows that feature's record. Any other click only removes "show". |
| MapModel.MapModel.HandleDoubleClick | src/models/map.model.ts:149-174 | The default is prevented exactly in add mode or when a feature is hit. Outside add mode, a hit places the popup at the click whether or not the feature is clickable. The popup is filled when the hit has a record. |
| MapModel.MapModel.HandlePointerMove | src/models/map.model.ts:176-184 | The cursor is the pointer exactly over a clickable feature, add mode included. Otherwise it is the default cursor. |
| MapModel.MapModel.HandleMapMoveStart | src/models/map.model.ts:186-188 | The popup loses "show". Its position and content stay. |
| MapModel.MapModel.ActivateAddMode | src/models/map.model.ts:190-207 | With a map: add mode is on, the cursor is the crosshair, and a fresh Draw and Snap are appended with every earlier interaction kept. Without a map, the caught error turns add mode off with the default cursor. The edit interactions are untouched. |
| MapModel.MapModel.OnDrawEnd | src/models/map.model.ts:198-201 | The drawn feature becomes the added feature and is returned to the caller. The Draw and Snap are gone, the feature is appended to the source, and add mode is unchanged. |
| MapModel.MapModel.DisableAddMode | src/models/map.model.ts:209-216 | Add mode is off, the cursor is the default and there is no added feature. A previously added feature is removed from the source, and every other feature stays. |
| MapModel.MapModel.SetFeatureUpdateable | src/models/map.model.ts:218-265 | A lookup that fails or throws changes nothing. On a match, the match gets the selected style and the others become disabled and non-clickable. The match becomes the added feature. A fresh Translate and Modify on it are appended and become the current ones. |
| MapModel.MapModel.OnEditEnd | src/models/map.model.ts:245-263 | After a translate or modify gesture, the feature has the new geometry and the record's WKT is the written geometry. That updated record is handed to the callback. |
| MapModel.MapModel.ZoomToFeature | src/models/map.model.ts:267-290 | The popup is shown exactly when the lookup finds the record's feature and the anchor can be computed. It is then placed at the anchor and filled with the record. Otherwise the overlay is unchanged. |
| JwtService.SetAuth | src/services/jwt.service.ts:6-8 | Only the "auth" key is written, and getAuth then yields the record. |
| JwtService.GetAuth | src/services/jwt.service.ts:10-12 | It yields the record under "auth" exactly when one is stored, and changes nothing. |
| JwtService.RemoveAuth | src/services/jwt.service.ts:14-16 | Only the "auth" key is removed, and getAuth then yields nothing. |
| JwtService.IsTokenAvailable | src/services/jwt.service.ts:18-20 | True exactly when a record is stored under "auth". Read-only. |
| AuthStore.SetAuthInStep | src/stores/auth.store.ts:18-21 | After setAuth, memory and storage agree on the record, and other storage keys are untouched. |
| AuthStore.PurgeAuthInStep | src/stores/auth.store.ts:22-25 | After purgeAuth, the user is null, nothing is stored under "auth", and memory and storage agree. |
| AuthStore.InitRestores | src/stores/auth.store.ts:26-34 | init leaves the user equal to the stored record, or null, and the storage exactly as it was. |
| AuthStore.InitIdempotent | src/stores/auth.store.ts:26-34 | Running init twice gives the same state as running it once. |
| AuthStore.UnauthorizedSignsOut | src/App.tsx:18-21 | A 401 failure leaves the user signed out in memory and in storage. |
| AuthStore.AuthStore.constructor | src/stores/auth.store.ts:15 | The user starts null. |
| AuthStore.AuthStore.SetUser | src/stores/auth.store.ts:16 | Only the in-memory user changes. Storage does not. |
| AuthStore.AuthStore.GetUser | src/stores/auth.store.ts:17 | It returns the current user and changes nothing. |
| AuthStore.AuthStore.SetAuth | src/stores/auth.store.ts:18-21 | The new state is the record stored under "auth" and set as the user. |
| AuthStore.AuthStore.PurgeAuth | src/stores/auth.store.ts:22-25 | The new state has the "auth" key removed and the user null. |
| AuthStore.AuthStore.Init | src/stores/auth.store.ts:26-34 | The new state is setAuth of the stored record when there is one, and purgeAuth otherwise. |
| AuthStore.AuthStore.OnResponseError | src/App.tsx:14-25 | A 401 failure purges the session. Any other failure leaves it unchanged. |
| AuthHelper.IsAdmin | src/helpers/auth.helper.ts:3-7 | True exactly when a record is stored and its role is exactly "Admin". Read-only. |
| ApiService.HandleResponse | src/services/api.service.ts:42-52 | Accepts exactly a boolean success, a string message and a data key, and returns the body unchanged. Any other non-null body is rejected with "Unexpected response format". |
| ApiService.EnvelopeAccepted | src/services/api.service.ts:42-48 | Every envelope a conforming backend can send is accepted, with any extra keys. |
| ApiService.MissingKeyRejected | src/services/api.service.ts:43-51 | An object missing success, message or data is rejected with "Unexpected response format". |
| ApiService.HeadersFor | src/services/api.service.ts:14-21 | Content-Type is always application/json. Authorization is present exactly when a record with a non-empty token is stored, and is then "Bearer " + token. There are no other headers. |
| ApiService.OutcomeAccepts | src/services/api.service.ts:30-32 | A request resolves exactly when axios delivered a well-formed envelope, and resolves with that envelope. |
| ApiService.OutcomeErrors | src/services/api.service.ts:33-39 | Every failure surfaces as "Network Error: " plus a message, or as "An unexpected error occurred". A malformed envelope becomes "Network Error: Unexpected response format". |
| ApiService.Request | src/services/api.service.ts:9-40 | The URL is the base URL followed by the resource, and the method and body are the ones passed. The headers come from the stored session. The result is the outcome of the transport. |
| ApiService.Get | src/services/api.service.ts:54-56 | GET on the resource, without a body. |
| ApiService.Post | src/services/api.service.ts:58-63 | POST on the resource, with the params as the body. |
| ApiService.Put | src/services/api.service.ts:65-70 | PUT on the resource, with the params as the body. |
| ApiService.Delete | src/services/api.service.ts:72-74 | DELETE on the resource, without a body. |
| ApiService.Send | src/services/api.service.ts:54-74 | Every entry point sends its own method. Only post and put carry a body. |
| NumberText.IntTextRoundTrip | src/models/base.model.ts:15-17 | The decimal text an id is written as reads back as that id. |
| BaseModel.ItemPath | src/models/base.model.ts:15-17 | The item path is the endpoint, "/" and the id's decimal text (no leading zero), and the id reads back from it. |
| BaseModel.ItemPathInjective | src/models/base.model.ts:15-17 | Distinct ids give distinct item paths. |
| BaseModel.GetAll | src/models/base.model.ts:11-13 | GET on the endpoint, without a body. |
| BaseModel.GetById | src/models/base.model.ts:15-17 | GET on `endpoint/id`, without a body. |
| BaseModel.Create | src/models/base.model.ts:19-21 | POST on the endpoint, with the data as the body. |
| BaseModel.Update | src/models/base.model.ts:23-25 | PUT on `endpoint/id`, with the data as the body. |
| BaseModel.Delete | src/models/base.model.ts:27-29 | DELETE on `endpoint/id`, without a body. |
| BaseModel.GetFeaturesByUserId | src/models/feature.model.ts:11-13 | GET on `/feature/user/id`, without a body. |
| FeatureStore.FeatureStore.constructor | src/stores/feature.store.ts:16-22 | The store starts with feature {0, "", "", 0} and an empty list. |
| FeatureStore.FeatureStore.SetFeature | src/stores/feature.store.ts:24 | Only the current feature is replaced. |
| FeatureStore.FeatureStore.GetFeatureById | src/stores/feature.store.ts:25-28 | Returns the first list element with the id, or nothing exactly when no element has it. Read-only. |
| FeatureStore.FeatureStore.SetFeatureList | src/stores/feature.store.ts:29-30 | Only the list is replaced, as a whole. |
| FeatureStore.FeatureStore.FetchFeatures | src/stores/feature.store.ts:32-40 | Issues `getAll` on "/feature". On success, the store's list and the map's list are both the data. On failure, both are unchanged. |
| UserStore.UserStore.constructor | src/stores/user.store.ts:16-22 | The store starts with user {0, "", "", ""} and an empty list. |
| UserStore.UserStore.SetUser | src/stores/user.store.ts:24 | Only the current user is replaced. |
| UserStore.UserStore.GetUserById | src/stores/user.store.ts:25-28 | Returns the first list element with the id, or nothing exactly when no element has it. Read-only. |
| UserStore.UserStore.SetUserList | src/stores/user.store.ts:29 | Only the list is replaced, as a whole. |
| UserStore.UserStore.FetchUsers | src/stores/user.store.ts:31-38 | Issues `getAll` on "/user". On success, the list is the data. On failure, it is unchanged. |
| SidemenuStore.SidemenuStore.constructor | src/stores/sidemenu.store.ts:11-12 | open and updateMode both start false. |
| SidemenuStore.SidemenuStore.Show | src/stores/sidemenu.store.ts:13 | open becomes true from any state, so the operation is idempotent. updateMode is untouched. |
| SidemenuStore.SidemenuStore.Hide | src/stores/sidemenu.store.ts:14 | open becomes false from any state, so the operation is idempotent. updateMode is untouched. |
| SignIn.SignInForm.constructor | src/components/authorization/SignIn.tsx:27-30 | No field starts in error, and both messages are empty. |
| SignIn.SignInForm.ValidateInputs | src/components/authorization/SignIn.tsx:32-57 | Valid exactly when the username is non-empty and the password has at least 6 characters. Both fields are always checked. Each field's flag and message depend on that field alone, and each failure has its fixed message. |
| SignIn.SignInForm.HandleSubmit | src/components/authorization/SignIn.tsx:59-69 | The credentials {username, password} are submitted exactly when the inputs are valid. |
| SignUp.SignUpForm.constructor | src/components/authorization/SignUp.tsx:39-44 | No field starts in error, and all messages are empty. |
| SignUp.SignUpForm.ValidateInputs | src/components/authorization/SignUp.tsx:46-81 | Valid exactly when the username is non-empty, the password has at least 6 characters and the full name is non-empty. The full-name test is the emptiness test. All three fields are always checked, each with its own flag and fixed message. |
| SignUp.SignUpForm.HandleSubmit | src/components/authorization/SignUp.tsx:83-94 | The registration {fullName, username, password} is submitted exactly when the inputs are valid. |
| SignUp.SignUpImpliesSignIn | src/components/authorization/SignUp.tsx:53-78 | The sign-up conditions are the sign-in conditions plus a non-empty full name. |

## Left out

- `OlMap.interactions` holds only the interactions the application adds. The default interactions `new Map` installs (drag-pan, double-click zoom, mouse-wheel zoom, keyboard pan and the rest) are not modelled, so the map starts with an empty list here. Every contract about interactions is stated relative to the list before the call.
- FindByDataId, SetFeatureUpdateable, ZoomToFeature and RenderMap: a source's features are modelled in insertion order. OpenLayers' `getFeatures()` on a source with its default spatial index returns them in R-tree order, which matches insertion order only while one leaf holds them all (at most nine). Beyond that the program's `find` may meet a different feature first: a record-less drawn feature, which throws, or another feature with the same id.

- WKT reading and writing, and the EPSG:3857 projection, belong to OpenLayers:
  - the reader is a parameter from text to a read result;
  - the writer is a parameter from geometry to text.
  Coordinates are integer pairs rather than floating-point numbers.
- Styles are reduced to an icon or a stroke with a normal, selected or disabled tag. Icon paths, colours and widths are not modelled.
- Hit-testing, and the view's fit and animate, are left out:
  - the feature at a pixel is an input;
  - the zoom animation is taken to complete, after which its callback runs.
- The Draw, Snap, Translate and Modify interactions are reduced to their kind, target, record and list membership. The user's gesture is an input, passed as the geometry it produced.
- async and await ordering and concurrent requests are left out. Each operation runs to completion.
- Records are values. The code's sharing of one object between the store, the rendered feature's "data" and the edit callback is not modelled. `OnEditEnd` returns the updated record instead of mutating it in place.
- The close-button listeners that `showFeaturePopover` adds, two per call, are left out.
- Map event binding is left out; the handlers require a map to exist. Each handler is a method called with the event's data.
- `SetFeatureUpdateable` and `ZoomToFeature` require a rendered map. Before the first render, the source throws a TypeError at `vectorLayer`.
- `PopupAnchor` treats coordinates whose shape does not match the rendered geometry's type as an error. In JavaScript, such a record could place the popup at a malformed position instead. This only happens when a record's WKT changed type after rendering.
- `enableTranslateInteraction` and `enableModifyInteraction` in the map helpers are never called by the application, and `getFeatureAtPixel` and `getFeatureData` are one-line library calls. These are not modelled.
- `src/stores/map.store.ts` is not used by the modelled logic and is not part of this model.
- `localStorage` is a map from keys to session records, so JSON text and `JSON.parse` of malformed text are not modelled. This takes for granted that `JSON.parse` undoes `JSON.stringify`.
- The typed payload of an envelope is not decoded. A fetch is passed in as a list of records or an error message.
- The zustand setters that return the assigned value also merge it into the store's top level. The model treats them as plain replacement, since nothing reads the merged keys.
- `SignInForm.ValidateInputs` and `SignUpForm.ValidateInputs` count characters. JavaScript's `length` counts UTF-16 code units, so the 6-character minimum differs for text outside the Basic Multilingual Plane.
- `MapModel.MapModel.SetMapRef` stands for React attaching the container element. The component lifecycle is not modelled.
