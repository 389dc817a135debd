# ResortMoa client core, modelled in Dafny

This project models the parts of the ResortMoa resort-browsing client that hold real logic.

- **Bottom sheet.** This is the mobile snap panel. Its height is a percentage of the viewport. It follows touch and mouse drags, cedes a drag to nested scrolled content, and on release settles at the top (100) or middle (60) snap point, or asks its owner to close it (below 15).
- **Booking-rule generator.** It builds a resort's booking rule from its brand and application type.
- **Catalog-client normalisation.** This covers base-URL cleanup, image-URL rewriting, coordinate resolution, the resort transform and the search query parameters.
- **Detail-view image lists.** These are the room and nearby-place image lists shown by the detail views.
- **Detail-view state.** This covers the reset on a resort change and review submission.

Heights, pixel offsets and coordinates are Dafny `real`s. The window height and the scroll offsets are parameters. The DOM is abstracted as the list of elements from the touched element up to the document root. The remote `createReview` result is an input `Option<Review>`.

Files:
- `wrappers.dfy`: `Option`.
- `strings.dfy`: the string built-ins the code uses (`startsWith`, `endsWith`, `toUpperCase`, `trim`).
- `lists.dfy`: `.filter(Boolean)` and `Array.from(new Set(...))`.
- `types.dfy`: the records of `types.ts`, with only the fields the model computes.
- `bottom_sheet.dfy`, `brand_rules.dfy`, `resort_service.dfy`, `detail_views.dfy`, `resort_detail.dfy`: one module per source file.

Where one might expect otherwise, the model follows the code:
- A drag candidate outside (10, 100] is rejected and the height is left as it was. It is not clamped.
- The scroll gate tests `scrollTop > 0` exactly. There is no tolerance of one unit.
- A touch end releases at the current height whether or not a drag session is open. Repeated releases below the close threshold therefore each call `onClose`, so the "close at most once" behaviour is not something the controller itself guarantees.
- The mouse path reads "the owner is at the top" once, at mouse-down. When an expanded panel's owner was scrolled at mouse-down, every downward mouse move of that drag is ceded to the content, even after the owner has scrolled back to 0. The touch path re-reads the scroll offset on every move.
- No code path clamps programmatic height requests. The only programmatic write is the reset to 60.

## Model

| member | source | states |
|---|---|---|
| `BottomSheet.WalkLength` | components/Layout/MobileBottomSheet.tsx:19 | the walk visits exactly the ancestors before the sheet element; none of them is the sheet |
| `BottomSheet.ScrollOwner` | components/Layout/MobileBottomSheet.tsx:17-30 | the owner is the first element on the path, strictly below the sheet, with `overflow-y` auto or scroll and content taller than its box; it is none exactly when no such element precedes the sheet, and it is never the sheet |
| `BottomSheet.FindScrollableParent` | components/Layout/MobileBottomSheet.tsx:17-30 | the upward loop with early return yields exactly that scroll owner |
| `BottomSheet.TouchSuppressed` | components/Layout/MobileBottomSheet.tsx:74-84 | an unexpanded panel never cedes a drag; an expanded one cedes every upward drag, and a downward drag exactly when a cached owner has `scrollTop > 0` |
| `BottomSheet.MouseSuppressed` | components/Layout/MobileBottomSheet.tsx:125-132 | the mouse gate cedes exactly when the touch gate does or when a downward drag meets an expanded panel whose owner was not at its top at mouse-down |
| `BottomSheet.ApplyDrag` | components/Layout/MobileBottomSheet.tsx:86-92 | the height changes only to a candidate inside (10, 100], always takes such a candidate, and so never leaves (10, 100]; a zero window height changes nothing |
| `BottomSheet.Snap` | components/Layout/MobileBottomSheet.tsx:151-165 | release closes iff height < 15; otherwise it settles at 100 iff strictly nearer to 100 than to 60 (iff height > 80), else at 60, always at a nearest snap point; releasing at a snap point keeps it |
| `BottomSheet.BackdropActive` | components/Layout/MobileBottomSheet.tsx:175 | the backdrop is visible and takes taps exactly when the height is above 30 |
| `BottomSheet.Expanded` | components/Layout/MobileBottomSheet.tsx:56 | expanded (also the `isExpandedRef` test of the mouse path) exactly when the height is at least 98, two below the top snap point; an expanded panel has its backdrop up |
| `BottomSheet.Maximized` | components/Layout/MobileBottomSheet.tsx:57 | maximized (drag handle hidden, corners squared) exactly when the height is at least 100; a maximized panel is expanded |
| `BottomSheet.SettledPanelAffordances` | components/Layout/MobileBottomSheet.tsx:56-57 | at either settled snap point the backdrop is active; the panel is expanded and maximized (handle hidden) exactly at the top one |
| `BottomSheet.Panel.constructor` | components/Layout/MobileBottomSheet.tsx:33-47 | a new panel is at 60, not dragging, with no cached owner and the mouse "at top" flag set |
| `BottomSheet.Panel.SetVisible` | components/Layout/MobileBottomSheet.tsx:50-54 | becoming visible resets the height to 60; any other change keeps it |
| `BottomSheet.Panel.TapBackdrop` | components/Layout/MobileBottomSheet.tsx:172-177 | a backdrop tap calls `onClose` exactly when the panel is shown and the height is above 30 |
| `BottomSheet.Panel.TouchStart` | components/Layout/MobileBottomSheet.tsx:60-67 | caches the scroll owner of the touched path, opens the session and records the start position and the sheet's pixel height (0 without a sheet element) |
| `BottomSheet.Panel.TouchMove` | components/Layout/MobileBottomSheet.tsx:69-93 | outside a session nothing changes; a ceded delta changes nothing; otherwise the acceptance window decides; the height stays in (10, 100] |
| `BottomSheet.Panel.TouchEnd` | components/Layout/MobileBottomSheet.tsx:95-99 | ends the session, drops the cached owner and releases at the current height without a session check |
| `BottomSheet.Panel.SnapToPosition` | components/Layout/MobileBottomSheet.tsx:151-165 | below 15 the height is kept and `onClose` is called once; otherwise the height becomes the snap point `Snap` chooses |
| `BottomSheet.Panel.MouseDown` | components/Layout/MobileBottomSheet.tsx:102-119 | as a touch start; it also records "at top" as `scrollTop <= 0` only when there is an owner and the panel is expanded (otherwise true), and attaches the document listeners |
| `BottomSheet.Panel.MouseMove` | components/Layout/MobileBottomSheet.tsx:121-141 | the document listener changes nothing unless attached or when the mouse gate cedes; otherwise the acceptance window decides |
| `BottomSheet.Panel.MouseUp` | components/Layout/MobileBottomSheet.tsx:143-149 | ends the session, drops the owner, detaches the listeners and releases at the current height |
| `BrandRules.ProfileFor` | core/utils/brandRules.ts:16-60 | each application type fixes its badge prefix (Lottery, FC, Approve); any other or absent value gives General; every description and theme field is non-empty |
| `BrandRules.PolicyFor` | core/utils/brandRules.ts:64-88 | the suffix is "Check Policy" exactly for keys outside the five known brands, which get the generic policy text; details and suffixes are non-empty |
| `BrandRules.GenerateBookingRule` | core/utils/brandRules.ts:6-97 | name is "[" + brand + "] Application Period"; the badge is prefix + ": " + suffix; the description joins the type text, the original brand and the brand policy; all four theme fields are non-empty |
| `BrandRules.NameRecordsBrand` | core/utils/brandRules.ts:9 | the brand can be read back from the rule's name unchanged |
| `BrandRules.BrandMatchIgnoresCase` | core/utils/brandRules.ts:68-88 | brands equal after upper-casing get the same badge, theme and policy |
| `BrandRules.KnownBrandInAnyCase` | core/utils/brandRules.ts:68-72 | a brand that upper-cases to SONO, in whatever case, gets the "1st-10th" badge suffix |
| `Strings.ToUpper` | core/utils/brandRules.ts:68 | upper-casing keeps the length and maps each letter a-z to A-Z, leaving other characters |
| `Strings.Trim` | core/hooks/useResortDetail.ts:40 | the trimmed string is the slice left after removing only white space from both ends, itself without white space at either end, and empty iff the input is all white space |
| `ResortService.BaseUrl` | services/resortService.ts:22-24 | exactly one trailing '/' is removed when present; otherwise the URL is unchanged |
| `ResortService.NormalizeImage` | services/resortService.ts:29-39 | empty or absent input gives ""; "http" and "data:" URLs are kept; others get the origin and a '/' when missing; an unparsable base keeps the URL; the input is always a suffix of the result |
| `ResortService.NormalizeImageIdempotent` | services/resortService.ts:29-39 | with an http(s) origin, normalising twice is the same as once |
| `ResortService.FirstUsable` | services/resortService.ts:44-52 | finds the first key whose value is present, numeric and non-zero, every earlier key being skipped |
| `ResortService.Coordinate` | services/resortService.ts:44-52 | the resolved coordinate is never 0, and is undefined exactly when no key is usable |
| `ResortService.ResolveCoordinate` | services/resortService.ts:44-52 | the key loop with early return yields exactly that coordinate |
| `ResortService.NormalizeAll` | services/resortService.ts:89 | mapping `normalizeImage` over a list keeps its length and normalises each entry in place |
| `ResortService.NormalizeKept` | services/resortService.ts:64 | normalising the kept (truthy) entries never produces an empty URL |
| `ResortService.GalleryKeptFacts` | services/resortService.ts:60-66 | deduplicating the normalised truthy sources leaves no repeat and no empty entry, keeps exactly the normalised forms of the sources, and puts the normalised thumbnail first when it is truthy |
| `ResortService.ResortImages` | services/resortService.ts:60-66 | the gallery has no duplicates and no empty entry, holds exactly the normalised forms of the truthy thumbnail, images and more_images, and starts with the normalised thumbnail when that is truthy |
| `ResortService.ResortImagesInFirstOccurrenceOrder` | services/resortService.ts:60-66 | the gallery follows the first-occurrence order of the normalised thumbnail, images and more_images |
| `ResortService.TransformRoom` | services/resortService.ts:86-90 | a room keeps its id and name, its image is normalised, and its further images are normalised entry by entry, a missing list read as empty |
| `ResortService.TransformPlace` | services/resortService.ts:91-98 | a place keeps its id, name, description and detail content, its coordinates are resolved (possibly undefined), `image_url` falls back to `imageUrl` when empty, and both image lists are normalised entry by entry |
| `ResortService.TransformRooms` | services/resortService.ts:86 | every room is transformed, in order |
| `ResortService.TransformPlaces` | services/resortService.ts:91 | every nearby place is transformed, in order |
| `ResortService.TransformResort` | services/resortService.ts:56-100 | id, name and brand are kept; unresolved coordinates become 0 and only then; missing facilities and reviews become []; a missing booking rule is generated from brand and type; every room is transformed; the places transformed are those of `nearby_places` when present, else of `nearbyPlaces`, else none |
| `ResortService.SearchParams` | services/resortService.ts:127-131 | `brand` is present iff the brand is not ALL, `region` iff the region is not ALL, `keyword` iff the query is non-empty, each with its filter value and in that order |
| `Lists.Truthy` | services/resortService.ts:64 | `.filter(Boolean)` keeps exactly the defined non-empty strings |
| `Lists.Dedup` | services/resortService.ts:66 | `Array.from(new Set(...))` has no duplicates, the same elements and, for a non-empty list, the same first element |
| `Lists.DedupKeepsFirstOccurrenceOrder` | components/ResortDetail/views/DetailViews.tsx:68 | the kept elements are ordered by their first occurrence in the input |
| `Lists.DedupOfDistinct` | services/resortService.ts:66 | a list without duplicates comes back unchanged |
| `DetailViews.RoomImages` | components/ResortDetail/views/DetailViews.tsx:13 | the room's image first, then its further images or none: length 1 + their number |
| `DetailViews.RawImages` | components/ResortDetail/views/DetailViews.tsx:61-65 | no empty entries; holds exactly the non-empty image_url, images and more_images; a non-empty image_url comes first |
| `DetailViews.PlaceImages` | components/ResortDetail/views/DetailViews.tsx:61-68 | no empty entries and no duplicates; every non-empty source image is present; a non-empty image_url is element 0 |
| `DetailViews.PlaceImagesInFirstOccurrenceOrder` | components/ResortDetail/views/DetailViews.tsx:61-68 | the place images follow the first-occurrence order of image_url, images, more_images |
| `DetailViews.GalleryShownIffSomeImage` | components/ResortDetail/views/DetailViews.tsx:79-83 | the gallery is shown iff some image source of the place is non-empty |
| `DetailViews.AboutText` | components/ResortDetail/views/DetailViews.tsx:109 | the text is the detail content when non-empty, else the description |
| `ResortDetail.AuthorName` | core/hooks/useResortDetail.ts:45 | the author sent is the trimmed name, or "Anonymous" when that is empty; it is never empty nor padded |
| `ResortDetail.DetailState.constructor` | core/hooks/useResortDetail.ts:14-36 | a mounted view is in the reset state for its resort and not submitting |
| `ResortDetail.DetailState.ResetFor` | core/hooks/useResortDetail.ts:27-36 | reviews become the resort's (or []), selections are cleared, the tab is Overview, the form is collapsed and empty, and the rating is 5 |
| `ResortDetail.DetailState.SubmitReview` | core/hooks/useResortDetail.ts:39-63 | a blank comment changes nothing and sends nothing; otherwise the draft carries the author or Anonymous, the rating and the untrimmed comment; success prepends the review, clears the inputs and expands the list; failure keeps reviews and inputs; the rating is kept and the submitting flag ends false |

## Left out

- DOM and browser plumbing. This covers `getComputedStyle`, `window.innerHeight`, listener registration, React refs and render timing, and CSS transitions. The element path, the window height and the scroll offsets are parameters. The document listeners are a flag. Handlers read the latest committed height. The mouse-up listener keeps the `onClose` of the first render; the model has one `onClose`.
- Panel: touch events are accepted in any state. In the browser the sheet only receives them while it is rendered.
- Strings.ToUpper: it upper-cases ASCII letters only, because full Unicode case mapping (such as 'ß' to "SS") is out of scope.
- Strings.Trim: it removes the common JavaScript white-space characters, not every Unicode space separator.
- The `fetch` calls (`verifyPassword`, `getResorts`, `getResortById`, `createReview`, `getApplicationGuide`, `getRegions`, `getBrands`) and `getEnv` are not modelled, because they are I/O. The API base URL and its origin are parameters.
- ResortService.SearchParams: it gives the appended pairs. The percent-encoding of `URLSearchParams.toString` is not modelled.
- ResortService.TransformResort: image-list entries are strings or absent. Other JSON values, and a missing brand (a TypeError in the rule generator), are not modelled; nor are the fields copied through unchanged: `region_depth1`, `region_depth2`, `address`, `check_in_out`, `contact` and `review_summary` of the resort, and the other room and place fields kept by the `...room` and `...place` spreads (such as `resort_id`, `capacity`, `features`, `amenities`, `category`, `distance_text` and `info_attributes`).
- ResortDetail.DetailState.SubmitReview: the awaited call is an input. So the flag being true while the call is pending is not observable, and a reset or a second submission during the call is not modelled.
- The plain setters the detail hook exposes (`setActiveTab`, `setSelectedRoom` and the rest) are not modelled, because they assign a field and nothing else.
- JSX, styling, the map, the login page, the mock data and the other presentational files are not modelled.
