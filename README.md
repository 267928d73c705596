# Swell front end: a verified model of the pages' client-side logic

Swell is a fashion app. Users browse outfit cards, like outfits and save their items to a
closet, pick style preferences while onboarding, and try clothes on a photo of themselves
("virtual fitting"). The front end is a set of React pages. This project models the logic
inside those pages and proves properties of it in Dafny. The current pages live
under `FE/app/…`. The start, onboarding, main, closet and favorites pages also have an earlier
version under `app/…`. The earlier start and onboarding pages call the same login, signup and
onboarding API. The earlier main, closet and favorites pages use hard-coded outfits, closet
items and favorites. The tutorial and the progress bar exist only in the current version.

Each page is a `class`. Its fields are the page's `useState` variables, and each event handler
is a `method` with a `modifies` clause. The expressions the page computes while rendering are
`function`s and `predicate`s. Results of network calls and of the fitting poll are method
parameters, written as outcome datatypes (`FitOutcome`, `ApiOutcome`, `FetchOutcome`, …).
Navigation (`router.push`) and `alert` are returned as values.

| file | models |
|---|---|
| `Base.dfy` | nullable values, JavaScript's `x \|\| fallback` on strings, routes, the `{ success, error }` answers of the earlier API |
| `Lists.dfy` | `filter`, membership toggles (with and without a cap), duplicate-freedom, and their lemmas |
| `Closet.dfy` | `FE/app/closet/page.tsx`: category maps, fitting slots, fitting request, fitting and restore handlers |
| `ClosetMock.dfy` | `app/closet/page.tsx`: the hard-coded closet and the simulated fitting |
| `Onboarding.dfy` / `OnboardingMock.dfy` | `FE/app/onboarding/page.tsx` / `app/onboarding/page.tsx` |
| `Start.dfy` / `StartMock.dfy` | `FE/app/start/page.tsx` / `app/start/page.tsx` |
| `Carousel.dfy` / `CarouselMock.dfy` | `FE/app/main/page.tsx` / `app/main/page.tsx` |
| `Favorites.dfy` / `FavoritesMock.dfy` | `FE/app/favorites/page.tsx` / `app/favorites/page.tsx` |
| `Tutorial.dfy` | `FE/app/tutorial/page.tsx` |
| `ProgressBar.dfy` | `FE/components/common/ProgressBar.tsx` |

Some JavaScript semantics are written out explicitly:
- **Truthiness.** `null`, `undefined` and `""` are falsy (`Base.Truthy`). An item id of `0` is falsy in `canFit` (`Closet.IdTruthy`).
- **`||` fallbacks.** `message || fallback` is `Base.OrElse`, and `value || null` is `Base.NullIfFalsy`.
- **`String.length`** counts UTF-16 code units (`Start.Utf16Length`).
- **`\s`** in a regular expression is JavaScript's whitespace set (`Start.IsWhitespace`).

## Model

| member | source | states |
|---|---|---|
| Base.FailureMessage | app/start/page.tsx:35-42 | no error exactly when the answer says success; a failed answer shows its message, or the fallback when that message is empty or missing; an exception shows the fallback; with a non-empty fallback the error shown is never empty |
| Lists.Filter | FE/app/main/page.tsx:100-104 | `Array.prototype.filter`: an element is kept iff it was in the input and passes the test; the result is never longer |
| Lists.FilterAppend | FE/app/main/page.tsx:100-104 | filtering works element by element, so relative order is kept |
| Lists.FilterNoDup | FE/app/main/page.tsx:151 | removing by filter never creates a duplicate |
| Lists.Without | FE/app/main/page.tsx:151 | `list.filter(x => x !== v)`: `v` is gone and every other value keeps its membership |
| Lists.WithoutLength | FE/app/onboarding/page.tsx:66-67 | in a duplicate-free list, removing a present value shortens it by exactly one |
| Lists.Toggle | FE/app/main/page.tsx:115-125 | `includes ? filter : [...prev, v]`: a present value is removed as Without removes it, an absent value is appended at the end, and the other values keep their membership |
| Lists.ToggleNoDup | FE/app/main/page.tsx:148-155 | toggling keeps a list duplicate-free |
| Lists.ToggleTwiceAbsent | FE/app/main/page.tsx:115-119 | toggling an absent value twice gives back the exact list |
| Lists.ToggleAtMost | FE/app/onboarding/page.tsx:64-74 | toggle with a cap: a present value is removed; an absent one is appended only below the cap, otherwise the list is unchanged; the cap is never exceeded |
| Lists.ToggleAtMostNoDup | FE/app/onboarding/page.tsx:64-74 | the capped toggle keeps a list duplicate-free |
| Lists.NoDupCardinality | app/onboarding/page.tsx:56-62 | a duplicate-free list has as many distinct members as entries |
| Closet.CategoryMapsInverse | FE/app/closet/page.tsx:14-24 | CATEGORY_MAP and CATEGORY_MAP_REVERSE are inverse: `MAP[k] == c` iff `REVERSE[c] == k` |
| Closet.SlotNamed | FE/app/closet/page.tsx:191 | the keys 상의/하의/아우터, and only they, name a slot, and the slot carries that key |
| Closet.CategoryOfSlot | FE/app/closet/page.tsx:249-254 | a slot's request category maps back to the slot's key through both maps |
| Closet.SlotOf | FE/app/closet/page.tsx:188-191 | an item has a slot iff its backend category has a reverse mapping, and that slot is the mapped key |
| Closet.ClickItem | FE/app/closet/page.tsx:187-197 | a click empties the item's slot if it held the item, otherwise puts the item's id there; the other slots are unchanged; an unmapped category changes nothing |
| Closet.ClickItemTwice | FE/app/closet/page.tsx:187-197 | clicking an item twice restores the slots when its slot was empty or held that item |
| Closet.FittingRequest | FE/app/closet/page.tsx:249-254 | one `{itemId, category}` per filled slot, with the English category: every filled slot has its entry, every entry comes from a slot, no two entries share a category, at most 3 entries, empty iff every slot is empty |
| Closet.ClickedItemIsRequested | FE/app/closet/page.tsx:187-197 | a clicked-in item is requested with the backend category it came with |
| Closet.CanFitMeansRequest | FE/app/closet/page.tsx:310 | when canFit holds the request is non-empty; with non-zero ids canFit holds iff photo, no result shown and a non-empty request |
| Closet.EnabledButtonSendsRequest | FE/app/closet/page.tsx:485 | an enabled fitting button means an idle page with a photo and a non-empty request of at most 3 entries, so handleFitting never refuses it as an empty selection |
| Closet.FilteredItems | FE/app/closet/page.tsx:178-184 | "전체" shows every item; any other tab shows exactly the items whose mapped category is the tab |
| Closet.FilteredItemsKeepOrder | FE/app/closet/page.tsx:179-184 | the tab filter keeps the closet's order |
| Closet.FullPhotoUrl | FE/app/closet/page.tsx:79-81 | the photo URL always starts with "http"; one that already does is kept |
| Closet.FullPhotoUrlIdempotent | FE/app/closet/page.tsx:225-227 | making the URL absolute twice is making it absolute once |
| Closet.ClosetPage.constructor | FE/app/closet/page.tsx:34-52 | the page starts on "전체" with empty slots, no photo, no result, idle |
| Closet.ClosetPage.LoadClosetItems | FE/app/closet/page.tsx:167-175 | a successful response replaces the items; a failure keeps them |
| Closet.ClosetPage.SelectCategory | FE/app/closet/page.tsx:545 | a tab click selects that tab |
| Closet.ClosetPage.Shown | FE/app/closet/page.tsx:178-184 | the grid shows every item under "전체" and otherwise exactly the items whose category maps to the selected tab; it is filteredItems of the closet, so it keeps the closet's order |
| Closet.ClosetPage.HandleItemClick | FE/app/closet/page.tsx:187-197 | the slots become `ClickItem` of the old slots |
| Closet.ClosetPage.HandleRemoveFromSlot | FE/app/closet/page.tsx:200-205 | exactly the named slot is emptied |
| Closet.ClosetPage.RestoreProfilePhoto | FE/app/closet/page.tsx:76-83 | a non-empty profile image becomes the photo, made absolute; otherwise the photo is kept |
| Closet.ClosetPage.HandlePhotoUpload | FE/app/closet/page.tsx:214-245 | no file: nothing; an upload shows the absolute photo URL, drops the result, goes idle and alerts; a failure only alerts, with the response's error message, else the exception's own message, else the default |
| Closet.ClosetPage.ResetResult | FE/app/closet/page.tsx:418-423 | "다시 피팅" drops the result and message and goes idle |
| Closet.ClosetPage.HandleFitting | FE/app/closet/page.tsx:248-300 | empty slots: alert only, nothing sent; otherwise the request is sent, and a click on an enabled button always sends a non-empty one; completed shows result and message (empty becomes null), clears the slots and goes completed; failed, timeout or an error go idle with the slots kept and their own alerts |
| Closet.ClosetPage.RestoreFittingStatus | FE/app/closet/page.tsx:93-153 | only the newest job is read; a processing job is resumed and settles as its poll does; a completed job shows its stored result, then the polled one; other statuses, an empty history or a failed history request change nothing; slots are never touched |
| ClosetMock.MockClick | app/closet/page.tsx:60-69 | only 상의/하의/아우터 items change a slot, toggling it between the id and empty; other slots are unchanged; shoes and accessories never enter a slot |
| ClosetMock.MockClickKeepsCategories | app/closet/page.tsx:375-387 | every slot keeps holding an item of its own category |
| ClosetMock.MockFilteredItems | app/closet/page.tsx:55-57 | "전체" shows every item, any other tab exactly the items of that category |
| ClosetMock.MockFilteredItemsKeepOrder | app/closet/page.tsx:55-57 | the tab filter keeps the closet's order |
| ClosetMock.MockClosetPage.constructor | app/closet/page.tsx:11-23 | the page starts on "전체" with empty slots, no photo, no result, idle |
| ClosetMock.MockClosetPage.HandleItemClick | app/closet/page.tsx:387 | a grid click is `canAddToSlot && handleItemClick(item)`: the slots become `MockClick` of the old slots |
| ClosetMock.MockClosetPage.HandleRemoveFromSlot | app/closet/page.tsx:72-77 | exactly the named slot is emptied |
| ClosetMock.MockClosetPage.HandlePhotoUpload | app/closet/page.tsx:80-91 | a read file becomes the photo; the result is dropped and the page goes idle; no file, no change |
| ClosetMock.MockClosetPage.ChangePhoto | app/closet/page.tsx:253-257 | "사진 변경" drops photo and result and goes idle |
| ClosetMock.MockClosetPage.HandleFitting | app/closet/page.tsx:94-105 | without a photo or a filled slot nothing changes; otherwise the page completes with the simulated result and keeps the slots |
| Onboarding.OnboardingPage.constructor | FE/app/onboarding/page.tsx:14-26 | step 1, nothing selected, not submitting |
| Onboarding.OnboardingPage.ToggleTag | FE/app/onboarding/page.tsx:64-74 | the capped toggle with cap 10; alerts exactly when an 11th tag is refused; tags stay duplicate-free and at most 10 |
| Onboarding.OnboardingPage.ToggleOutfit | FE/app/onboarding/page.tsx:77-87 | the capped toggle with cap 5; alerts exactly when a 6th outfit is refused |
| Onboarding.OnboardingPage.HandleNext | FE/app/onboarding/page.tsx:90-96 | step 2 iff at least 3 tags, otherwise an alert and the step unchanged |
| Onboarding.OnboardingPage.HandleBack | FE/app/onboarding/page.tsx:99-101 | back to step 1 with both selections kept |
| Onboarding.OnboardingPage.HandleSubmit | FE/app/onboarding/page.tsx:115-135 | sent iff exactly 5 outfits; success goes to the main page; failure alerts with the message or the default and clears `submitting` |
| Onboarding.TagToggleBounded | FE/app/onboarding/page.tsx:64-74 | a tag toggle keeps the list duplicate-free and within 10, selects the tag iff it was absent with room left, and appends it at the end |
| Onboarding.OutfitCapMeetsGate | FE/app/onboarding/page.tsx:77-87 | with 5 outfits chosen a new one is refused |
| Onboarding.DeselectLeavesFour | FE/app/onboarding/page.tsx:77-87 | deselecting one of 5 outfits leaves 4, below the submission gate |
| OnboardingMock.MockOnboardingPage.constructor | app/onboarding/page.tsx:12-16 | step 1, nothing selected, no error |
| OnboardingMock.MockOnboardingPage.ToggleTag | app/onboarding/page.tsx:47-53 | the capped toggle with cap 10; an 11th tag is silently ignored |
| OnboardingMock.MockOnboardingPage.ToggleCoordi | app/onboarding/page.tsx:56-62 | the uncapped toggle: removed if present, otherwise appended |
| OnboardingMock.MockOnboardingPage.HandleNext | app/onboarding/page.tsx:65-74 | from step 1: step 2 with the error cleared iff at least 3 tags, otherwise the error is set and step 1 kept |
| OnboardingMock.MockOnboardingPage.Back | app/onboarding/page.tsx:178 | back to step 1, selections kept |
| OnboardingMock.MockOnboardingPage.HandleSubmit | app/onboarding/page.tsx:77-99 | sent iff exactly 5 coordis, otherwise an error; success goes to the main page; failure shows the message or the default; `submitting` is false afterwards |
| OnboardingMock.CoordisAtMostFive | app/onboarding/page.tsx:56-62 | the coordi toggle has no cap, yet a selection never exceeds the 5 coordis shown |
| Start.IndexOf | FE/app/start/page.tsx:72 | the first occurrence of a character, or the length when there is none |
| Start.IsValidEmailMatchesRegex | FE/app/start/page.tsx:72-73 | the e-mail check (no whitespace, one '@', non-empty local part, an inner '.' in the domain) accepts exactly the strings matching `^[^\s@]+@[^\s@]+\.[^\s@]+$` |
| Start.Utf16Length | FE/app/start/page.tsx:62 | `password.length` counts UTF-16 units: between the number of characters and twice that |
| Start.SignupError | FE/app/start/page.tsx:57-76 | the checks run in order: missing field, short password, mismatch, bad e-mail; each error is reported exactly when its check fails and every earlier one passes, and none iff every check passes |
| Start.LoginRoute | FE/app/start/page.tsx:39-43 | a login goes to /main iff onboarding is complete, else to /onboarding |
| Start.PrevGuidePage | FE/app/start/page.tsx:409 | `max(0, page - 1)`: stays in [0, 3] |
| Start.NextGuidePage | FE/app/start/page.tsx:430 | `min(3, page + 1)`: stays in [0, 3] |
| Start.PrevReachesFirst | FE/app/start/page.tsx:409-410 | enough previous clicks reach the first page and stay there |
| Start.NextReachesLast | FE/app/start/page.tsx:430-431 | enough next clicks reach the last page and stay there |
| Start.StartPage.constructor | FE/app/start/page.tsx:10-20 | login mode, first guide page, empty form |
| Start.StartPage.HandleLogin | FE/app/start/page.tsx:31-51 | success routes by the onboarding flag; failure shows the message or the default; loading ends |
| Start.StartPage.HandleSignup | FE/app/start/page.tsx:54-98 | a failed check sets its error and nothing is sent; success switches to login, clears the five fields and the error, and alerts; failure shows the message or the default |
| Start.StartPage.HandleKeyPress | FE/app/start/page.tsx:101-109 | other keys change no field; Enter in login mode has exactly handleLogin's effect (route or error, form kept), in signup mode exactly handleSignup's (validation error, cleared form in login mode with the sign-up alert returned, or the failure message) |
| Start.StartPage.ToggleMode | FE/app/start/page.tsx:133-141 | flips the mode and clears the five fields and the error |
| Start.StartPage.GuidePrev | FE/app/start/page.tsx:409 | the guide page moves back, clamped to [0, 3] |
| Start.StartPage.GuideNext | FE/app/start/page.tsx:430 | the guide page moves on, clamped to [0, 3] |
| StartMock.MockStartPage.constructor | app/start/page.tsx:9-18 | login mode, first guide page, empty form |
| StartMock.MockStartPage.HandleLogin | app/start/page.tsx:29-45 | a successful answer routes to /main; otherwise the message or the default is shown |
| StartMock.MockStartPage.HandleSignup | app/start/page.tsx:48-72 | no gender: an error and nothing sent; success switches to login, clears the error and alerts; failure shows the message or the default |
| StartMock.MockStartPage.ToggleMode | app/start/page.tsx:93-96 | flips the mode and clears only the error |
| StartMock.MockStartPage.GuidePrev | app/start/page.tsx:215 | the guide page moves back, clamped to [0, 3] |
| StartMock.MockStartPage.GuideNext | app/start/page.tsx:234 | the guide page moves on, clamped to [0, 3] |
| StartMock.MockStartPage.PageCaption | app/start/page.tsx:200 | "Page n of 4" shows n in [1, 4] |
| Carousel.FilteredOutfits | FE/app/main/page.tsx:100-104 | an outfit is shown iff (no season selected or its season is) and (no style selected or its style is) |
| Carousel.NoFilterShowsAll | FE/app/main/page.tsx:100-104 | with no filter the whole catalogue is shown, in order |
| Carousel.FilteredOutfitsKeepOrder | FE/app/main/page.tsx:100-104 | the filter keeps catalogue order |
| Carousel.FilterDependsOnMembersOnly | FE/app/main/page.tsx:101-102 | the filter depends only on which seasons and styles are selected, not on their order |
| Carousel.SeasonToggleTwiceSameOutfits | FE/app/main/page.tsx:115-119 | clicking a season chip twice shows the same outfits as before |
| Carousel.StyleToggleTwiceSameOutfits | FE/app/main/page.tsx:121-125 | clicking a style chip twice shows the same outfits as before |
| Carousel.MainPage.constructor | FE/app/main/page.tsx:11-17 | first outfit, nothing liked, saved or filtered |
| Carousel.MainPage.Filtered | FE/app/main/page.tsx:100-104 | the shown outfits are the catalogue outfits that pass the filter |
| Carousel.MainPage.CurrentOutfit | FE/app/main/page.tsx:106 | there is a current outfit iff the filter leaves any, and it passes the filter |
| Carousel.MainPage.ToggleSeason | FE/app/main/page.tsx:110-119 | toggles the season and resets to the first outfit |
| Carousel.MainPage.ToggleStyle | FE/app/main/page.tsx:110-125 | toggles the style and resets to the first outfit |
| Carousel.MainPage.HandlePrev | FE/app/main/page.tsx:128-136 | one back only when past the first and not transitioning; the index stays in [0, max(0, len-1)] |
| Carousel.MainPage.HandleNext | FE/app/main/page.tsx:138-146 | one on only before the last and not transitioning; the index stays in [0, max(0, len-1)] |
| Carousel.MainPage.HandleToggleLike | FE/app/main/page.tsx:148-155 | no current outfit: nothing; otherwise its id's membership flips, isLiked flips, no duplicate |
| Carousel.MainPage.ToggleSavedItem | FE/app/main/page.tsx:360-366 | the item's membership in the saved items flips, no duplicate |
| CarouselMock.MockMainPage.constructor | app/main/page.tsx:11-14 | first outfit, nothing liked |
| CarouselMock.MockMainPage.CurrentOutfit | app/main/page.tsx:68 | the current outfit always exists on this page |
| CarouselMock.MockMainPage.PageIndicator | app/main/page.tsx:255 | the indicator shows currentIndex + 1, in [1, 3] |
| CarouselMock.MockMainPage.HandlePrev | app/main/page.tsx:72-80 | one back only when past the first and not transitioning; the index stays in [0, 2] |
| CarouselMock.MockMainPage.HandleNext | app/main/page.tsx:83-91 | one on only before the last and not transitioning; the index stays in [0, 2] |
| CarouselMock.MockMainPage.HandleToggleLike | app/main/page.tsx:94-100 | the current id is removed if liked, else appended; isLiked flips; other ids are untouched |
| Favorites.Unliked | FE/app/favorites/page.tsx:87 | every favorite with the id is gone and every other one is kept |
| Favorites.UnlikedKeepsOrder | app/favorites/page.tsx:51-53 | the remaining favorites keep their order |
| Favorites.UnlikedIdempotent | app/favorites/page.tsx:51-53 | unliking twice is unliking once |
| Favorites.UnlikedAbsent | app/favorites/page.tsx:51-53 | unliking an id not in the list changes nothing |
| Favorites.FavoritesPage.constructor | FE/app/favorites/page.tsx:16-29 | empty list, loading, page 1 of 0 |
| Favorites.FavoritesPage.FetchFavorites | FE/app/favorites/page.tsx:59-75 | a fetched page replaces the list, the page number and the pagination; a failure keeps them and shows the error; loading ends |
| Favorites.FavoritesPage.Retry | FE/app/favorites/page.tsx:202 | the retry button refetches the current page: a fetched page replaces the list, the page count and hasMore and clears the error; a failure sets the error and keeps the list and the pagination; loading ends |
| Favorites.FavoritesPage.HandleUnlike | FE/app/favorites/page.tsx:83-92 | after a successful removal the outfit leaves the list; a failure alerts and keeps the list |
| Favorites.FavoritesPage.HandlePageChange | FE/app/favorites/page.tsx:105-110 | fetches iff 1 ≤ page ≤ the page count, otherwise nothing changes; after a fetch, loading has ended, and a fetched page replaces the list, the page number, the page count and hasMore and clears the error, while a failure sets the error and keeps the list and the pagination |
| Favorites.FavoritesPage.HandleSaveToCloset | FE/app/favorites/page.tsx:113-127 | an already-saved item is refused without a request; a save appends the id and alerts; a failure alerts with the message or the default; the saved list stays duplicate-free |
| FavoritesMock.MockFavoritesPage.constructor | app/favorites/page.tsx:26-48 | the three hard-coded favorites |
| FavoritesMock.MockFavoritesPage.HandleUnlike | app/favorites/page.tsx:51-53 | every favorite with the id leaves; the empty state shows iff every old favorite had that id |
| Tutorial.Steps | FE/app/tutorial/page.tsx:36-374 | both step lists have 5 entries, as does desktopContent, and end with the shared fitting step |
| Tutorial.DesktopButtonLabel | FE/app/tutorial/page.tsx:486 | "Start Swell" iff on the last step, else "Next" |
| Tutorial.MobileButtonLabel | FE/app/tutorial/page.tsx:565 | "시작하기" iff on the last step, else "확인" |
| Tutorial.Segments | FE/app/tutorial/page.tsx:534-537 | segment i is filled iff i ≤ step |
| Tutorial.CountPrefixTrue | FE/app/tutorial/page.tsx:534-537 | a bar filled up to position k has k + 1 filled segments |
| Tutorial.FilledSegmentsCount | FE/app/tutorial/page.tsx:534-537 | on step n the bar shows n + 1 filled segments |
| Tutorial.TutorialPage.constructor | FE/app/tutorial/page.tsx:23-24 | first step, phone layout |
| Tutorial.TutorialPage.CurrentStepId | FE/app/tutorial/page.tsx:554 | the phone view renders a step of the phone list, the fitting step on the last step |
| Tutorial.TutorialPage.CurrentTitle | FE/app/tutorial/page.tsx:422 | `desktopContent[step]` is always defined |
| Tutorial.TutorialPage.Resize | FE/app/tutorial/page.tsx:27-33 | switching layout keeps the step valid for the other list |
| Tutorial.TutorialPage.HandleNext | FE/app/tutorial/page.tsx:376-389 | the next step before the last; on the last, the main page with the step kept |
| ProgressBar.Width | FE/components/common/ProgressBar.tsx:12 | the width is in [0, 100], equals the progress inside that range, 0 below and 100 above |
| ProgressBar.WidthIdempotent | FE/components/common/ProgressBar.tsx:12 | clamping a clamped width changes nothing |
| ProgressBar.WidthMonotone | FE/components/common/ProgressBar.tsx:12 | more progress never gives a narrower bar |

## Left out

- Rendering, styling, animations, images and icons are not modelled. This covers all JSX, `ItemSelector`, `MobileBottomNav`, `ClosetIcon`, `HomeIcon` and the root layout. They hold no logic beyond what the pages compute.
- The HTTP wrappers under `lib/` and `FE/lib/` and the axios interceptors (bearer header; a 401 clears the token and redirects) are not modelled. Every call's result is a method parameter.
- The fitting poll loop (`pollFittingStatus`) is not modelled. Its file is not part of this model, and only its result is consumed, as `Closet.FitOutcome`.
- `sessionStorage`, the user name shown in the header, the logout handlers, the profile dropdown, `window.scrollTo` and `window.location.reload` are left out. They are storage and browser plumbing.
- `setTimeout` delays are taken as immediate. This applies to the carousel transitions, the simulated fitting of the earlier closet page and the onboarding delay.
  - `isTransitioning` is kept as a field and still guards prev/next, but no event leaves it set.
  - So the model does not capture a filter change made during a pending carousel transition. There, the stale timer can set an index past the new filtered list, which the page tolerates by rendering nothing for `currentOutfit`.
- Interleaving of async handlers is not modelled, for example restoring a fitting while a new one runs, or two overlapping submissions. Each handler runs to its settled state.
- Intermediate states of async handlers are not modelled: "processing", the progress texts and `loading` set to true. Each handler is modelled from its start to its settled state.
- Closet.ClosetPage.HandleFitting: the request parameter stands for the sent request. A failure of the starting call and a failure of the poll both end in the same `catch`, so both are the one outcome `FitThrew`.
- Closet.CanFit: truthiness is modelled as written. An item id of 0 makes canFit false while handleFitting would send it (`!== null`). `Closet.CanFitMeansRequest` states the exact relation instead of assuming positive ids.
- Lookups through the category maps use plain string comparison. Keys that JavaScript would find on `Object.prototype` (such as "constructor") are not modelled.
- `getSlotItem`, item deletion from the closet and opening purchase links are left out. They are display helpers and calls to services outside this model.
- The closet page's mobile tabs and the favorites page's outfit modal (`selectedOutfit`) are left out. They are display state only.
- The onboarding page's loading of its tag and outfit options (`loadOptions`) and its entrance animation are left out. They are a network call and presentation; the options only supply the ids that are toggled.
- `useAuth` is left out. It is hard-wired to a test mode plus token plumbing.
- The ProgressBar's NaN behaviour is left out. Progress is an integer.
- The tutorial's background choice by step and the desktop dots are left out. They are presentation, computed directly from `step`.
