# Phú Quốc food site: interactive widgets in Dafny

This project models the stateful, interactive parts of a small tourism and
food website about Phú Quốc island, and proves properties of them:

- **Music widget** (`music.js`): a floating, draggable vinyl disc with a
  slide-out playlist menu, a play/pause button and a volume slider. It also
  has a one-shot fallback that starts playback on the first click or touch
  when the browser blocks autoplay. The widget is a `class` whose fields are
  the script's shared variables and the DOM state that its handlers write.
  Each handler is a `method`.
- **Bún Quậy sauce mixer** (`App.tsx`): four sliders, a sauce colour
  computed from chili and sugar, and a recipe check that shows one of two
  messages.
- **Bún Kèn carousel** (`App.tsx`): next/previous arrows over two slides,
  using JavaScript's truncating `%`.
- **Gà Rẫy accordion** (`App.tsx`): at most one restaurant is expanded.
- **Modal dialogs** (`App.tsx`): the Gỏi Cá Trích video modal and the
  Ghẹ Hàm Ninh crab-tips modal. A click is modelled as a run of handlers
  bubbling outward, stopped by `stopPropagation`.
- **Menu region filter** (`components/Menu.tsx`): the 'All' / North /
  Central / South buttons, the filtered dish list, and which button is
  active.
- **Language switch** (`i18n.js`): the Vietnamese and English tables, the
  initial language read from local storage, the toggle, and the page
  update. The update rewrites only elements whose key has a non-empty
  translation.

The modules are `Wrappers` (Option), `Music`, `BunQuay`, `BunKen`, `GaRay`,
`Modals`, `RegionMenu` and `I18n`, one per file.

Browser services become parameters:

- The outcome of each `audio.play()` is a boolean argument.
- The container's offsets and bounding rectangle, and the viewport size, are
  integer arguments.
- Each pending `setTimeout` is a counter, and a separate method stands for
  the timer firing.
- Local storage is an `Option<string>` argument and field.

## Model

| member | source | states |
|---|---|---|
| `Music.ApplyOverride` | music.js:14-19 | a non-empty `data-music` replaces the first track's source and names it "Chủ Đề"; a missing or empty attribute leaves the playlist unchanged; the other tracks never change |
| `Music.HighlightSingleRow` | music.js:159-164 | `highlightTrack(index)` marks exactly row `index` as playing when it is a row, and no row otherwise |
| `Music.ClientPoint` | music.js:209-219 | the drag handlers read the first touch of a touch event and the mouse position of a mouse event |
| `Music.Abs` | music.js:247 | `Math.abs` returns x or -x, and never a negative value |
| `Music.SnapAsWritten` | music.js:259-272 | release-time snapping as written: the right/bottom tests write innerWidth-70 / innerHeight-70 and override the left/top tests, which write 10; a box already on screen gets no write |
| `Music.Moved` | music.js:268-271 | written left/top move the container, and its size stays the same |
| `Music.SnapAsWrittenLeavesTallBoxBelow` | music.js:271 | a container taller than 70px that is dropped past the bottom edge ends partly below the viewport after the snap as written |
| `Music.SnapAsWrittenCounterexample` | music.js:271 | the 70x160 container released at top 700 in a 1024x800 viewport ends with its bottom at 890, off screen |
| `Music.SnapToViewport` | music.js:259-272 | corrected snap: the same writes as the source for a box at most 70px on each axis, no write for a box already inside, and a result inside the viewport whenever the viewport has room for the box |
| `Music.Widget.constructor` | music.js:7-36 | page load: the overridden playlist, audio on track 0 (paused, looping, volume 0.5), every row 'track-item', play icon, paused 10s slow spin, closed menu, container at left 20px and bottom 20px, autoplay attempt pending |
| `Music.Widget.HighlightTrack` | music.js:159-164 | the loop sets row `index` to 'playing-track' and every other row to 'track-item'; the widget invariant is kept |
| `Music.Widget.TogglePlay` | music.js:135-147 | paused audio starts only when `play()` succeeds, showing the pause icon and a running disc and highlighting the current track; playing audio pauses with the play icon and a paused disc; every other field is stated unchanged |
| `Music.Widget.ChangeTrack` | music.js:150-157 | switches the source to track `index`, and is playing iff `play()` succeeds; shows the pause icon and a running disc either way, and highlights row `index` only |
| `Music.Widget.SetVolume` | music.js:197 | the slider's 0..1 value in steps of 0.1 becomes the audio volume, and nothing else changes |
| `Music.Widget.ToggleMenu` | music.js:168-189 | changes nothing right after a drag; otherwise starts the pop spin, schedules the 600ms timer, and flips the menu, whose width is 200px when open and 0 when shut |
| `Music.Widget.SpinTimerFires` | music.js:176-180 | the timer restores the 4s running spin while audio plays and the 10s paused spin otherwise; nothing else changes |
| `Music.Widget.DiscClick` | music.js:275-279 | a click on the disc is `toggleMenu` unless the press was a drag: pop spin, one more 600ms timer, the menu flipped with its width; nothing else changes |
| `Music.Widget.CloseMenuClick` | music.js:193-196 | the close icon is `toggleMenu`, with the same drag guard: pop spin, one more 600ms timer, the menu flipped with its width; nothing else changes |
| `Music.Widget.DragStart` | music.js:209-230 | records the press point and the container offsets, attaches the move/release handlers, and clears the drag flag |
| `Music.Widget.ElementDrag` | music.js:232-257 | the container follows the pointer (top/left = initial + delta, bottom 'auto'); past 5px on either axis the drag flag is set, the cursor becomes 'grabbing' and the menu is forced shut |
| `Music.Widget.CloseDragElement` | music.js:259-272 | detaches the handlers, restores the 'grab' cursor, and writes the snap as written (`SnapAsWritten`, fixed 70px margin) to left/top; nothing else changes |
| `Music.Widget.CloseDragElementOnScreen` | music.js:259-272 | the same release, writing the corrected snap `SnapToViewport` to left/top instead; nothing else changes |
| `Music.Widget.PointerMove` | music.js:223-226 | document moves reach `elementDrag` only while the handlers are attached: the container follows the pointer, and past 5px the drag flag, the 'grabbing' cursor and the shut menu; without handlers nothing changes |
| `Music.Widget.PointerRelease` | music.js:223-226 | document releases reach `closeDragElement` only while the handlers are attached: handlers detached, 'grab' cursor, the as-written snap; without handlers nothing changes |
| `Music.Widget.SettleAutoplay` | music.js:284-309 | a successful autoplay leaves the audio playing, shows the pause icon and a running disc and highlights row 0; a rejected one arms the click and touch listeners; nothing else changes |
| `Music.Widget.InteractionStart` | music.js:297-304 | plays, shows the pause icon and a running disc, highlights row 0, and removes both listeners, so it runs once |
| `Music.Widget.DocumentClick` | music.js:306 | a document click runs `interactionStart` only while it is registered |
| `Music.Widget.DocumentTouchStart` | music.js:307 | a document touch start runs `interactionStart` only while it is registered |
| `Music.PressMoveRelease` | music.js:232-279 | for a press, any moves, a release and the click that follows: it was a drag iff some move went more than 5px from the press point; the menu ends open iff there was no drag and it started shut |
| `Music.AutoplayFallback` | music.js:284-309 | a blocked autoplay is unlocked by the first click or touch alone; the audio then plays iff that `play()` succeeds; the listeners stay armed only while no interaction has happened |
| `BunQuay.WithAmount` | App.tsx:65-66 | the slider change sets its own ingredient and keeps the other three |
| `BunQuay.WithOwnAmount` | App.tsx:66 | setting an ingredient to its current value leaves the sauce unchanged |
| `BunQuay.Verdict` | App.tsx:79-81 | "Chuẩn vị Phú Quốc!" iff the sauce passes all seven strict bounds, "Cần điều chỉnh thêm một chút!" otherwise |
| `BunQuay.InitialSauceNeedsAdjusting` | App.tsx:57-62 | the starting sauce (25, 30, 15, 40) fails the check |
| `BunQuay.PerfectBox` | App.tsx:79 | the perfect sauces are exactly chili 61..100, sugar 26..54, salt 11..39, calamansi 31..64 |
| `BunQuay.Max` | App.tsx:74 | `Math.max` returns one of its arguments, and the larger one |
| `BunQuay.SauceColor` | App.tsx:70-75 | red is 255, green lies in [80, 240] and blue in [60, 220]; green and blue reach their floors exactly when 1.5·chili + 0.3·sugar ≥ 160, resp. 1.8·chili + 0.5·sugar ≥ 160 |
| `BunQuay.ColorDarkensWithChiliAndSugar` | App.tsx:70-75 | more chili or sugar never raises green or blue |
| `BunQuay.ColorIgnoresSaltAndCalamansi` | App.tsx:70-75 | salt and calamansi do not change the colour |
| `BunQuay.Mixer.constructor` | App.tsx:57-63 | initial sauce, no message |
| `BunQuay.Mixer.HandleSauceChange` | App.tsx:65-68 | one ingredient changes and the message is cleared |
| `BunQuay.Mixer.HandleCheckRecipe` | App.tsx:77-84 | shows the verdict for the current sauce and schedules one 3-second clear |
| `BunQuay.Mixer.MessageTimerFires` | App.tsx:83 | a pending timer clears whatever message is shown |
| `BunKen.JsRem` | App.tsx:252-253 | JavaScript `%`: equal to the Euclidean remainder for non-negative dividends, sign of the dividend, magnitude below the divisor |
| `BunKen.NextSlide` | App.tsx:252 | stays in range, advances by one, and wraps from the last slide to 0 |
| `BunKen.PrevSlide` | App.tsx:253 | stays in range, goes back by one, and wraps from 0 to the last slide |
| `BunKen.PrevUndoesNext` | App.tsx:252-253 | "previous" undoes "next" on every slide |
| `BunKen.NextUndoesPrev` | App.tsx:252-253 | "next" undoes "previous" on every slide |
| `BunKen.NextTimesAdvances` | App.tsx:252 | k presses of "next" advance by k modulo the slide count |
| `BunKen.ModSucc` | App.tsx:252 | taking the remainder before adding one gives the same slide |
| `BunKen.NextFullCycle` | App.tsx:250-252 | one "next" per slide comes back to the starting slide |
| `BunKen.CarouselWraps` | App.tsx:250-253 | from the first of the two slides, "previous" shows the last one and two presses of "next" come back |
| `BunKen.ExactlyOneSlideVisible` | App.tsx:270-273 | exactly the current slide is drawn opaque |
| `GaRay.Toggle` | App.tsx:355 | a click on the open item closes it, a click on any other item opens that one, and no other item is open afterwards |
| `GaRay.AtMostOneOpen` | App.tsx:354 | two open items are the same item |
| `GaRay.InitiallyFirstOpen` | App.tsx:301 | initially exactly item 0 is open |
| `GaRay.FirstClickFromInitial` | App.tsx:297-301 | from the initial state, a click on item 0 closes it and a click on the other item opens that one alone |
| `GaRay.ToggleTwice` | App.tsx:355 | clicking the same item twice restores the state it opened or closed |
| `GaRay.LastClickDecides` | App.tsx:355 | after any clicks the open item, if any, is the last one clicked |
| `GaRay.RepeatedClicks` | App.tsx:355 | k clicks on a closed item leave it open iff k is odd |
| `Modals.ClickEffect` | App.tsx:171-183 | the open button opens, the close button and the backdrop close, a click inside the dialog box changes nothing |
| `Modals.StopHidesOuterHandlers` | App.tsx:180 | handlers beyond a `stopPropagation` never run |
| `Modals.LastSetterWins` | App.tsx:176-183 | without `stopPropagation` the outermost setter decides the flag |
| `Modals.DialogClicksKeepOpen` | App.tsx:379-382 | clicks inside the dialog box keep an open modal open |
| `Modals.LastDecisiveClick` | App.tsx:405-425 | after any clicks, the modal is open iff the last click outside the dialog box hit the open button (the reference scan `LastDecision`) |
| `Modals.LastDecisionOfTail` | App.tsx:369-399 | scanning from the end agrees with applying the first click and scanning the rest |
| `RegionMenu.FilterRegion` | components/Menu.tsx:16 | the result holds only dishes of the region, and every dish of the region appears in it |
| `RegionMenu.FilteredDishes` | components/Menu.tsx:12-17 | 'All' shows the whole list, a region shows that region's filter |
| `RegionMenu.FilterKeepsOrder` | components/Menu.tsx:16 | filtering preserves list order: the filter of a concatenation is the concatenation of the filters |
| `RegionMenu.FilterCounts` | components/Menu.tsx:16 | each dish of the region appears as often as in the list, and other dishes never appear |
| `RegionMenu.FilterAllMatching` | components/Menu.tsx:16 | a list of one region filters to itself |
| `RegionMenu.FilterIdempotent` | components/Menu.tsx:16 | filtering twice equals filtering once |
| `RegionMenu.RegionsPartition` | types.ts:11 | the three regional views together hold every dish exactly once |
| `RegionMenu.ClickButton` | components/Menu.tsx:23 | after a click the clicked button is active |
| `RegionMenu.ExactlyClickedButtonActive` | components/Menu.tsx:19-25 | after a click on a bar button, exactly that button of the four renders active |
| `RegionMenu.InitialView` | components/Menu.tsx:10 | on first render 'All' is active and every dish is shown |
| `I18n.InitialLang` | i18n.js:63 | a missing or empty stored value gives 'vi', any other stored value is used as is |
| `I18n.ToggleLang` | i18n.js:87 | 'vi' becomes 'en' and anything else becomes 'vi' |
| `I18n.ToggleTwice` | i18n.js:87 | two clicks restore 'vi' or 'en' |
| `I18n.Lookup` | i18n.js:68 | a translation exists iff the language has a table, the key is in it, and its text is non-empty |
| `I18n.SameKeys` | i18n.js:3-58 | the Vietnamese and English tables translate the same keys |
| `I18n.EveryKeyTranslated` | i18n.js:3-58 | every key of the tables has a translation in both languages |
| `I18n.LocalizeContent` | i18n.js:66-71 | an element's inner HTML becomes its key's translation when there is one; otherwise the element is untouched |
| `I18n.LocalizePlaceholder` | i18n.js:74-79 | an element's placeholder becomes its key's translation when there is one; otherwise the element is untouched |
| `I18n.LocalizeAll` | i18n.js:65-82 | the page update acts element by element |
| `I18n.UnknownLanguageChangesNothing` | i18n.js:68 | a stored language other than 'vi' or 'en' leaves the page untouched |
| `I18n.LatestLanguageWins` | i18n.js:84-91 | after two switches the page is the page localized to the latest language |
| `I18n.Switcher.constructor` | i18n.js:61-94 | page load reads the stored language and localizes the page once |
| `I18n.Switcher.UpdateContent` | i18n.js:65-82 | the two loops leave each element localized to the current language |
| `I18n.Switcher.Click` | i18n.js:84-91 | a button click flips the language, stores it, and localizes the page |

## Left out

- Floating point: the sauce colour is computed on exact rationals, not IEEE doubles; the rounding inside `rgb(...)` text is not modelled.
- The widget's promise interleaving: a `play()` outcome is applied at once instead of at a later microtask, so a click between a `play()` call and its settling is not modelled.
- Layout: `offsetLeft/Top`, `getBoundingClientRect()` and the viewport size are parameters; the model does not derive them from CSS.
- Timers: the 600ms and 3s timers are pending counters with a "fires" method; their order relative to other events is left to the caller.
- The duplicate-injection guard (music.js line 4) and the DOM construction of the widget are not modelled; the model starts from one built widget.
- An `audio.play()` that returns `undefined` (very old browsers) is not modelled; the promise-returning case is.
- The menu's `opacity` and the CSS transitions and keyframes are not modelled; only the width that decides open or shut is.
- `preventDefault` on mouse down and on the language buttons has no state effect and is not modelled.
- Music.Widget.SetVolume: the slider's value is taken as tenths 0..10 (its step), not as an arbitrary string coerced to a number.
- Music.Widget.ChangeTrack: requires the index to be a row, because the playlist rows are its only callers.
- Event dispatch between widget handlers: a click on the disc or a row also reaches the document's unlock listener; the model keeps each listener as its own method and leaves their order to the caller.
- Pointer coordinates are integers; fractional CSS pixels are not modelled.
- Lookups through the JavaScript prototype chain (a `data-i18n` key such as `constructor`) are not modelled; a lookup sees only the table's own keys.
- Local storage and the `document` queries of the language switch are the `stored` field and the `page` array.
- Dish data (`data/dishes`), the steam effect, the map, and the purely presentational components are not part of this model.
- The modal flags share one model (`Modals`), because both sections have the same handler layout; the open buttons are outside the dialog element.

## Findings

| source | as written | input that shows it | evidently intended | confidence | as-written member | corrected member |
|---|---|---|---|---|---|---|
| music.js:259-272 | on release, a box past the right or bottom edge is moved to innerWidth-70 / innerHeight-70, but the container is as tall as the 160px menu (music.js:42), so it stays 90px below the viewport | container 70x160 released at top 700 in a 1024x800 viewport ends with its bottom at 890 | the box is pulled back by its own size when it is larger than 70px, so it ends on screen ("keeps it on screen") | medium, not executed | `Music.SnapAsWrittenCounterexample` | `Music.SnapToViewport` |

The widget itself releases with the snap as written (`Music.Widget.CloseDragElement`); `Music.Widget.CloseDragElementOnScreen` is the same handler with the corrected snap.
