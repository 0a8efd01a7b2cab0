# Naughty Berry site: the logic behind the page, modelled in Dafny

The site is a single-page marketing site. Almost all of it is markup and static content. This project models the four pieces that hold logic, and proves what they promise.

- **Wave divider** (`wave_divider.dfy`, with `svg_path.dfy` and `decimal.dfy`). The animated strip at the bottom of a section. It covers:
  - the closed set of six variants;
  - the table of back and front SVG paths per variant, held as tokenised commands;
  - the table of loop durations;
  - `Render`, which maps the props and the reduced-motion preference to the descriptors handed to the animation library: keyframes, transitions, view boxes, opacity, mirror transform and container attributes.

  `SvgPath.Serialise` writes a path in the source's text layout. `SvgPath.Parse` tokenises that text back, and the round trip is proved.
- **Loading splash** (`loading_screen.dfy`). This is a transition system over abstract events: an animation frame at time `now`, the 180 ms ready timeout, the phase effect's timeout, a new `onComplete` callback, and unmount. Time is integer milliseconds. `src/App.tsx` does not import or mount `LoadingScreen`, so the splash is modelled as a component the page does not currently show.
  - `Step` is the pure transition function, and `Run` folds it over a sequence of events.
  - The class `LoadingScreen` holds the same state in fields. It has one method per event, each proved equal to `Step`.
- **Menu tabs** (`menu_preview.dfy`):
  - the category table;
  - the `activeCategory` state, as the class `MenuPreview`;
  - the `find(...)!` lookup, which is proved never to fail;
  - the tab list, where exactly one tab is selected;
  - the tab panel id;
  - the numbered item cards.

  A category's `label` is the field `title` in the model, because `label` is a reserved word in Dafny.
- **Seed placement** (`strawberry_seeds.dfy`). The `while` loop that splits a seed index into a row and a slot, using the row sizes `[4,5,6,6,5,4]`.

Behaviour of the source that the model keeps on purpose:

- **Reduced motion.** When reduced motion is on, both layers get an empty animate target, so no keyframes exist at all. The front layer therefore rests at offset 0. It does not rest at its keyframe start of -25%.
- **Progress rounding.** Progress uses `Math.round`, which rounds halves up. For integer milliseconds `e`, the model computes `min(100, (e + 13) / 26)` with floor division. A frame 14 ms or more before the start gives negative progress (a frame 1 to 13 ms early still gives 0); the bounds lemmas assume frames at or after the start.
- **No cleanup for the frame loop.** The effect that drives the frame loop has no cleanup. After unmount, frames and the ready timeout still run, but their state updates are dropped.
- **Phase effect dependencies.** The phase effect depends on both `phase` and `onComplete`. A new callback identity re-runs it: the pending timeout restarts, and in `done` the new callback is called again. `Loading.RunCompletesOnce` proves that `onComplete` runs at most once when the callback stays the same.
- **Seed loop bound.** When the seed loop runs past the last row, it reads `undefined`, and comparing with `undefined` is false. The loop therefore stops with `r = 6` for indices of 30 and above. The page uses only indices 0 to 25.

## Model

| member | source | states |
|---|---|---|
| WaveDivider.WavePaths | src/components/WaveDivider.tsx:21-52 | the path table, tokenised: each variant's back and front path; both open with a moveto on the left edge and end with closepath (the rest of the outline is WavePathsShaped, the text is WavePathTexts) |
| WaveDivider.WavePathsShaped | src/components/WaveDivider.tsx:21-52 | every variant of the closed type has a back and a front path; each path starts on the left edge (`M0,`), lists only x-coordinates in [0, 2880], lists the point (2880,60) and ends with closepath |
| WaveDivider.HeroShaped | src/components/WaveDivider.tsx:23-26 | both hero paths have that outline |
| WaveDivider.MenuShaped | src/components/WaveDivider.tsx:28-31 | both menu paths have that outline |
| WaveDivider.EventsShaped | src/components/WaveDivider.tsx:33-36 | both events paths have that outline |
| WaveDivider.FindUsShaped | src/components/WaveDivider.tsx:38-41 | both findus paths have that outline |
| WaveDivider.GalleryShaped | src/components/WaveDivider.tsx:43-46 | both gallery paths have that outline |
| WaveDivider.AboutShaped | src/components/WaveDivider.tsx:48-51 | both about paths have that outline |
| WaveDivider.WavePathTexts | src/components/WaveDivider.tsx:24-50 | the path text of every layer of every variant starts with `M0,`, ends with `Z` and tokenises back to the same path |
| SvgPath.Serialise | src/components/WaveDivider.tsx:24-50 | writes a path in the layout of the source's path strings: command letter, points as `x,y`, single spaces; the text is empty only for the empty path and opens with the first command's letter; ParseSerialise and SerialiseInjective are its partners |
| SvgPath.Parse | src/components/WaveDivider.tsx:24-50 | reads such text back; a result is a non-empty path whose first command has the text's first letter; it inverts Serialise (ParseSerialise) |
| Decimal.NatToString | src/components/MenuPreview.tsx:219 | how JavaScript prints a natural number below 2^53 in a template literal: a non-empty run of decimal digits, one digit exactly below 10, no leading zero except for 0 itself; DigitsValueOfNatToString reads the number back, NatToStringInjective makes different numbers print differently |
| SvgPath.ParseSerialise | src/components/WaveDivider.tsx:24-50 | tokenising the text of any non-empty path in the layout the wave paths use gives the path back |
| SvgPath.SerialiseInjective | src/components/WaveDivider.tsx:24-50 | two different paths never have the same text |
| SvgPath.SerialiseStartsWithM0 | src/components/WaveDivider.tsx:24-50 | a path starting with a moveto on x = 0 has text starting with `M0,` |
| SvgPath.SerialiseEndsWithZ | src/components/WaveDivider.tsx:24-50 | a path ending with closepath has text ending with `Z` |
| WaveDivider.Speed | src/components/WaveDivider.tsx:55-62 | every variant has a duration pair, both positive, and the front duration is strictly less than the back duration |
| WaveDivider.Render | src/components/WaveDivider.tsx:64-121 | the container is aria-hidden, pointer-events-none and overflow-hidden; height defaults to 60 and sizes the strip and both view boxes `0 0 2880 height`; flipX true gives `scaleX(-1)` and otherwise there is no transform; the layers are the variant's paths in the caller's fill at 200% width; the back opacity is 0.45 and the front has none; reduced motion holds exactly when neither layer has keyframes; otherwise the back runs from 0% and the front from -25%, each travelling 1440 units (half the artwork); both transitions loop forever, linearly, with the variant's back and front durations, the front being faster |
| WaveDivider.SectionDividers | src/components/MenuPreview.tsx:414 | the menu (56 px, 14 s and 8 s), events (64 px, 10 s and 6 s) and findus (60 px, 16 s and 9 s) dividers the sections mount |
| Loading.Progress | src/components/LoadingScreen.tsx:44-48 | progress is at most 100 and non-negative for non-negative elapsed time; below 100 it is the percentage `elapsed * 100 / FillDuration` (FillDuration = 2600) to within half a percent, rounding halves up; it reaches 100 exactly from 199/200 of FillDuration, that is 2587 ms, on |
| Loading.ProgressMonotone | src/components/LoadingScreen.tsx:46-49 | a later frame time never gives less progress |
| Loading.Next | src/components/LoadingScreen.tsx:39 | each phase except done has exactly one successor, one rank higher |
| Loading.Mount | src/components/LoadingScreen.tsx:37-57 | the state after mounting and both effects: it satisfies the invariant, the loop has requested its first frame, and the splash shows an empty bar with no label, blast or fade |
| Loading.PhaseEffect | src/components/LoadingScreen.tsx:60-73 | the phase effect changes only the pending timeout and the completion count: in ready and exit it schedules the timeout to the successor phase, in done it calls onComplete once more, in loading it does nothing |
| Loading.SetPhase | src/components/LoadingScreen.tsx:39 | setPhase on an unmounted component or with the current value changes nothing; otherwise the phase becomes the new value, a timeout is pending exactly when the new phase is ready or exit and then targets the new phase's successor, and onComplete is called exactly when the new phase is done; progress, the frame loop and the ready timeout are never touched |
| Loading.Tick | src/components/LoadingScreen.tsx:46-55 | a new frame is requested only while progress is below 100; at 100 the frame loop stops and the 180 ms timeout to ready is scheduled instead; progress is stored only while mounted; a frame changes nothing but the progress and the frame and ready-timeout scheduling |
| Loading.Step | src/components/LoadingScreen.tsx:42-73 | one event: a frame runs tick, the ready timeout and the phase timeout call setPhase with their target, a new callback re-runs the phase effect, unmount clears the phase timeout; an event never changes the start time, never remounts, never takes back an onComplete call; StepValid, StepAdvancesPhase and StepCompletesOnce are its partners |
| Loading.Run | src/components/LoadingScreen.tsx:42-73 | the state after a sequence of events; along any run the start time is kept, unmounting is for good and the completion count never decreases; RunValid, RunPhaseMonotone, RunCompletesOnce and RunProgressMonotone are its partners |
| Loading.StepValid | src/components/LoadingScreen.tsx:37-75 | every event preserves the invariant: the frame loop and the ready timeout belong to the loading phase; a pending phase timeout exists exactly in ready and exit while mounted and targets the successor phase, so it is cleared on a phase change and on unmount; the bar is full outside loading; onComplete has been called only in done. Progress stays non-negative for timely frames |
| Loading.StepAdvancesPhase | src/components/LoadingScreen.tsx:50-69 | an event either keeps the phase or moves it to its successor |
| Loading.StepCompletesOnce | src/components/LoadingScreen.tsx:70-72 | without a new callback, onComplete is called only on entering done from exit, and at most once |
| Loading.RunValid | src/components/LoadingScreen.tsx:37-75 | the invariant holds after any sequence of events |
| Loading.RunPhaseMonotone | src/components/LoadingScreen.tsx:39-69 | along any run the phase never goes backwards |
| Loading.RunCompletesOnce | src/components/LoadingScreen.tsx:60-73 | along any run without a new callback, onComplete is called at most once |
| Loading.RunProgressMonotone | src/components/LoadingScreen.tsx:46-55 | with frames in time order, progress never decreases and stays at most 100 |
| Loading.ProgressFromMount | src/components/LoadingScreen.tsx:42-57 | from mounting, with frames in time order, progress stays within [0, 100] |
| Loading.FullSequence | src/components/LoadingScreen.tsx:42-75 | a frame at 2587 ms or later followed by the three timeouts reaches done with a full bar, onComplete called once and nothing rendered |
| Loading.View | src/components/LoadingScreen.tsx:75-205 | nothing is rendered in done; the bar shows the progress; the "Let's go" label is shown only in ready; the blast berries and the fade-out happen only in exit |
| Loading.HiddenIffCompleted | src/components/LoadingScreen.tsx:70-75 | while mounted, the splash renders nothing exactly when onComplete has been called |
| Loading.LoadingScreen.constructor | src/components/LoadingScreen.tsx:37-57 | mounting sets progress 0 and phase loading and requests one frame |
| Loading.LoadingScreen.RunPhaseEffect | src/components/LoadingScreen.tsx:60-73 | ready schedules exit after 700 ms, exit schedules done after 820 ms, done calls onComplete |
| Loading.LoadingScreen.ApplyPhase | src/components/LoadingScreen.tsx:39 | setPhase with a new value clears the pending timeout and runs the phase effect; the same value changes nothing |
| Loading.LoadingScreen.OnFrame | src/components/LoadingScreen.tsx:46-55 | the fields after a frame are Step's result for that frame |
| Loading.LoadingScreen.OnReadyTimeout | src/components/LoadingScreen.tsx:53 | the fields after the ready timeout are Step's result |
| Loading.LoadingScreen.OnPhaseTimeout | src/components/LoadingScreen.tsx:62-67 | the fields after the phase timeout are Step's result |
| Loading.LoadingScreen.OnCallbackChanged | src/components/LoadingScreen.tsx:60-73 | the fields after a new onComplete are Step's result |
| Loading.LoadingScreen.OnUnmount | src/components/LoadingScreen.tsx:62-68 | unmounting clears the pending phase timeout and leaves the frame loop running |
| Menu.MenuIdsDistinct | src/components/MenuPreview.tsx:6-135 | the category ids are pairwise distinct |
| Menu.MenuNamesDistinct | src/components/MenuPreview.tsx:12-133 | item names are distinct within every category |
| Menu.InitialCategoryListed | src/components/MenuPreview.tsx:250 | the initial active id `cups` is a listed id |
| Menu.Find | src/components/MenuPreview.tsx:251 | find returns a category exactly when the id is listed, and then the first category with that id |
| Menu.FindUnique | src/components/MenuPreview.tsx:251 | with distinct ids, find returns the one category with the id |
| Menu.PanelId | src/components/MenuPreview.tsx:325 | the panel id `tab-panel-<id>`: the prefix `tab-panel-` followed by the id itself, so different ids give different panel ids (PanelIdInjective) |
| Menu.PanelIdInjective | src/components/MenuPreview.tsx:325 | different ids give different panel ids |
| Menu.Tabs | src/components/MenuPreview.tsx:317-350 | one tab per category, in order; a tab is selected exactly when its id is the active one, and it controls `tab-panel-<id>` |
| Menu.ExactlyOneSelected | src/components/MenuPreview.tsx:319-325 | for a listed active id exactly one tab is selected, and its aria-controls is the active panel's id |
| Menu.Cards | src/components/MenuPreview.tsx:367-374 | the cards are the category's items in order; card i gets index i, the category colour as accent and the badge `0` followed by i + 1 |
| Menu.Badge | src/components/MenuPreview.tsx:219 | the card number `0{index + 1}`: a `0` followed by the decimal digits of index + 1, two characters exactly for the first nine cards |
| Menu.CardsDistinct | src/components/MenuPreview.tsx:367-373 | within a category, card keys (item names) and badges are pairwise distinct |
| Menu.MenuPreview.constructor | src/components/MenuPreview.tsx:250 | the active id starts as `cups`, a listed id |
| Menu.MenuPreview.SelectTab | src/components/MenuPreview.tsx:328 | clicking a tab makes its id active, which keeps the active id listed |
| Menu.MenuPreview.ActiveCategory | src/components/MenuPreview.tsx:251 | the `find(...)!` lookup never fails: it yields a listed category whose id is the active one |
| Menu.MenuPreview.TabList | src/components/MenuPreview.tsx:317-350 | in every reachable state exactly one tab is selected, and it controls the active panel |
| Menu.MenuPreview.ActivePanel | src/components/MenuPreview.tsx:355-375 | the panel id is `tab-panel-<activeCategory>`, its label is the category's label plus ` menu items`, and it lists the active category's cards with distinct keys |
| StrawberrySeeds.RowStart | src/components/StrawberryScene.tsx:111 | the index of the first seed of row r, the sum of the sizes of the rows above it; between 4r and 6r, since every row holds 4 to 6 seeds |
| StrawberrySeeds.RowStarts | src/components/StrawberryScene.tsx:111 | the rows start at seeds 0, 4, 9, 15, 21 and 26, and all six rows hold 30 seeds |
| StrawberrySeeds.RowStartMonotone | src/components/StrawberryScene.tsx:111 | later rows start at or after earlier ones |
| StrawberrySeeds.SeedSlot | src/components/StrawberryScene.tsx:112-113 | the loop ends with `i = perRow[0] + … + perRow[r-1] + idx`; below 30, `0 ≤ r < 6` and `idx < perRow[r]`; from 30 on, it stops past the last row |
| StrawberrySeeds.SlotUnique | src/components/StrawberryScene.tsx:112-113 | a seed index has exactly one (row, slot), so the loop's answer is determined |
| StrawberrySeeds.SlotsInjective | src/components/StrawberryScene.tsx:109-113 | no two seeds share a slot |
| StrawberrySeeds.RowsFillInOrder | src/components/StrawberryScene.tsx:109-113 | seeds 0-3 go to row 0, 4-8 to row 1, 9-14 to row 2, 15-20 to row 3 and 21-25 to row 4; row 5 stays empty |
| StrawberrySeeds.SeedSlots | src/components/StrawberryScene.tsx:109-113 | the 26 seeds get valid, pairwise distinct slots |

## Left out

- Seamless looping. The comment at src/components/WaveDivider.tsx:19-20 says each path repeats across x = 1440. The data does not bear this out for every variant:
  - the events back path has y = 60 at x = 0 but y = 55 at x = 1440;
  - the findus back path is built on a 1080-unit period;
  - the hero front path ends with an irregular segment.

  No periodicity is stated.
- Front-layer coverage. The front keyframes end at -75% of a 200%-wide layer, which uncovers the right half of the strip. The model records the offsets and claims nothing about coverage.
- Rendering geometry: SVG drawing, `preserveAspectRatio="none"`, and clipping when the height is not 60 (the paths are drawn to y = 60). The interpolation by the animation library is also left out. Only the descriptors handed over are modelled.
- `useReducedMotion` is the boolean parameter `reduced`. The hook can also return null, which the source's conditional treats as false.
- `fill` is an uninterpreted string. Invalid colours are the caller's concern.
- `height` is a natural number. Fractional or negative pixel heights are not modelled.
- An unrecognised variant cannot be expressed: `Variant` is a closed datatype, as the TypeScript union is.
- Real time. `performance.now`, `requestAnimationFrame` and `setTimeout` become events. A pending timeout carries its delay (180, 700 or 820 ms) and its target phase, but when it fires is up to the sequence of events.
- Loading.Progress: frame times are whole milliseconds, and the rounding is exact. Fractional timestamps and floating-point error at exact halves are not modelled.
- Decimal.NatToString: it prints every natural number as plain decimal digits. JavaScript numbers are doubles, so above 2^53 they are not exact, and from 10^21 on JavaScript prints them in exponent form (`1e+21`). The page prints only card numbers 1 to 4.
- Double effect runs in React's development mode are not modelled.
- Loading.View: it gives what the JSX conditions at src/components/LoadingScreen.tsx:75, 188 and 205 select, with the bar width of line 173: the settled render. The `AnimatePresence` wrapper at lines 187-199 keeps the "Let's go" label rendered for its 0.45 s fade after the phase leaves ready; that exit retention is not modelled.
- Menu.MenuPreview.ActivePanel: it gives the settled panel. The `AnimatePresence mode="wait"` at src/components/MenuPreview.tsx:354-364 keeps the old panel for its 0.22 s exit before the new one mounts, so for that moment the selected tab's `aria-controls` names a panel not yet in the page. Menu.ExactlyOneSelected likewise describes the settled state; exit retention is not modelled.
- The loading splash's video, floating berries, blast trajectories and easings are left out.
- The menu: category icons, the card hover state, the pointer-driven tilt (floating-point maths and springs) and the reveal animations are left out. Item descriptions and tags are kept as the source file spells them, including its mis-encoded characters.
- The 3D strawberry: everything except the seed index loop is left out. That includes geometry, the lathe profile, sine and cosine placement, random particles and per-frame mutation.
- Hero, Events, FindUs, Gallery, About, Testimonials, Footer, Navbar, FloatingCTA and App hold static content, markup, single-boolean toggles and scroll helpers, and are not part of this model. The third-party enquiry iframe is not part of it either.
