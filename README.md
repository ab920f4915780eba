# Portfolio site: verified model of its interactive logic

This project models the parts of the portfolio site that hold real state and
arithmetic. It leaves out the markup and the animations. There is one module per
source file.

- **ProjectCarousel** (`carousel.dfy`): the image carousel of a project card.
  - The slide index and the direction of the last move.
  - The hover pause that gates autoplay, and the autoplay tick itself.
  - The next, previous and dot-click moves.
  - The click that opens the full-size preview.
  - What the component renders for an empty list, one image, or several.
- **AnimatedBackground** (`particles.dfy`): the particle field behind the page.
  - The particle count, and the ranges of a new particle's position, size, speed and colour.
  - The per-axis wrap of `update`, and `init`, which replaces the array.
  - The update-then-draw loop of a frame.
  - The nested loop of `connectParticles`, with its distance threshold and line colours.
- **LanguageContext** (`language.dfy`): the two languages.
  - The translation lookup `t`, which falls back to the key.
  - The key sets of the two tables.
  - The mount-time restore of the stored preference, and `setLanguage`.
  - The `useLanguage` guard.
- **StatCounter** (`stat_counter.dfy`): the animated figure.
  - The in-view latch.
  - The counting loop: one firing per tick, the shown value, and when the loop stops.
- **Page** (`page.dfy`): the home page's own state and data.
  - The single expanded project card.
  - The contact form fields and their reset on submit.
  - The image preview.
  - The production image prefix.
  - The four project cards.
- **Navbar** (`navbar.dfy`): the navigation bar.
  - The scroll threshold, the mobile menu and the theme toggle.
  - The table of section links and the language menu.
- **Wrappers** (`wrappers.dfy`): `Option` and `Result`.

The source's state and storage are modelled as follows:

- React state that the handlers overwrite is a Dafny `class` with one field per
  `useState`. Each handler is a method with a `modifies` clause naming exactly
  the fields it sets.
- Pure expressions are functions, and the properties relating them are lemmas.
- `Math.random()` is replaced by parameters in [0, 1).
- The browser's `localStorage` is a `map<string, string>` field of the language provider.
- The theme library's current theme is a field of the navigation bar.
- Canvas calls are replaced by the circles and lines a frame returns.
- Each timer or animation-frame firing is one method call.

Behaviours of the code worth knowing:

- **Wrap bound:** the wrap keeps a coordinate in the closed range [0, width], not [0, width).
  A particle that steps below 0 is placed exactly at `width`
  (components/animated-background.tsx:61-64). `WrapReachesFarEdge` proves that a coordinate
  leaving past one edge comes back at the opposite one, so the wrap is not a clamp.
- **Self-pairs:** the pair loop starts at `b = a`, so every particle is paired with itself.
  The distance is 0 < 150, so a zero-length line is drawn for each particle
  (`SelfPairsDrawn`). They are not skipped.
- **Initial direction:** the carousel's direction starts at 0 (neither forward nor backward).
  Later moves set it to 1 or -1.
- **Dot click:** a dot click does not check its index. Dots are only rendered for the
  indices of the image list (components/project-carousel.tsx:135-138), so the model
  requires the index to be in range.
- **Inherited names:** `t` looks keys up on plain JavaScript objects. A key such as
  "toString" that the tables lack resolves to the member every object inherits, not to
  the key itself (`Lookup`, `UnknownKeyVerbatim`).
- **Toggling twice:** toggling the same project card twice does not always restore the previous
  state. If another card `j` was expanded, the first toggle expands `i` and the second collapses
  it, leaving no card expanded. `ToggleTwice` proves the exact condition: the state comes back
  exactly when no card, or card `i` itself, was expanded.
- **Theme toggle:** the theme toggle restores the theme after two presses only for "dark" and
  "light". From "system", or before the library has resolved a theme, two presses give
  "light" (`ThemeToggleTwice`).

## Model

| member | source | states |
|---|---|---|
| ProjectCarousel.NextIndex | components/project-carousel.tsx:58-61 | the next index stays in [0, n): the last slide goes to 0, any other to the one after it |
| ProjectCarousel.PrevIndex | components/project-carousel.tsx:63-66 | the previous index stays in [0, n): slide 0 goes to the last one, any other to the one before it |
| ProjectCarousel.DotDirection | components/project-carousel.tsx:68-71 | the recorded direction is 1 exactly when the target lies strictly after the current slide, otherwise -1 (the current slide included) |
| ProjectCarousel.PrevUndoesNext | components/project-carousel.tsx:58-66 | previous after next returns to the original index |
| ProjectCarousel.NextUndoesPrev | components/project-carousel.tsx:58-66 | next after previous returns to the original index |
| ProjectCarousel.NextN | components/project-carousel.tsx:60 | any number of next moves keeps the index in range |
| ProjectCarousel.NextNNoWrap | components/project-carousel.tsx:60 | k next moves that do not pass the last slide add k to the index |
| ProjectCarousel.NextNCompose | components/project-carousel.tsx:60 | a + b next moves are a moves followed by b moves |
| ProjectCarousel.FullCycleReturns | components/project-carousel.tsx:58-61 | n next moves (or autoplay ticks) over n slides return to the starting slide |
| ProjectCarousel.Carousel.constructor | components/project-carousel.tsx:15-20 | index 0, direction 0, not paused, preview closed with nothing selected, autoplay on and 5000 ms by default |
| ProjectCarousel.Carousel.Next | components/project-carousel.tsx:58-61 | direction becomes 1 and the index becomes the next index; the index stays in range |
| ProjectCarousel.Carousel.Previous | components/project-carousel.tsx:63-66 | direction becomes -1 and the index becomes the previous index; the index stays in range |
| ProjectCarousel.Carousel.DotClick | components/project-carousel.tsx:68-71 | the index becomes exactly the clicked one and the direction is 1 iff the click was ahead of the old index |
| ProjectCarousel.Carousel.AutoplayTick | components/project-carousel.tsx:47-56 | while autoplay is on, the carousel not paused and there are at least two slides, a tick acts as next; otherwise it changes nothing |
| ProjectCarousel.Carousel.MouseEnter | components/project-carousel.tsx:89 | pointer entry pauses the carousel and changes nothing else |
| ProjectCarousel.Carousel.MouseLeave | components/project-carousel.tsx:90 | pointer exit resumes the carousel and changes nothing else |
| ProjectCarousel.Carousel.ImageClick | components/project-carousel.tsx:73-76 | a click on the slide selects the image on show and opens the preview |
| ProjectCarousel.Carousel.CloseModal | components/project-carousel.tsx:147 | closing the preview clears the open flag only |
| ProjectCarousel.Carousel.Render | components/project-carousel.tsx:78-108 | a placeholder exactly for an empty list; otherwise the current image, entering from the right iff the direction is positive, with arrows and dots iff there are two or more images |
| LanguageContext.Parse | contexts/language-context.tsx:231-236 | a stored string names English iff it is exactly "en" and French iff it is exactly "fr" |
| LanguageContext.ParseInvertsCode | contexts/language-context.tsx:231-240 | the code `setLanguage` stores reads back as the same language, and only that code reads back as it |
| LanguageContext.Lookup | contexts/language-context.tsx:243-245 | `t` gives the table's own text when it is non-empty; an own empty entry gives the key; a missing entry gives the inherited member of that name if every object has one, and the key otherwise |
| LanguageContext.SameKeySets | contexts/language-context.tsx:14-223 | the English and French tables define the same set of keys |
| LanguageContext.FallbackIffUnknown | contexts/language-context.tsx:14-245 | with the source's tables, a table has no text of its own for a key exactly when it is not a table key, in either language alike |
| LanguageContext.UnknownKeyVerbatim | contexts/language-context.tsx:244 | a key missing from the tables comes back unchanged, whatever the language, unless it names an inherited member, which comes back instead |
| LanguageContext.KnownKeyTranslated | contexts/language-context.tsx:243-245 | a table key always gives its own non-empty text, in either language |
| LanguageContext.Restore | contexts/language-context.tsx:231-236 | the stored value is adopted only when it is exactly "en" or "fr"; anything else, or nothing, keeps the current language |
| LanguageContext.PreferenceSurvivesReload | contexts/language-context.tsx:231-241 | a language saved by `setLanguage` is the one the next mount restores |
| LanguageContext.LanguageProvider.constructor | contexts/language-context.tsx:229 | a fresh provider speaks English and leaves the storage untouched |
| LanguageContext.LanguageProvider.Mount | contexts/language-context.tsx:231-236 | the mount effect sets the language to the restored preference |
| LanguageContext.LanguageProvider.SetLanguage | contexts/language-context.tsx:238-241 | both the language and the stored "language" entry take the new language; no other entry changes |
| LanguageContext.UseLanguage | contexts/language-context.tsx:250-255 | the hook fails, with the source's message, exactly when there is no provider, and otherwise returns it |
| StatCounter.ShownValue | components/stat-counter.tsx:58-60 | after k firings the count is k while k is below the target, and the target's floor from then on |
| StatCounter.ShownBounds | components/stat-counter.tsx:58-60 | the count lies between 0 and the target |
| StatCounter.ShownMonotone | components/stat-counter.tsx:58-61 | the count never decreases from one firing to the next |
| StatCounter.WholeTarget | components/stat-counter.tsx:58-61 | for a whole target n the count after k firings is min(k, n) |
| StatCounter.FractionalTarget | components/stat-counter.tsx:58-61 | for the target 4.8 the loop fires 5 times and ends showing 4 |
| StatCounter.Counter.constructor | components/stat-counter.tsx:26-28 | the count starts at 0, out of view and with the timer disarmed |
| StatCounter.Counter.Observe | components/stat-counter.tsx:31-38 | the in-view flag only goes from false to true |
| StatCounter.Counter.Tick | components/stat-counter.tsx:57-62 | a firing adds one to `start`, shows floor(min(start/end, 1) * end) and disarms once start >= end |
| StatCounter.Counter.Run | components/stat-counter.tsx:51-67 | nothing happens before the element is in view; afterwards the loop fires exactly ceil(end) times, shows the i-th firing's value in turn, stops with `start` at ceil(end), and leaves floor(end) shown |
| AnimatedBackground.ParticleCount | components/animated-background.tsx:29 | the count is min(100, floor(w * h / 9000)): at most 100, at most one per 9000 square pixels, and as many as that allows |
| AnimatedBackground.Wrap | components/animated-background.tsx:61-64 | a wrapped coordinate lies in the closed range [0, bound]; one already in range is unchanged, one past the bound restarts at 0 and one below 0 restarts at the bound |
| AnimatedBackground.WrapReachesFarEdge | components/animated-background.tsx:61-64 | on a non-empty axis a coordinate leaving past one edge comes back at the opposite edge, never at the one it crossed |
| AnimatedBackground.IsDark | components/animated-background.tsx:47-48 | the dark palette always for "dark", for "system" exactly when the browser prefers dark, and never for any other theme or none |
| AnimatedBackground.SpawnPalette | components/animated-background.tsx:47-54 | a new particle's hue band follows the theme: [260, 290) on "dark", [280, 310) on "light", and the browser's preference under "system" |
| AnimatedBackground.ParticleColor | components/animated-background.tsx:47-54 | hue in [260, 290) and alpha in [0.1, 0.4) on the dark palette; hue in [280, 310) and alpha in [0.05, 0.25) on the light one; fixed saturation and lightness per palette |
| AnimatedBackground.Spawn | components/animated-background.tsx:39-55 | a new particle lies on the canvas, has size in [1, 6) and each speed in [-0.5, 0.5) |
| AnimatedBackground.Step | components/animated-background.tsx:57-65 | a move adds the speed and wraps each axis; the result is on the canvas whatever the start, and size, speed and colour are unchanged |
| AnimatedBackground.StepAxesIndependent | components/animated-background.tsx:57-65 | the new x depends only on the old x and the x speed |
| AnimatedBackground.Particle.constructor | components/animated-background.tsx:39-55 | a constructed particle is the spawned one |
| AnimatedBackground.Particle.Update | components/animated-background.tsx:57-65 | `update` performs one step, leaving the particle on the current canvas |
| AnimatedBackground.Dist2 | components/animated-background.tsx:86-88 | the squared distance is never negative |
| AnimatedBackground.ThresholdBySquare | components/animated-background.tsx:88-90 | for a distance d >= 0, d < 150 exactly when d * d < 22500, so the squared-distance test draws the same lines |
| AnimatedBackground.BaseOpacity | components/animated-background.tsx:91 | the base opacity lies in (0, 1] and is 1 exactly at distance 0 |
| AnimatedBackground.LineColor | components/animated-background.tsx:93-98 | a line has one fixed colour per palette and the base opacity times 0.2 (dark) or 0.1 (light) |
| AnimatedBackground.RowPairs | components/animated-background.tsx:85 | one row of the inner loop is (a, a), (a, a + 1), ... in that order |
| AnimatedBackground.RowPairsExtend | components/animated-background.tsx:85 | one more inner iteration appends exactly the pair it visits |
| AnimatedBackground.RowPairsHas | components/animated-background.tsx:85 | a row holds exactly the pairs (a, b) with a <= b below the cut |
| AnimatedBackground.PairsBeforeHas | components/animated-background.tsx:84-85 | the first a rows hold exactly the pairs whose first index is below a and whose second is at least the first |
| AnimatedBackground.PairsAreUpperTriangle | components/animated-background.tsx:84-85 | the loop visits exactly the pairs a <= b < n, self-pairs included |
| AnimatedBackground.RowPairsInVisitOrder | components/animated-background.tsx:85 | a row is strictly increasing in the second index and constant in the first |
| AnimatedBackground.PairsBeforeRowsBelow | components/animated-background.tsx:84 | every pair of the first a rows starts below a |
| AnimatedBackground.PairsBeforeOrdered | components/animated-background.tsx:84-85 | the pairs are visited in strictly increasing lexicographic order |
| AnimatedBackground.PairsVisitedOnce | components/animated-background.tsx:84-85 | no pair is visited twice |
| AnimatedBackground.RowStrokesHas | components/animated-background.tsx:85-90 | a row draws a line for (a, b) exactly when b is in the row and the two particles are closer than 150, recording their squared distance |
| AnimatedBackground.StrokesBeforeHas | components/animated-background.tsx:84-90 | the first a rows draw exactly the close pairs whose first index is below a |
| AnimatedBackground.ConnectionsExactly | components/animated-background.tsx:82-109 | a frame draws a line between a and b exactly when a <= b and they are closer than 150 |
| AnimatedBackground.RowStrokesInRow | components/animated-background.tsx:85 | every line of a row starts at the row's particle |
| AnimatedBackground.StrokesBeforeRowsBelow | components/animated-background.tsx:84 | every line of the first a rows starts below a |
| AnimatedBackground.PairAfterRow | components/animated-background.tsx:85 | the line of a pair comes after the lines drawn earlier in its row |
| AnimatedBackground.RowAfterEarlierRows | components/animated-background.tsx:84 | the lines of a row come after the lines of all earlier rows |
| AnimatedBackground.RowStrokesOrdered | components/animated-background.tsx:85 | a row's lines are in visiting order |
| AnimatedBackground.StrokesBeforeOrdered | components/animated-background.tsx:84-85 | the lines of the first a rows are in visiting order |
| AnimatedBackground.ConnectionsInVisitOrder | components/animated-background.tsx:84-109 | lines are drawn in the loop's visiting order, so no line is drawn twice |
| AnimatedBackground.SelfPairsDrawn | components/animated-background.tsx:85-90 | every particle gets a zero-length line to itself |
| AnimatedBackground.VisitPair | components/animated-background.tsx:86-90 | visiting (a, b) appends its line to the row exactly when the squared distance is below 22500 |
| AnimatedBackground.ParticleField.constructor | components/animated-background.tsx:28-29 | the array starts empty and the count is fixed from the canvas size at set-up |
| AnimatedBackground.ParticleField.Resize | components/animated-background.tsx:19-22 | a resize changes the canvas size only: the particle count and the particles stay |
| AnimatedBackground.ParticleField.Init | components/animated-background.tsx:75-80 | whatever the array held, afterwards it holds exactly `count` new, distinct particles, the k-th spawned from the k-th draws on the palette the theme and preference select |
| AnimatedBackground.ParticleField.UpdateAndDraw | components/animated-background.tsx:113-116 | every particle is moved by one step, and the circles drawn are the moved particles, in order |
| AnimatedBackground.ParticleField.ConnectRow | components/animated-background.tsx:85-107 | the inner loop for particle a visits exactly the row (a, a), (a, a + 1), ... and draws exactly that row's lines |
| AnimatedBackground.ParticleField.ConnectParticles | components/animated-background.tsx:82-109 | the nested loop visits exactly the pairs of `Pairs`, in order, and draws exactly the connections of the current particles |
| AnimatedBackground.ParticleField.Frame | components/animated-background.tsx:111-119 | a frame moves and draws every particle, then connects the moved particles |
| Page.GetImagePath | app/page.tsx:37-40 | in production the path is "/Portofolio" followed by the path; otherwise it is unchanged |
| Page.GetImagePathInjective | app/page.tsx:37-40 | distinct image paths stay distinct after prefixing |
| Page.Toggle | app/page.tsx:68-70 | toggling gives no card exactly when that card was the expanded one, and otherwise that card |
| Page.ToggleTwice | app/page.tsx:68-70 | toggling the same card twice restores the state exactly when no card or that card was expanded; from another expanded card it ends with none |
| Page.Home.constructor | app/page.tsx:45-52 | no card expanded, the three form fields empty, the preview closed with no image |
| Page.Home.ToggleProject | app/page.tsx:68-70 | the expanded card becomes the toggle of the old one, and no card other than the toggled one is expanded |
| Page.Home.HandleInputChange | app/page.tsx:54-57 | only the named field takes the new value; every other field keeps its own, and the form keeps its three fields |
| Page.Home.HandleSubmit | app/page.tsx:59-66 | after submit, name, email and message are all empty |
| Page.Home.HandleOpenModal | app/page.tsx:72-75 | the clicked image is selected and the preview opens |
| Page.Home.CloseModal | app/page.tsx:661 | closing the preview clears the open flag only |
| Page.Gallery | app/page.tsx:105-122 | a card's slides are its files in order, each path prefixed for the build and each description kept |
| Page.CineList | app/page.tsx:100-155 | card 0 has four slides, four positive figures and four features, all slides under the production prefix in production |
| Page.Planty | app/page.tsx:156-211 | card 1 has four slides, four positive figures and four features, all slides under the production prefix in production |
| Page.Barrier | app/page.tsx:212-267 | card 2 has four slides, four positive figures and four features, all slides under the production prefix in production |
| Page.ZombieSheriff | app/page.tsx:268-323 | card 3 has four slides, four positive figures and four features, all slides under the production prefix in production |
| Navbar.NextTheme | components/navbar.tsx:34-36 | the toggle gives "light" exactly from "dark", and "dark" from every other theme or none |
| Navbar.ThemeToggleTwice | components/navbar.tsx:34-36 | two presses restore the theme exactly when it was "dark" or "light"; from any other they end at "light" |
| Navbar.NavLinksDistinct | components/navbar.tsx:38-43 | four links, each pointing at an anchor, with pairwise distinct labels and targets |
| Navbar.ItemLanguage | components/navbar.tsx:93-96 | the "English" entry selects "en" and the "Français" entry selects "fr" |
| Navbar.NavigationBar.constructor | components/navbar.tsx:13-15 | the menu starts closed and the bar unscrolled |
| Navbar.NavigationBar.HandleScroll | components/navbar.tsx:19-25 | the bar is in its scrolled style exactly when the page is scrolled strictly more than 10 pixels |
| Navbar.NavigationBar.ToggleMenu | components/navbar.tsx:31 | the menu flag flips, so two toggles restore it |
| Navbar.NavigationBar.CloseMenu | components/navbar.tsx:32 | the menu is closed afterwards, whatever it was |
| Navbar.NavigationBar.ToggleTheme | components/navbar.tsx:34-36 | the theme becomes the toggle of the old theme |
| Navbar.NavigationBar.FollowMobileLink | components/navbar.tsx:157-159 | a mobile link leads to its own anchor and closes the menu |
| Navbar.NavigationBar.ChooseLanguage | components/navbar.tsx:93-96 | a language entry sets the provider's language and stored preference to that entry's language |

## Left out

- Markup, CSS classes and framer-motion variants and transitions: presentation only.
- Canvas drawing (`clearRect`, `arc`, `stroke`) and the building of `hsla(...)` strings:
  - A frame returns circles and lines instead of painting them.
  - A colour is a record of its four numbers.
- `Math.sqrt`, which Dafny's reals lack: a line records the squared distance and is compared with 22500.
  - `ThresholdBySquare` proves this draws the same lines as `distance < 150`.
  - `BaseOpacity` and `LineColor` take the distance as a parameter.
- Timing, replaced by one method call per firing:
  - `requestAnimationFrame` and the `setInterval` periods, including the 5000 ms default and `duration * 1000 / end`.
  - The cleanup functions of the effects.
- The resize listener is `ParticleField.Resize`.
- A theme change re-runs the background's effect: a new `ParticleField` (the constructor, with the particle count recomputed from the current canvas size, then `Init` with the new theme).
  - The re-run starts a second animation loop and the effect's cleanup never cancels the first, so after a theme change several loops move the particles. Concurrent loops are not modelled; one frame is one call of `Frame`.
  - The `themeChange` listener, which would call `init` again with the theme captured when the effect started, is not modelled: nothing in the site dispatches that event.
- Browser and library services, each turned into a field or a parameter:
  - `localStorage` is a map field.
  - `window.matchMedia` is a parameter.
  - The `IntersectionObserver` becomes the calls of `Observe`.
  - The theme of `next-themes` is a field.
  - The toast on submit is not modelled.
- `toLocaleString` formatting of the counter: locale-dependent library code.
- StatCounter.Counter.Run: requires a target above 0; for 0 or below the source divides by zero.
- ShownValue: the shown value is computed in reals. Before the last firing, the source's IEEE doubles can show one less, because `(k / end) * end` can round below `k`. For a target of 98, the first firing shows 0 rather than 1. The bounds, the monotonicity, the firing count and the final floor(end) hold in doubles too.
- WholeTarget: min(k, n) holds in reals. Before the last firing, the source's doubles can show k - 1, for example 0 after the first firing for n = 98.
- StatCounter.Counter.Tick: the shown value is the formula evaluated in reals. The source's doubles can show one less before the target is reached.
- StatCounter.Counter.Run: the values shown at each firing are the real-arithmetic ones. Before the last firing, the source's doubles can show one less. The number of firings and the final value are the same.
- LanguageContext.Lookup: the inherited member is returned by name, not as the function value JavaScript gives. A table with an own entry for an inherited name, which the source's tables do not have, shadows it as in JavaScript.
- The texts of the translation tables: only their keys matter to the lookup. `Conforms` asks that each key has a non-empty text.
- The link between the project cards' text keys and the table keys:
  - The cards' keys are recorded but not proved to be table keys.
  - Proving membership in the 73-key literal is beyond what the verifier handles cheaply.
- Page.Projects: the list of the four cards carries no contract of its own. Its properties are proved card by card (`CineList`, `Planty`, `Barrier`, `ZombieSheriff`) because one contract over the whole literal is too costly to verify.
- The slides' alternative texts and the cards' tags and GitHub links are data only. No property is stated about them.
- ProjectCarousel.Carousel.Next and ProjectCarousel.Carousel.Previous: require a non-empty image list. The arrows that call them are rendered only for two or more images.
- ProjectCarousel.Carousel.DotClick: requires an index in range, because dots exist only for the list's indices.
- AnimatedBackground.Connections is characterised by its members (`ConnectionsExactly`) and its order (`ConnectionsInVisitOrder`). It is not stated as a filter of the pair sequence.
- Aliasing of particle objects is excluded by `ParticleField.Valid`, which `Init` establishes: `init` only ever pushes new particles.
- components/image-modal.tsx, components/skill-icon.tsx, components/project-card.tsx, components/experience-card.tsx, components/project-stats.tsx, components/language-cv-button.tsx and app/layout.tsx are not part of this model: they only render.
