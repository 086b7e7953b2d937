# Reaction emoji picker: the selection state machine

This project models the one piece of logic in the reaction emoji picker, a
single-page widget for choosing an emoji face to overlay on reaction videos
(`src/App.tsx`). The widget keeps five pieces of state: the big emoji on
screen, the selected category (or none), whether the full grid is open,
whether a slot-machine spin is running, and the list of emoji the spin
animation cycles through. Five events change that state: the "Random
Expression" button, the spin's timer firing, a category chip, a click on a
grid cell, and a click on the big emoji.

- `catalog.dfy`, module `Catalog`: the two fixed tables, the 30-entry
  catalog and the map from the eight category names to their emoji, with
  the emoji written out exactly as in the source.
- `shuffle.dfy`, module `Shuffle`: the random draws without the randomness.
  A shuffle is given as the permutation it produced, a random index as the
  index. `Preview` is the shuffle-and-take-20 chain; `PickAt` is the pick of
  one entry by index.
- `picker.dfy`, module `ReactionPicker`: the class `Picker`, with one field
  per state variable, the two tables as immutable fields, and one method per
  event. Every method says which fields it sets, to what, and that the others
  keep their values. `Valid()` is the state invariant. `ShowsKnownEmoji()`
  says the big emoji is the placeholder, a catalog entry or a category entry.
  Three client methods (`SpinScenario`, `AngryScenario`, `GridScenario`)
  replay the widget's intended behaviours against the contracts.

Modelling decisions:

- The random button is disabled while a spin runs (`src/App.tsx:145`).
  `StartSpin` therefore does nothing while spinning. So a running spin always
  has exactly one pending completion, and `isSpinning` stands for it.
  `CompleteSpin` models the timer callback as a discrete step that may run
  only while `isSpinning` holds.
- The click on the big emoji is guarded by `!isSpinning` (`src/App.tsx:136`).
  While spinning the big emoji is not even rendered. `ToggleGrid` is a no-op
  then.
- `SelectEmoji` takes any string, as `handleEmojiSelect` does. That the big
  emoji stays a known one is proved only for the emoji a grid on screen
  offers (`GridOffers`).
- The invariant includes "while spinning, the full grid is hidden". Starting
  a spin hides it, and no event reopens it before the completion. The
  completion itself does not touch the flag; the flag is simply already off.
- The source clears the selected category only when a spin starts. Picking
  from a grid and the spin's completion leave it as it was. The big emoji can
  open the full grid while a category is selected, so both grids can be open
  at once (`GridScenario` shows it). The model keeps all of this as the code
  has it.
- The source shuffles by sorting with a random comparator. The model demands
  only that the shuffled list is a permutation of the catalog.

## Model

| member | source | states |
|---|---|---|
| `Catalog.CatalogSize` | src/App.tsx:6-37 | the catalog holds 30 emoji, so a spin preview is 20 of them |
| `Catalog.ChipsAreCategories` | src/App.tsx:40-49 | the chip names, in key order, are exactly the keys of the category map, each once |
| `Catalog.CategoriesNonEmpty` | src/App.tsx:40-49 | every category has at least one emoji, so a random index into it names an emoji |
| `Shuffle.Take` | src/App.tsx:71 | `slice(0, n)` gives a prefix of length `min(n, length)` |
| `Shuffle.PrefixSubMultiset` | src/App.tsx:69-71 | a prefix holds each entry at most as often as the whole list |
| `Shuffle.Preview` | src/App.tsx:69-71 | the spin preview of a shuffled catalog is a prefix of the shuffle, has `min(20, catalog size)` entries, holds each emoji at most as often as the catalog, and holds only catalog emoji |
| `Shuffle.PickAt` | src/App.tsx:80 | an in-range random index into a list (the catalog at line 80, a category at line 93) yields a member of that list |
| `Shuffle.PermutationsExist` | src/App.tsx:69-70 | every list has a shuffle of the same length, so a spin can always start |
| `Shuffle.PermutationSameEntries` | src/App.tsx:69-70 | a shuffle has the same length and exactly the same entries as the original |
| `ReactionPicker.GridOffersDisplayable` | src/App.tsx:171-205 | any emoji a grid cell on screen hands over is the placeholder, a catalog entry or a category entry |
| `ReactionPicker.Picker.constructor` | src/App.tsx:52-58 | the initial state is the placeholder "🎬", no category, grid closed, not spinning, empty preview; the invariants hold |
| `ReactionPicker.Picker.StartSpin` | src/App.tsx:61-84 | when not spinning: spinning starts, category and grid are cleared, the big emoji is unchanged, and the preview is 20 emoji from a prefix of the shuffle with a sub-multiset of the catalog; when spinning (button disabled, line 145): nothing changes |
| `ReactionPicker.Picker.CompleteSpin` | src/App.tsx:79-83 | only while spinning: the big emoji becomes the drawn catalog entry and spinning stops; category, grid flag and preview keep their values |
| `ReactionPicker.Picker.SelectCategory` | src/App.tsx:87-95 | for a category key: it becomes the selected category, the grid closes, the big emoji is the drawn entry of that category; spinning and preview keep their values |
| `ReactionPicker.Picker.SelectEmoji` | src/App.tsx:98-101 | the big emoji becomes the argument and the grid closes; category, spinning and preview keep their values; the big emoji is a known one exactly when the argument is, and always when a visible grid offered it |
| `ReactionPicker.Picker.ToggleGrid` | src/App.tsx:134-139 | when not spinning, the grid flag flips and nothing else changes; while spinning nothing changes |

## Left out

- The rendered view: markup, styling classes, the `slotMachine` CSS animation and the doubled preview list that makes the animation loop (`src/App.tsx:103-222`). These are presentation only.
- `Math.random` and the floating-point index `Math.floor(Math.random() * n)` (`src/App.tsx:70, 80, 93`). A draw is a caller-supplied permutation or index, constrained by `requires`.
- Whether the shuffle is uniform. A random comparator passed to `sort` does not give a uniform shuffle; the model states only that the result is a permutation.
- The 2000 ms `setTimeout` delay and its scheduling (`src/App.tsx:76-83`). Completion is one discrete step. What happens if the component is unmounted before the timer fires is a host event-loop concern and is not modelled.
- React hook semantics: batching of the setter calls, re-render scheduling, and the render-time value of `showAllEmojis` captured by the toggle's closure. Each event is an atomic update of the fields.
- `ReactionPicker.Picker.StartSpin`: does not model a second invocation while a spin is running as the bare handler would behave (a second shuffle and a second pending timer), because the button that triggers it is disabled then.
- `ReactionPicker.Picker.SelectCategory`: requires a key of the category map. For any other name the source reads an undefined list and throws. The chips pass only keys.
