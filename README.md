# duo_photo: the two-slot transform session

The page shows two images side by side in fixed preview slots. The user
clicks an image to focus it (the other one is blurred and the size slider is
enabled), drags an image to move it inside its slot, moves the slider to scale
the focused image, swaps the two images, resets the page, or loads a new pair
of files. This project models the state those handlers share and proves what
each handler does to it.

- `wrappers.dfy`, module `Wrappers`: `Option`, standing for a value that is
  `null` or a style property that is unset (`''`).
- `names.dfy`, module `Names`: JavaScript's `<` on strings, used by the intake
  comparator, and the lemmas showing it is a strict total order.
- `transform.dfy`, module `Transform`: the session state as a value (`State`:
  focused slot, drag anchor, two `Slot`s, `Slider`, preview visibility) and one
  function per handler, each with a contract stating the handler's effect,
  what it leaves untouched and that it keeps the focus invariant. Below them
  are lemmas relating several events: the double click, drag moves
  telescoping, swap twice, reset erasing every transform, intake ordering, and
  the focus invariant holding after any sequence of events.
- `session.dfy`, module `PreviewPage`: class `Session`. It has the
  script's module-level variables as fields and the two image elements as an
  `array<Slot>` that the handlers update in place, with `forEach` loops
  written as `for` loops. Each handler method is proved to take the page
  from `View()` to the state `Transform` gives for its event, and to keep
  `Valid()`, which holds the focus invariant.

Values the script reads from the page's markup or style sheet are parameters
(`Ambient`). The first is the value the slider takes when it is set to
`parseInt('')`, which is not a number; the browser then uses the slider's
default. The others are the computed `background-position` of each slot
while it was never moved, one per slot. The constructor assumes the page loads unfocused, with the slider
disabled at 200, no images and no style set on either slot.

Three behaviours of the code worth noting:

- Reset does not clear the images. It also leaves both sizes unset (`''`),
  not at 200: only the slider goes back to 200 (scripts/main.js:105-121).
- Reset does not clear a drag anchor (scripts/main.js:105-113).
- Two clicks on the same slot end unfocused only if that slot was not already
  the focused one. If it was, the first click unfocuses it and the second
  focuses it again (`DoubleToggle`).

## Model

| member | source | states |
|---|---|---|
| `Transform.Initial` | scripts/main.js:10-11 | the page starts with no focus and no drag anchor, the preview hidden, and the focus invariant holding |
| `Transform.Toggle` | scripts/main.js:169-188 | a click on the focused slot clears the focus; a click on any other slot focuses it and seeds the slider with that slot's size (or the page's fallback when the size is unset); afterwards the slider is enabled exactly when a slot is focused, and a slot is blurred exactly when another one is focused; images, sizes, offsets, anchor and preview visibility are unchanged |
| `Transform.DoubleToggle` | scripts/main.js:169-188 | two clicks on the same slot end unfocused, with the slider disabled and nothing blurred, whenever that slot was not focused before; when it was, they end with it focused; no image, size or offset changes |
| `Transform.Scale` | scripts/main.js:123-127 | an input moves an enabled slider to the new value, then the focused slot's size becomes the slider's value; with the focus invariant, no focus means nothing changes and focus means the slider value and the focused slot's size both become the input value; the other slot, all offsets and images, the focus and the anchor are unchanged; the focus invariant is kept |
| `Transform.ScaleLastWins` | scripts/main.js:123-127 | two slider inputs in a row leave what the second one alone would leave |
| `Transform.RefocusSeedsScaledSize` | scripts/main.js:123-127 | after an input on the focused slot, unfocusing and refocusing it leaves the slider enabled at the input value and the slot's size equal to it |
| `Transform.DragStart` | scripts/main.js:133-142 | drag start records the pointer as the anchor whatever the focus, and changes nothing else |
| `Transform.DragEnd` | scripts/main.js:163-167 | drag end clears the anchor and changes nothing else |
| `Transform.Displayed` | scripts/main.js:153-157 | a slot's current offset is its own explicit offset if it has one, otherwise the style sheet's default for that slot |
| `Transform.DragMove` | scripts/main.js:144-161 | requires an anchor; the dragged slot's offset becomes its displayed offset (its own, or the style sheet's if it was never moved) plus pointer minus anchor; the anchor becomes the pointer; nothing else changes |
| `Transform.Moves` | scripts/main.js:144-161 | a run of drag moves keeps two slots and always leaves an anchor |
| `Transform.MovesTelescope` | scripts/main.js:144-161 | after any non-empty run of moves the slot's offset is its starting displayed offset plus (last pointer minus first anchor), the anchor is the last pointer, and only that slot's offset changed |
| `Transform.DragGesture` | scripts/main.js:133-167 | start at P0, move through P1..Pn, end: offset is the displayed offset before plus (Pn minus P0), no anchor, nothing else changed |
| `Transform.DragByFiveThree` | scripts/main.js:144-161 | start at (10, 10), move to (15, 13), end: the slot moved by (5, 3) |
| `Transform.Swap` | scripts/main.js:37-43 | the two images are exchanged; sizes, offsets, blur flags, focus, anchor and slider are unchanged |
| `Transform.SwapTwice` | scripts/main.js:37-43 | swapping twice gives back the same state |
| `Transform.ClearTransforms` | scripts/main.js:115-121 | every slot keeps its image and loses its size, offset and blurred class |
| `Transform.Reset` | scripts/main.js:105-121 | no focus, slider 200 and disabled, upload area shown, both slots with no size, no offset and no blur; images and anchor are kept; the focus invariant holds |
| `Transform.ResetIdempotent` | scripts/main.js:105-121 | resetting twice is the same as resetting once |
| `Transform.ResetForgetsTransforms` | scripts/main.js:105-121 | two states with the same images and anchor are equal after a reset, whatever their focus, sizes, offsets and slider |
| `Transform.FirstTwoByName` | scripts/main.js:84-90 | the result is the first two files (all of them if fewer) in some order, ordered by name, and files with equal names keep their order |
| `Transform.Intake` | scripts/main.js:83-103 | fewer than two files: nothing changes; otherwise slots 0 and 1 show the first two files and no later one, slot 0's name is not greater than slot 1's, the preview is shown, and sizes, offsets, blur, focus and slider are unchanged |
| `Transform.IntakeOrdersByName` | scripts/main.js:83-103 | files "b.png", "a.png", followed by any others, put a.png in slot 0 and b.png in slot 1 |
| `Transform.Step` | scripts/main.js:16-35 | every handled event keeps the focus invariant; a drag move with no anchor leaves the state equal to what it was, because the handler throws before writing |
| `Transform.Run` | scripts/main.js:16-35 | any sequence of events leaves two slots |
| `Transform.RunKeepsFocusConsistent` | scripts/main.js:16-35 | from a state satisfying the focus invariant, every sequence of events leads to one that satisfies it |
| `Transform.ReachableFocusConsistent` | scripts/main.js:10-35 | in every state reachable from the page as loaded, at most one slot is focused, it alone is unblurred and the slider is enabled exactly when it exists |
| `Names.LessIrreflexive` | scripts/main.js:86-90 | no name is less than itself, so equal names compare as 0 |
| `Names.LessAsymmetric` | scripts/main.js:86-90 | the comparator never answers both -1 and 1 for one pair |
| `Names.LessTrichotomous` | scripts/main.js:86-90 | two different names are always ordered one way or the other |
| `Names.LessTransitive` | scripts/main.js:86-90 | the name order is transitive |
| `Names.LessEqTotal` | scripts/main.js:86-90 | "not greater" on names is reflexive, total and antisymmetric |
| `Names.LessEqTransitive` | scripts/main.js:86-90 | "not greater" on names is transitive, so with `LessEqTotal` it is a total order |
| `PreviewPage.Session.constructor` | scripts/main.js:10-11 | a new page satisfies `Valid()` and its view is `Initial()` |
| `PreviewPage.Session.SwapImages` | scripts/main.js:37-43 | the new view is `Swap` of the old one |
| `PreviewPage.Session.OnFileChange` | scripts/main.js:83-103 | the new view is `Intake` of the old one and the files |
| `PreviewPage.Session.Init` | scripts/main.js:105-113 | the new view is `Reset` of the old one |
| `PreviewPage.Session.ResetImages` | scripts/main.js:115-121 | the slots array becomes `ClearTransforms` of the old one |
| `PreviewPage.Session.SetImageSize` | scripts/main.js:123-127 | the browser moves the enabled slider to the input value, the handler reads the slider's value; the new view is `Scale` of the old one and the input value |
| `PreviewPage.Session.SetInitialPosition` | scripts/main.js:133-142 | the new view is `DragStart` of the old one |
| `PreviewPage.Session.SetImagePosition` | scripts/main.js:144-161 | requires an anchor; the new view is `DragMove` of the old one |
| `PreviewPage.Session.ResetPositionVal` | scripts/main.js:163-167 | the new view is `DragEnd` of the old one |
| `PreviewPage.Session.SetFocusedImage` | scripts/main.js:169-188 | the new view is `Toggle` of the old one; `Valid()` is kept |

## Left out

- Event listener registration, the upload-area drag styling and the drop handler's forwarding (scripts/main.js:16-35, 49-77) are browser wiring. Only their effect is modelled, as `Event` and `Step`.
- The drag ghost (`cloneNode`, opacity, `setDragImage`, and removing `body > .image`) at scripts/main.js:136-139 and 166 holds no session state.
- Saving the composite (`html2canvas`, `toDataURL`, `downloadURI`, the file name taken from the clock) at scripts/main.js:190-211 is a foreign, asynchronous rasterizer with I/O.
- `URL.createObjectURL` is modelled as the value `ObjectUrl(file)`. The object URL's uniqueness and its missing closing parenthesis in the `url(` text are not modelled.
- CSS text is not modelled: the `"<x>px <y>px"` and `"<n>%"` formats, `split(' ')` and `parseInt`. Offsets and sizes are integers, and `getComputedStyle` is replaced by `Ambient.DefaultOffset`, one fixed value per slot.
- Pointer coordinates (`pageX`, `pageY`) are integers too. In the browser they can be fractional; the offset is then written with a fraction and `parseInt` drops it at the next move. So the exact sums that `MovesTelescope` and `DragGesture` state hold only for whole-pixel pointer positions.
- Seeding the slider from an unset size gives `parseInt('')`, which is NaN. It is modelled as `Ambient.sliderFallback`, the value the browser substitutes. The slider's own range clamping is not modelled.
- `Transform.DragMove`, `PreviewPage.Session.SetImagePosition`: require an anchor, because a move without a drag start throws a TypeError at scripts/main.js:149. In `Transform.Step` such a move leaves the state unchanged, since the handler throws before writing anything.
- `Names.Less` compares characters as Unicode scalar values. JavaScript compares UTF-16 code units, so the two orders can differ for names with characters outside the Basic Multilingual Plane.
- Clearing the file input (`fileInput.value = ''`), the `console.error` on a short file list and the upload area's `drag-enter` class are not part of the state modelled.
