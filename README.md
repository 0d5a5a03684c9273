# Slideshow: a verified model of galleries, editing and playback

This project models the core of a browser slideshow viewer and editor. The
user keeps several named galleries of images. Each image has a duration in
seconds, a caption, and the raw bytes it was imported from. Each gallery has
transition, easing, fit, background-blur, loop and autoplay settings. The
viewer steps through the active gallery, either by the next and previous
buttons or by an autoplay timer. The settings panel edits the collection.

The model has four modules:

- `SlideTypes` (`types.dfy`): the records. `SlideImage`, `Gallery` and
  `Settings` are datatypes, and the transition and easing kinds are
  enumerations. The payload (`Blob`) and its display handle (`Handle`) are
  opaque wrappers.
- `Text` (`text.dfy`): the two string operations the editor needs. One is
  the caption rule of an import: the part of the file name before its first
  `.`. The other is the decimal rendering of a number in the name
  `"Gallery " + (n+1)`. It is proved to read back to the number it renders.
- `App` (`app.dfy`): the root view.
  - Pure parts: the next-index rule of `paginate` with its lemmas (in range,
    wrap-around, clamping, full cycle, holding at the ends), the first-run
    bootstrap, and the autosave guard.
  - The class `Slideshow` holds the view's state: the collection, the
    active gallery, the current image, the settings-open flag, the last
    direction and the animation flag. Its methods are `Paginate`,
    `ExitComplete`, `TimerFires`, `OpenSettings`, `PlayForward`, `Load`
    and `Autosave`. The function
    `ArmedDuration` says when the autoplay timer is armed and for how long.
- `SettingsPanel` (`settings_panel.dfy`): the editor.
  - Every edit is a function from the old collection or selection to the
    new one: select-all, toggle one row, bulk duration, field edit, remove,
    import, reorder, new, rename and delete gallery, and the settings
    writes. Each has lemmas saying what it changes and what it preserves.
  - The class `Panel` holds the panel's own state: the selection and the
    bulk-duration input. It applies the edits to the `Slideshow` it is
    attached to. Its methods may change only the view's `galleries`,
    `activeIdx` and `isSettingsOpen` fields, as the panel's handlers do
    through the root view's setters. A `Panel` object stands for one
    opening of the panel: it is constructed when the view's settings open,
    its handlers require them open, and `Close` discards its selection and
    bulk input, as unmounting does.

The autoplay timer is not a field of the model. The source cancels and
re-arms it after every change of the current index, the active gallery, the
settings-open flag or the animation flag. So the armed timer is
`ArmedDuration()` of the current state, with one exception listed under
"Left out". Its expiry is `TimerFires`, which
takes the same step as `Paginate(1)`.

Quirks of the program that the model reproduces:

- The selection is a list. Select-all compares its length with the number
  of images, not the two sets of ids (`SelectAllToggled`). A selection of
  the right length that holds none of the images' ids is cleared. Toggling
  a row appends its id at the end.
- Removing an image removes every image with that id. In general the list
  shrinks by the number of images with that id (`ImagesWithoutIds`). With
  distinct ids it shrinks by exactly one (`RemoveDropsOne`).
- The current image index is never reset when images are removed or the
  gallery changes. `NextIndex` is therefore total. The in-range lemmas
  assume an in-range index. Stepping forward from beyond the end with loop
  off never moves (`StaleIndexForward`).
- The autoplay delay falls back to 3 seconds not only when there is no
  current image but also when its duration is 0.
- Deleting a gallery is guarded by the count of galleries. It is not an
  explicit refusal. The count guard alone does not keep a gallery: if every
  gallery had the same id, deleting would empty the collection. With
  distinct ids one gallery remains (`DeleteLeavesOne`).
- The panel has no control for the easing kind or the fit mode. Only the
  transition, loop, autoplay and blur settings are written.
- At an end of the list with loop off, `Paginate` still records the
  direction and sets the animation flag, though the index stays the same.

## Model

| member | source | states |
|---|---|---|
| `SlideTypes.ImageIds` | frontend/src/components/SettingsPanel.tsx:82 | the ids of the images, one per image, in list order |
| `Text.BeforeFirstDot` | frontend/src/components/SettingsPanel.tsx:97 | the caption `name.split('.')[0]`: a prefix of the name with no dot, ending at the end of the name or at its first dot |
| `Text.BeforeFirstDotUnique` | frontend/src/components/SettingsPanel.tsx:97 | those three properties determine the caption: any prefix that has them is it |
| `Text.DecimalString` | frontend/src/components/SettingsPanel.tsx:134 | the rendering of a number in the template literal: at least one digit, only digits, a leading zero only for 0 |
| `Text.DecimalRoundTrip` | frontend/src/components/SettingsPanel.tsx:134 | reading the rendered digits back gives the number |
| `Text.DecimalStringInjective` | frontend/src/components/SettingsPanel.tsx:134 | different numbers render to different strings |
| `App.Bootstrap` | frontend/src/App.tsx:31-49 | a non-empty load is used unchanged; an empty one gives exactly one gallery, id 'default', name 'Main Gallery', no images, slide / easeInOut / contain / blur 15 / loop on / autoplay off |
| `App.SaveSnapshot` | frontend/src/App.tsx:59-63 | autosave writes the collection when it is non-empty and otherwise leaves the store as it was |
| `App.StoreNeverEmptied` | frontend/src/App.tsx:59-63 | a store that holds a collection still holds one after any run of autosaves, including the one that runs on the empty collection before loading |
| `App.SaveAllKeepsLastNonEmpty` | frontend/src/App.tsx:59-63 | after a run of autosaves the store holds the last non-empty collection of the run |
| `App.SaveAllNoWrites` | frontend/src/App.tsx:60-61 | autosaves of empty collections never change the store |
| `App.NextIndex` | frontend/src/App.tsx:73-78 | from an index in `[0, len)` with a step of ±1 the next index stays in `[0, len)`; with loop off the index either moves by the step or stays put |
| `App.LoopStepIsModular` | frontend/src/App.tsx:73-78 | with loop on, one step from a valid index is `(prev + dir) mod len` (0 after the last, `len-1` before the first) |
| `App.NoLoopStepClamps` | frontend/src/App.tsx:73-78 | with loop off, one step from a valid index is `prev + dir` clamped to `[0, len-1]` |
| `App.StaleIndexForward` | frontend/src/App.tsx:73-75 | a forward step from an index at or beyond the end goes to 0 with loop on and stays at that index with loop off |
| `App.StepsAdd` | frontend/src/App.tsx:73-78 | `a + b` steps are `a` steps followed by `b` steps |
| `App.ForwardRun` | frontend/src/App.tsx:74-77 | forward steps that stay inside the list move one image each |
| `App.BackwardRun` | frontend/src/App.tsx:76-77 | backward steps that stay inside the list move one image each |
| `App.LoopFullCycle` | frontend/src/App.tsx:73-78 | with loop on, `len` steps forward, or `len` steps backward, from any valid index return to it |
| `App.NoLoopHoldsAtEnds` | frontend/src/App.tsx:75-76 | with loop off, any number of forward steps from `len-1` stays at `len-1`, and any number of backward steps from 0 stays at 0 |
| `App.Slideshow.constructor` | frontend/src/App.tsx:17-22 | the state before loading: no galleries, indices 0, panel closed, direction 0, not animating |
| `App.Slideshow.ActiveGallery` | frontend/src/App.tsx:65 | the active gallery is the one at `activeIdx`, and there is none when that index is out of range |
| `App.Slideshow.Load` | frontend/src/App.tsx:31-49 | the loaded collection becomes `Bootstrap` of what the store returned |
| `App.Slideshow.Autosave` | frontend/src/App.tsx:59-63 | the store becomes `SaveSnapshot` of the current collection |
| `App.Slideshow.Paginate` | frontend/src/App.tsx:69-79 | a complete no-op while animating, without an active gallery, or without images; otherwise the direction becomes `dir`, the animation flag is set, and the index becomes `NextIndex` of the old one, even when that index is unchanged |
| `App.Slideshow.ExitComplete` | frontend/src/App.tsx:170 | the exit report clears the animation flag and changes nothing else |
| `App.Slideshow.OpenSettings` | frontend/src/App.tsx:123-128 | the viewer's settings button, offered only while the panel is closed, opens it; nothing else changes (closing is `SettingsPanel.Panel.Close`) |
| `App.Slideshow.ArmedDuration` | frontend/src/App.tsx:82-89 | a timer is armed iff autoplay is on, the active gallery has at least one image and the panel is closed; its delay is the current image's duration, or 3 when there is no current image or its duration is 0, and is never 0 |
| `App.Slideshow.TimerFires` | frontend/src/App.tsx:86 | the expiry of an armed timer is the step `Paginate(1)`; with no timer armed nothing changes |
| `App.Slideshow.PlayForward` | frontend/src/App.tsx:69-79 | `n` presses of next, each followed by the exit report, move the index by `n` steps of the next-index rule, leave the flag clear, and leave the direction at 1 (unchanged when `n` is 0) |
| `SettingsPanel.Without` | frontend/src/components/SettingsPanel.tsx:178 | filtering an id out of a list removes every occurrence of it and nothing else; the length drops by the number of occurrences |
| `SettingsPanel.WithoutConcat` | frontend/src/components/SettingsPanel.tsx:188 | filtering distributes over concatenation, so the kept ids keep their order |
| `SettingsPanel.WithoutAbsent` | frontend/src/components/SettingsPanel.tsx:188 | filtering out an id that is not in the list changes nothing |
| `SettingsPanel.DistinctOccursOnce` | frontend/src/components/SettingsPanel.tsx:96 | in a list of distinct ids, an id that is present occurs exactly once |
| `SettingsPanel.SelectAllToggled` | frontend/src/components/SettingsPanel.tsx:80-83 | the empty list when the selection's length equals the image count, otherwise every image id in gallery order |
| `SettingsPanel.SelectAllTwice` | frontend/src/components/SettingsPanel.tsx:80-83 | from a selection that is not full, select-all selects every image, and pressing it again clears the selection |
| `SettingsPanel.SelectionToggled` | frontend/src/components/SettingsPanel.tsx:178 | a row's id is selected afterwards iff it was not before; other ids keep their membership; an unselected id is appended at the end |
| `SettingsPanel.ToggleTwiceRestoresMembership` | frontend/src/components/SettingsPanel.tsx:178 | toggling the same row twice restores which ids are selected |
| `SettingsPanel.ToggleTwiceFromUnselected` | frontend/src/components/SettingsPanel.tsx:178 | toggling an unselected row twice gives back exactly the same selection |
| `SettingsPanel.BulkDurationApplied` | frontend/src/components/SettingsPanel.tsx:87-89 | an image gets the bulk duration exactly when its id is selected; no other field, and neither the count nor the order of images, changes |
| `SettingsPanel.Edited` | frontend/src/components/SettingsPanel.tsx:181 | a field edit replaces the caption or the duration and keeps every other field |
| `SettingsPanel.ImagesEdited` | frontend/src/components/SettingsPanel.tsx:179-183 | images with the row's id get the edit; every other image is unchanged, and the count is unchanged |
| `SettingsPanel.DurationEditIsBulkOfOne` | frontend/src/components/SettingsPanel.tsx:57 | editing one row's duration equals the bulk duration edit with only that id selected |
| `SettingsPanel.ImagesWithout` | frontend/src/components/SettingsPanel.tsx:186 | an image is kept iff it was in the list and does not have the row's id; the empty list gives the empty list, and a one-image list is kept or emptied according to its id |
| `SettingsPanel.ImagesWithoutConcat` | frontend/src/components/SettingsPanel.tsx:186 | the filter distributes over concatenation; with the one-image case this fixes the result, so the kept images stay in their original order |
| `SettingsPanel.ImagesWithoutIds` | frontend/src/components/SettingsPanel.tsx:186 | the ids left are the old ids with that id filtered out, in the same order, so the length drops by the number of matches |
| `SettingsPanel.RemoveDropsOne` | frontend/src/components/SettingsPanel.tsx:184-189 | with distinct ids, removing a present id leaves exactly one image fewer |
| `SettingsPanel.ImportedImages` | frontend/src/components/SettingsPanel.tsx:95-98 | one image per file in file order, with the supplied fresh id and handle, the file's bytes, duration 3, filter 'none' and the name before its first dot as the caption |
| `SettingsPanel.ImportCaption` | frontend/src/components/SettingsPanel.tsx:97 | a file name without a dot is taken whole as the caption, because the name itself meets the properties that determine the caption |
| `SettingsPanel.ReorderKeepsIds` | frontend/src/components/SettingsPanel.tsx:168-172 | reordering by a permutation keeps the number of images and the set of their ids |
| `SettingsPanel.WithImages` | frontend/src/components/SettingsPanel.tsx:169-170 | only the active gallery's image list is replaced; its id, name and settings and every other gallery stay |
| `SettingsPanel.WithSettings` | frontend/src/components/SettingsPanel.tsx:203-205 | only the active gallery's settings are replaced; its id, name and images and every other gallery stay |
| `SettingsPanel.WithNewGallery` | frontend/src/components/SettingsPanel.tsx:134-135 | the old galleries followed by one new gallery: the fresh id, no images, name "Gallery " + (n+1), the first gallery's settings with autoplay off |
| `SettingsPanel.NewGalleryNameSpelled` | frontend/src/components/SettingsPanel.tsx:134 | the new name is "Gallery " and digits that read back as n+1, so collections of different sizes name their new galleries differently |
| `SettingsPanel.GalleriesWithout` | frontend/src/components/SettingsPanel.tsx:149 | a gallery is kept iff it was in the collection and does not have that id; the empty collection gives the empty one, and a one-gallery collection is kept or emptied according to its id |
| `SettingsPanel.GalleriesWithoutConcat` | frontend/src/components/SettingsPanel.tsx:149 | the filter distributes over concatenation; with the one-gallery case this fixes the result, so the galleries left stay in their original order |
| `SettingsPanel.GalleriesWithoutIds` | frontend/src/components/SettingsPanel.tsx:149 | the gallery ids left are the old ids with that id filtered out, in order |
| `SettingsPanel.DeleteLeavesOne` | frontend/src/components/SettingsPanel.tsx:149 | with distinct ids and at least two galleries, deleting one leaves exactly one fewer, at least one, and not the deleted one |
| `SettingsPanel.Panel.constructor` | frontend/src/components/SettingsPanel.tsx:74-75 | the panel is mounted while the settings are open, with an empty selection and a bulk duration of 3 |
| `SettingsPanel.Panel.ToggleSelectAll` | frontend/src/components/SettingsPanel.tsx:80-83 | the selection becomes `SelectAllToggled` of the old selection and the active images |
| `SettingsPanel.Panel.SetBulkDuration` | frontend/src/components/SettingsPanel.tsx:124 | the bulk input takes the given value |
| `SettingsPanel.Panel.ApplyBulkDuration` | frontend/src/components/SettingsPanel.tsx:85-91 | the active images become `BulkDurationApplied` of the old ones; no other gallery changes |
| `SettingsPanel.Panel.HandleFileUpload` | frontend/src/components/SettingsPanel.tsx:93-103 | the imported images are appended after the active gallery's images, which stay as they were |
| `SettingsPanel.Panel.NewGallery` | frontend/src/components/SettingsPanel.tsx:133-137 | the collection becomes `WithNewGallery` of the old one, and the active index becomes the old length, which is the new empty gallery |
| `SettingsPanel.Panel.OpenGallery` | frontend/src/components/SettingsPanel.tsx:142 | the clicked gallery becomes active and the selection is cleared; the current image index is not touched |
| `SettingsPanel.Panel.RenameGallery` | frontend/src/components/SettingsPanel.tsx:145-146 | only that gallery's name changes, to any text including the empty one |
| `SettingsPanel.Panel.DeleteGallery` | frontend/src/components/SettingsPanel.tsx:149 | with more than one gallery, every gallery with the row's id is removed and the active index resets to 0; otherwise nothing changes; with distinct ids an active gallery remains |
| `SettingsPanel.Panel.Reorder` | frontend/src/components/SettingsPanel.tsx:168-172 | the active gallery's images become the supplied order; no other gallery changes |
| `SettingsPanel.Panel.ToggleImage` | frontend/src/components/SettingsPanel.tsx:178 | the selection becomes `SelectionToggled` of the old selection |
| `SettingsPanel.Panel.UpdateImage` | frontend/src/components/SettingsPanel.tsx:179-183 | the active images become `ImagesEdited` of the old ones; no other gallery changes |
| `SettingsPanel.Panel.RemoveImage` | frontend/src/components/SettingsPanel.tsx:184-189 | the id leaves the active gallery's images and the selection; other galleries are unchanged |
| `SettingsPanel.Panel.SetTransition` | frontend/src/components/SettingsPanel.tsx:202-205 | only the active gallery's transition kind is overwritten |
| `SettingsPanel.Panel.SetLoop` | frontend/src/components/SettingsPanel.tsx:215 | only the active gallery's loop flag is overwritten |
| `SettingsPanel.Panel.SetAutoplay` | frontend/src/components/SettingsPanel.tsx:216 | only the active gallery's autoplay flag is overwritten |
| `SettingsPanel.Panel.SetBgBlur` | frontend/src/components/SettingsPanel.tsx:219 | only the active gallery's blur is overwritten, with a value from the slider's 0 to 40 range |
| `SettingsPanel.Panel.Close` | frontend/src/components/SettingsPanel.tsx:115 | the close button closes the panel, which lets autoplay arm again; unmounting discards the selection and the bulk input, so the next opening starts from the empty selection and 3 |

## Left out

- The persistence adapter (frontend/src/services/db.ts) is not part of this model. Its IndexedDB plumbing is asynchronous browser I/O. The model keeps only the stored snapshot (`Slideshow.stored`) and the autosave guard. Loading re-derives each image's display handle from its payload (frontend/src/services/db.ts:38-43). The model takes the loaded collection as a parameter instead, so it contains no save/load round trip.
- Fresh ids come from `Math.random` in the source. New image ids, the new gallery's id and the display handles (`URL.createObjectURL`) are parameters supplied by the caller. Their freshness is assumed where a lemma needs it (`Distinct`).
- Real timers, `setTimeout`/`clearTimeout` and the passing of time are not modelled. The model keeps only the arming condition, the delay, and the step taken on expiry. Two consequences:
  - A timer shorter than the transition can fire while a transition is in flight. In the source that timer is then spent, and the next one is armed only when the exit report clears the flag (frontend/src/App.tsx:86-89). In the model `ArmedDuration()` is still `Some` in that state. `TimerFires` is then a no-op, so no step is lost or added.
  - `ArmedDuration()` is never 0, but a negative duration passes through unchanged. The duration input has no minimum (frontend/src/components/SettingsPanel.tsx:54-57), and the browser fires a timer with a negative delay at once.
- The rendering layer is not modelled: animation variants, easing selection, fit and blur styling, and the viewer's empty-gallery message. Its exit report is the method `ExitComplete`, which any caller may invoke. The model does not decide when the animation library reports exit. In particular it does not decide whether a report arrives when the displayed image stays the same. That happens at an end with loop off, or with a single image.
- Fullscreen toggling and its change listener are left out. They belong to the platform's fullscreen API.
- The UI-only state is left out: tabs, the `uiVisible` toggle, and the drag controls.
- Parsing the duration, bulk-duration and blur inputs (`parseFloat`, `parseInt`, and the NaN they can produce) is left out. Durations are handed in as `real` values, and the blur comes from the slider as an integer in 0..40.
- The `e.target.files` null check of the upload handler is left out. A missing file list is modelled as an empty one, which appends nothing.
- The source edits gallery objects in place through a shallow copy of the array (`updated[activeIdx].images.push(...)`, `updated[idx].name = ...`, `updated[activeIdx].settings.loop = ...`). The model replaces the gallery value at that index in the collection. This gives the same result, because the old array is discarded and no gallery object sits at two indices. The aliasing between the old and the new array is not modelled.
- `SettingsPanel.ReorderKeepsIds`: the source does not check that the order reported by the drag-to-reorder list is a permutation. The lemma assumes it, and `Panel.Reorder` accepts any list, as the source does.
