# emgui layout core, modelled in Dafny

This project models `emgui/src/layout.rs`, the layout and interaction core of the emgui
immediate-mode GUI library. Callers rebuild the whole UI every frame. Each widget call
*reserves* space in a `Region`: a rect is placed at the region's cursor, the cursor moves
along the region's direction, and the bounding size is summed along that direction and
maximised across it. The reserved rect is hit-tested against the input to give
`hovered`/`clicked`, and the widget that was clicked becomes the *active* widget in the
persistent `Memory`. Collapsible sections ("foldables") keep their open state in the same
memory. Widgets push draw commands onto a base layer. Popups move their own commands onto an
overlay layer, which the renderer receives after the base layer.

Files and modules:

- `geometry.dfy` (`Geometry`): `Vec2`, `Rect` and `f32::max`, with coordinates as `real`.
- `types.dfy` (`GuiTypes`): ids, keys, options, input, interaction info, draw commands, and
  the external collaborators (font, math helpers) as data.
- `memory.dfy` (`Memories`): the persistent `Memory` and its transitions (new frame,
  reservation, foldable toggle), with "last click wins" over a whole frame.
- `layers.dfy` (`Layering`): the two command layers, the popup's layer surgery, `drain`, and
  the ordering law for any interleaving of draws and popups.
- `text.dfy` (`TextLayout`): `split('\n')`, line stacking, and the text commands.
- `rules.dfy` (`LayoutRules`): `reserve_space_inner` as a function on values, its
  accounting over N reservations, column geometry, and the popup window rect.
- `layout.dfy` (`Layout`): the `Data` and `Region` classes with every widget and sub-region
  helper as a method, plus `ShowPopup`. Each method's `ensures` ties its new state to the
  functions above.

Quirks of the code are kept as written:

- A vertical region shrinks `available_space.y` by the reserved *width* (`size.x`).
- `centered_column` uses `(available_space.x - width) / 2` as an absolute x, ignoring
  `cursor.x`. It reserves nothing in the parent.
- The popup subtracts one `item_spacing` from its bounding size. `PopupRemovesTrailingSpacing`
  shows that this removes exactly the trailing spacing of its last item.
- The popup region's id is `0`.

The bounding size includes the item spacing of every reservation, because `reserve_space`
reserves `size + item_spacing`. So two labels of sizes (20,14) and (30,14) with item spacing
(8,4) give a bounding size of (38,36), not the (30,32) that a rule without spacing would give
(`TwoLabelsScenario`). The model follows the code.

Caller-supplied closures (`add_contents`) are parameters. A `Contents` value maps the view a
closure gets of its region (id, direction, cursor, available space) to an `Outcome`: the
commands it pushes onto the base layer and the region's final bounding size.

## Model

| member | source | states |
|---|---|---|
| `Memories.NewFrameMemory` | emgui/src/layout.rs:187-192 | a released mouse clears the active id; a held mouse leaves memory unchanged; the open foldables are never touched |
| `Layout.Data.NewFrame` | emgui/src/layout.rs:187-192 | the input is replaced and the memory becomes `NewFrameMemory` of the old memory |
| `Layout.Data.SetOptions` | emgui/src/layout.rs:182-184 | the options are replaced wholesale |
| `Layout.Data.constructor` | emgui/src/layout.rs:164-172 | default options (values of lines 30-40), default input, empty memory, empty layers |
| `Memories.Interact` | emgui/src/layout.rs:560-570 | `hovered` is the hit test; `clicked` is hovered and the mouse was just clicked, so it implies hovered; a click with an id makes that id active; with no id nothing is active and memory is unchanged; `active` holds exactly when the active id equals the given id; open foldables are untouched |
| `Memories.LastClickWins` | emgui/src/layout.rs:562-567 | over a frame's reservations, the active id ends as the id of the last clicked reservation that had one (or the previous id), and the open set is unchanged |
| `Memories.Toggle` | emgui/src/layout.rs:431-437 | the id's membership is flipped and every other id's membership is kept |
| `Memories.FoldableMemory` | emgui/src/layout.rs:429-439 | on a click the foldable's membership flips; without a click memory is unchanged; other ids and the active id are never touched |
| `Memories.FoldableTwoClicks` | emgui/src/layout.rs:431-438 | two clicks restore the memory |
| `Layering.Flatten` | emgui/src/layout.rs:131-136 | the drained sequence is the base layer followed by the overlay |
| `Layering.MoveToOverlay` | emgui/src/layout.rs:222-225 | the base is cut back to length N; the overlay keeps its old prefix, then the window command, then the cut-off commands; no command is lost or reordered |
| `Layering.ApplyAllSeparates` | emgui/src/layout.rs:222-225 | for any interleaving of draws and popups, the base holds the draws in order and the overlay holds each popup's window and contents in order |
| `Layering.PopupsDrainLast` | emgui/src/layout.rs:131-136 | drained output is all plain draws and then all popups, wherever in the frame they were shown |
| `Layering.GraphicLayers.Drain` | emgui/src/layout.rs:131-136 | returns base then overlay and leaves both layers empty |
| `TextLayout.SplitLinesJoin` | emgui/src/layout.rs:609 | splitting at line breaks loses nothing (joining the pieces gives the text back) and no piece contains a line break |
| `TextLayout.MaxLineWidthIsMax` | emgui/src/layout.rs:607-621 | the width of laid-out text is at least 0 and at least every line's width, and is 0 or one of them |
| `TextLayout.LayoutOneMoreLine` | emgui/src/layout.rs:609-620 | one more line appends its fragment at the next line height and widens the running maximum by its width |
| `Layout.Region.LayoutText` | emgui/src/layout.rs:604-623 | fragment i is line i at height i line spacings; the size is the widest line by the line count times the line spacing |
| `Layout.Region.AddText` | emgui/src/layout.rs:625-634 | one text command per fragment, in order, each at the position lowered by its offset |
| `LayoutRules.ReserveInner` | emgui/src/layout.rs:581-593 | the cursor moves only along the direction, by the size; the bounding size grows by the same amount along it and takes the max across it; the available space shrinks by `size.x` on x (horizontal) or on y (vertical, as written) |
| `Layout.Region.ReserveSpaceInner` | emgui/src/layout.rs:581-593 | the region's cursor, bounding size and available space become `ReserveInner` of the old ones |
| `LayoutRules.ReserveSpacesAccounting` | emgui/src/layout.rs:581-593 | after N reservations the cursor and bounding size have grown by the sum along the direction; across it the cursor is unchanged and the bounding size is the running max |
| `LayoutRules.MaxAcrossIsMax` | emgui/src/layout.rs:586-591 | the running max is an upper bound of the start and every item, and equals one of them |
| `LayoutRules.VerticalReservations` | emgui/src/layout.rs:587-592 | from a zero bounding size, N `reserve_space(w_i,h_i)` move the cursor down by Σ(h_i+spacing.y); the bounding height is that sum; the bounding width is the largest w_i+spacing.x (or 0) |
| `LayoutRules.HorizontalReservations` | emgui/src/layout.rs:582-586 | the same law with the axes swapped, the available width shrinking by the sum |
| `LayoutRules.TwoLabelsScenario` | emgui/src/layout.rs:559 | two labels (20,14), (30,14) with spacing (8,4): cursor down by 36, bounding size (38,36) |
| `LayoutRules.SumAlongSpacing` | emgui/src/layout.rs:559 | the item spacing is counted once per reservation |
| `LayoutRules.ColumnsFill` | emgui/src/layout.rs:521-523 | n column widths plus n-1 spacings equal the available width |
| `LayoutRules.ColumnsTile` | emgui/src/layout.rs:525-534 | column 0 starts at the cursor; column i+1 starts one width plus one spacing after column i; the last column ends at the available width's right edge |
| `Layout.MaxColumnHeight` | emgui/src/layout.rs:538-542 | the height reserved for the columns is at least 0 and at least every column's bounding height, and is 0 or one of them |
| `LayoutRules.PopupRemovesTrailingSpacing` | emgui/src/layout.rs:216-218 | for N >= 1 vertical items of non-negative width, the popup's inner height is Σh_i + (N-1)·spacing.y and its inner width is the widest w_i |
| `Layout.ShowPopup` | emgui/src/layout.rs:196-226 | the base layer ends as it was before the popup; the overlay gains a window at `window_pos` of size bounding − spacing + 2·padding, then the popup's commands in order; the contents run in a vertical region with id 0 inside the padding |
| `Layout.Region.AddGraphic` | emgui/src/layout.rs:258-260 | the command is pushed onto the base layer and the overlay is unchanged |
| `Layout.Region.ReserveSpace` | emgui/src/layout.rs:550-578 | the rect is the pre-call cursor with the given size; `size + item_spacing` is reserved; the interaction and the new memory are `Interact` of the old memory |
| `Layout.Region.Button` | emgui/src/layout.rs:274-284 | reserves text size + 2·padding with the child id of the text; pushes the button and then its text at cursor + padding |
| `Layout.Region.Checkbox` | emgui/src/layout.rs:286-310 | the checked flag flips exactly when clicked; reserves padding + icon + text + padding; pushes the check box with the new flag, then the text |
| `Layout.Region.Label` | emgui/src/layout.rs:312-318 | pushes the text at the cursor, then reserves its size with no id: never active, memory unchanged |
| `Layout.Region.Radio` | emgui/src/layout.rs:321-342 | reserves like a check box and pushes a radio button with the caller's flag, unchanged |
| `Layout.Region.NakedSlider` | emgui/src/layout.rs:367-403 | requires min <= max; reserves the full width by one line; the value is unchanged unless active, and when active it is `remap_clamp` of the mouse x over the slider's rect |
| `Layout.Region.SliderF32` | emgui/src/layout.rs:344-365 | two columns: the label in column 1, the naked slider in column 0; the parent reserves the full width by the taller column |
| `Layout.Region.Foldable` | emgui/src/layout.rs:408-459 | requires a vertical region; reserves a full-width header; a click toggles the id's membership only; `open` is the membership after the toggle; when open, the contents run indented with the foldable's id as their root; the region's id is restored |
| `Layout.Region.Indent` | emgui/src/layout.rs:462-478 | the contents get cursor + (indent,0) and available − (indent,0); the parent then reserves (indent,0) + their bounding size |
| `Layout.Region.CenteredColumn` | emgui/src/layout.rs:481-490 | the new region starts at x = (available.x − width)/2 and the current y, with the given width; the parent is not modified |
| `Layout.Region.Horizontal` | emgui/src/layout.rs:493-508 | the contents get the same cursor and available space in a horizontal region; the parent reserves their bounding size |
| `Layout.Region.Columns` | emgui/src/layout.rs:516-546 | the contents get n vertical column views; the parent reserves (available.x, tallest column height) |

## Left out

- `f32` arithmetic: coordinates are exact reals, so rounding and NaN are not modelled. `f32::max` is an ordinary maximum.
- The popup region's infinite available height is a finite stand-in constant (`PopupAvailableHeight`). Since contents are abstract, nothing in the model reads it.
- `make_child_id` uses `DefaultHasher`; here it is the function-valued `Data.hasher`. Nothing is claimed about collisions.
- Font metrics are the `Font` value (line spacing and single-line layout). Its offsets type is non-empty, which stands for the `unwrap` at line 611.
- `Rect::contains` and `remap_clamp` come from the math module, which is not part of this model. They are the function values in `MathOps`. No clamping bound is claimed.
- `Mutex`/`Arc` locking, lock poisoning and `Data::clone` are left out. Memory and the layers are plain fields, since each access is one short sequential step.
- Closures: a closure pushes to the base layer and sets a final bounding size. Any memory changes, popups or overlay pushes made by the closure's own widgets are not modelled. The child's own cursor and available space after the closure are not modelled either; the source never reads them.
- `Layout.Region.Columns`: the columns are views handed to the closure, not `Region` objects. The closure's return value `R` is dropped. The requires clause says the closure reports one bounding size per column, as the `&mut [Region]` slice guarantees in the source.
- `Layout.Region.SliderF32`: the `format!("{}: {:.3}")` label text is the `labelText` parameter. The dead `else` branch behind `if true` is not modelled.
- `Layout.Region.NakedSlider`: the generic `H: Hash` key is a string, the only kind used in this file.
- `tooltip` and `tooltip_text` are left out: they only call `show_popup` when hovered. `GuiResponse` therefore has no back-reference to the frame data.
- `GuiCmd`, `GuiInput`, `InteractInfo` and `TextStyle` are defined in types.rs, which is not part of this model. They appear here with only the fields this file uses.
- The `options`, `input` and `cursor` getters are plain field reads in the model.
- `GraphicLayers::drain` returns a sequence instead of an iterator.
