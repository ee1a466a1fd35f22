/**
 * The value types of the layout core: identities, options, input snapshot,
 * interaction result, draw commands, and the external collaborators (font
 * metrics, hashing, rectangle hit test, remapping) that the layout code calls.
 */
module GuiTypes {
  import opened Geometry

  datatype Option<T> = None | Some(value: T)

  /** A widget identity: a 64-bit hash value. */
  newtype Id = x: int | 0 <= x < 0x1_0000_0000_0000_0000

  /** What a child identity is hashed from, besides the parent's id. */
  datatype Key =
    | TextKey(text: string)    // a widget's label, or the key given to a naked slider
    | ColumnKey(index: nat)    // the tuple ("column", index) of `columns`

  datatype Direction = Horizontal | Vertical

  datatype LayoutOptions = LayoutOptions(
    windowPadding: Vec2,
    itemSpacing: Vec2,
    indent: real,
    buttonPadding: Vec2,
    startIconWidth: real)

  const DefaultOptions := LayoutOptions(
    windowPadding := Vec2(6.0, 6.0),
    itemSpacing := Vec2(8.0, 4.0),
    indent := 21.0,
    buttonPadding := Vec2(5.0, 3.0),
    startIconWidth := 20.0)

  /** The per-frame input snapshot; only the fields the layout reads. */
  datatype GuiInput = GuiInput(mouseDown: bool, mouseClicked: bool, mousePos: Vec2)

  const DefaultInput := GuiInput(false, false, Zero)

  datatype InteractInfo = InteractInfo(hovered: bool, clicked: bool, active: bool)

  /** What a widget returns to its caller (the back-reference used by tooltips is dropped). */
  datatype GuiResponse = GuiResponse(hovered: bool, clicked: bool, active: bool)

  function Response(interact: InteractInfo): GuiResponse {
    GuiResponse(interact.hovered, interact.clicked, interact.active)
  }

  datatype TextStyle = Label

  datatype GuiCmd =
    | Button(interact: InteractInfo, rect: Rect)
    | Checkbox(checked: bool, interact: InteractInfo, rect: Rect)
    | FoldableHeader(interact: InteractInfo, open: bool, rect: Rect)
    | RadioButton(checked: bool, interact: InteractInfo, rect: Rect)
    | Slider(interact: InteractInfo, max: real, min: real, rect: Rect, value: real)
    | Text(pos: Vec2, style: TextStyle, text: string, xOffsets: seq<real>)
    | Window(rect: Rect)

  /** Per-character x offsets of one laid-out line; the last one is the line's width. */
  type Offsets = s: seq<real> | |s| > 0 witness [0.0]

  /** The font service: line spacing and single-line layout. */
  datatype Font = Font(lineSpacing: real, layoutSingleLine: string -> Offsets)

  /** The helpers of the math module that the layout calls. */
  datatype MathOps = MathOps(
    contains: (Rect, Vec2) -> bool,
    remapClamp: (real, real, real, real, real) -> real)
}
