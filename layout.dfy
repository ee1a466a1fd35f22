/**
 * The frame context and the region: the imperative half of the layout core.
 * A `Data` holds the options, input, persistent memory and the graphic
 * layers of one frame; a `Region` is a layout cursor over it, and every
 * widget is a reservation in a region plus the commands it pushes.
 */
module Layout {
  import opened Geometry
  import opened GuiTypes
  import opened Memories
  import opened Layering
  import opened TextLayout
  import opened LayoutRules

  /** The input, options and output of all commands of a frame, and the memory that outlives it. */
  class Data {
    var options: LayoutOptions
    const font: Font
    /** `make_child_id`'s hash of a parent id and a key (std's `DefaultHasher`). */
    const hasher: (Id, Key) -> Id
    const math: MathOps
    var input: GuiInput
    var memory: Memory
    const graphics: GraphicLayers

    constructor (font: Font, hasher: (Id, Key) -> Id, math: MathOps)
      ensures options == DefaultOptions && input == DefaultInput && memory == EmptyMemory
      ensures this.font == font && this.hasher == hasher && this.math == math
      ensures fresh(graphics) && graphics.Value() == Layers([], [])
    {
      options := DefaultOptions;
      this.font := font;
      this.hasher := hasher;
      this.math := math;
      input := DefaultInput;
      memory := EmptyMemory;
      graphics := new GraphicLayers();
    }

    /** Whether the mouse is over `rect` (`Rect::contains`). */
    function Hit(rect: Rect): bool
      reads this
    {
      math.contains(rect, input.mousePos)
    }

    /** The interaction a reservation of `rect` resolves against this frame's input, from memory `m`. */
    function Interaction(m: Memory, rect: Rect, interactionId: Option<Id>): (InteractInfo, Memory)
      reads this
    {
      Interact(m, Hit(rect), input.mouseClicked, interactionId)
    }

    method SetOptions(options: LayoutOptions)
      modifies this`options
      ensures this.options == options
    {
      this.options := options;
    }

    /** Replaces the input; releasing the mouse clears the active id. */
    method NewFrame(guiInput: GuiInput)
      modifies this`input, this`memory
      ensures input == guiInput
      ensures memory == NewFrameMemory(old(memory), guiInput.mouseDown)
    {
      input := guiInput;
      if !guiInput.mouseDown {
        memory := memory.(activeId := None);
      }
    }
  }

  /** Shows a pop-over window at `windowPos` whose contents go to the overlay layer. */
  method ShowPopup(data: Data, windowPos: Vec2, addContents: Contents)
    modifies data.graphics
    ensures var out := addContents(PopupView(data.options, windowPos));
      && data.graphics.graphics == old(data.graphics.graphics)
      && data.graphics.hoveringGraphics
         == old(data.graphics.hoveringGraphics) + [Window(PopupRect(data.options, windowPos, out.boundingSize))] + out.commands
      && data.graphics.Value()
         == Apply(old(data.graphics.Value()), Popup(Window(PopupRect(data.options, windowPos, out.boundingSize)), out.commands))
  {
    var numGraphicsBefore := |data.graphics.graphics|;
    var windowPadding := data.options.windowPadding;
    var popupRegion := new Region(data, 0, Vertical, windowPos.Plus(windowPadding), Zero,
                                  Vec2(400.0, PopupAvailableHeight));
    popupRegion.Run(addContents);
    var innerSize := popupRegion.boundingSize.Minus(data.options.itemSpacing);
    var outerSize := innerSize.Plus(Scale(2.0, windowPadding));
    var rect := Rect(windowPos, outerSize);
    var popupGraphics := data.graphics.graphics[numGraphicsBefore..];
    data.graphics.graphics := data.graphics.graphics[..numGraphicsBefore];
    data.graphics.hoveringGraphics := data.graphics.hoveringGraphics + [Window(rect)];
    data.graphics.hoveringGraphics := data.graphics.hoveringGraphics + popupGraphics;
  }

  /** The height the parent of some columns reserves: the tallest column's bounding height, or 0. */
  method MaxColumnHeight(sizes: seq<Vec2>) returns (maxHeight: real)
    ensures maxHeight == MaxHeight(sizes)
    ensures maxHeight >= 0.0 && forall i :: 0 <= i < |sizes| ==> maxHeight >= sizes[i].y
    ensures maxHeight == 0.0 || exists i :: 0 <= i < |sizes| && maxHeight == sizes[i].y
  {
    maxHeight := 0.0;
    for k := 0 to |sizes|
      invariant maxHeight == MaxHeight(sizes[..k])
      invariant maxHeight >= 0.0 && forall i :: 0 <= i < k ==> maxHeight >= sizes[i].y
      invariant maxHeight == 0.0 || exists i :: 0 <= i < k && maxHeight == sizes[i].y
    {
      assert sizes[..k + 1][..k] == sizes[..k];
      maxHeight := MaxOf(sizes[k].y, maxHeight);
    }
    assert sizes[..|sizes|] == sizes;
  }

  /** A region of the screen with a horizontal or vertical layout. */
  class Region {
    const data: Data
    /** Root of the identities of this region's widgets. */
    var id: Id
    const dir: Direction
    /** Moves only along `dir`. */
    var cursor: Vec2
    /** Sum of the reserved sizes along `dir`, their maximum across it. */
    var boundingSize: Vec2
    /** What may still be taken without overflowing the parent. */
    var availableSpace: Vec2

    constructor (data: Data, id: Id, dir: Direction, cursor: Vec2, boundingSize: Vec2, availableSpace: Vec2)
      ensures this.data == data && this.id == id && this.dir == dir
      ensures this.cursor == cursor && this.boundingSize == boundingSize && this.availableSpace == availableSpace
    {
      this.data := data;
      this.id := id;
      this.dir := dir;
      this.cursor := cursor;
      this.boundingSize := boundingSize;
      this.availableSpace := availableSpace;
    }

    function State(): LayoutState
      reads this
    {
      LayoutState(cursor, boundingSize, availableSpace)
    }

    function View(): RegionView
      reads this
    {
      RegionView(id, dir, cursor, availableSpace)
    }

    /** `make_child_id`. */
    function ChildId(key: Key): Id
      reads this
    {
      data.hasher(id, key)
    }

    /** Stands for running caller-supplied contents in this (fresh) region. */
    method Run(addContents: Contents)
      modifies this`boundingSize, data.graphics
      ensures boundingSize == addContents(old(View())).boundingSize
      ensures data.graphics.graphics == old(data.graphics.graphics) + addContents(old(View())).commands
      ensures data.graphics.hoveringGraphics == old(data.graphics.hoveringGraphics)
    {
      var out := addContents(View());
      data.graphics.graphics := data.graphics.graphics + out.commands;
      boundingSize := out.boundingSize;
    }

    method AddGraphic(cmd: GuiCmd)
      modifies data.graphics
      ensures data.graphics.graphics == old(data.graphics.graphics) + [cmd]
      ensures data.graphics.hoveringGraphics == old(data.graphics.hoveringGraphics)
      ensures data.graphics.Value() == Apply(old(data.graphics.Value()), Draw(cmd))
    {
      data.graphics.graphics := data.graphics.graphics + [cmd];
    }

    /** Reserves this much space and moves the cursor. */
    method ReserveSpaceInner(size: Vec2)
      modifies this`cursor, this`boundingSize, this`availableSpace
      ensures State() == ReserveInner(dir, old(State()), size)
    {
      if dir == Direction.Horizontal {
        cursor := cursor.(x := cursor.x + size.x);
        availableSpace := availableSpace.(x := availableSpace.x - size.x);
        boundingSize := boundingSize.(x := boundingSize.x + size.x);
        boundingSize := boundingSize.(y := MaxOf(boundingSize.y, size.y));
      } else {
        cursor := cursor.(y := cursor.y + size.y);
        availableSpace := availableSpace.(y := availableSpace.y - size.x);
        boundingSize := boundingSize.(y := boundingSize.y + size.y);
        boundingSize := boundingSize.(x := MaxOf(boundingSize.x, size.x));
      }
    }

    /**
     * Places a rect of `size` at the cursor, reserves `size` plus the item spacing,
     * and resolves hover, click and (when an id is given) the active widget.
     */
    method ReserveSpace(size: Vec2, interactionId: Option<Id>) returns (rect: Rect, interact: InteractInfo)
      modifies this`cursor, this`boundingSize, this`availableSpace, data`memory
      ensures rect == Rect(old(cursor), size)
      ensures State() == ReserveInner(dir, old(State()), size.Plus(data.options.itemSpacing))
      ensures (interact, data.memory) == data.Interaction(old(data.memory), rect, interactionId)
    {
      rect := Rect(cursor, size);
      ReserveSpaceInner(size.Plus(data.options.itemSpacing));
      var hovered := data.math.contains(rect, data.input.mousePos);
      var clicked := hovered && data.input.mouseClicked;
      var active := false;
      if interactionId.Some? {
        if clicked {
          data.memory := data.memory.(activeId := interactionId);
        }
        active := data.memory.activeId == interactionId;
      }
      interact := InteractInfo(hovered, clicked, active);
    }

    /** Lays out `text` line by line; the size is the widest line by the stacked line spacings. */
    method LayoutText(text: string) returns (fragments: seq<TextFragment>, size: Vec2)
      ensures fragments == LaidOutFragments(data.font, text)
      ensures size == LaidOutSize(data.font, text)
    {
      var font := data.font;
      var lines := SplitLines(text);
      var lineSpacing := font.lineSpacing;
      var cursorY := 0.0;
      var maxWidth := 0.0;
      fragments := [];
      for k := 0 to |lines|
        invariant cursorY == k as real * lineSpacing
        invariant maxWidth == MaxLineWidth(font, lines[..k])
        invariant fragments == Fragments(font, lines[..k])
      {
        LayoutOneMoreLine(font, lines, k);
        var xOffsets := font.layoutSingleLine(lines[k]);
        var lineWidth := xOffsets[|xOffsets| - 1];
        assert TextFragment(xOffsets, cursorY, lines[k]) == TextFragment(font.layoutSingleLine(lines[k]), k as real * font.lineSpacing, lines[k]);
        fragments := fragments + [TextFragment(xOffsets, cursorY, lines[k])];
        cursorY := cursorY + lineSpacing;
        maxWidth := MaxOf(lineWidth, maxWidth);
      }
      assert lines[..|lines|] == lines;
      size := Vec2(maxWidth, cursorY);
    }

    /** Pushes one text command per fragment, each at `pos` lowered by the fragment's offset. */
    method AddText(pos: Vec2, fragments: seq<TextFragment>)
      modifies data.graphics
      ensures data.graphics.graphics == old(data.graphics.graphics) + TextCommands(pos, fragments)
      ensures data.graphics.hoveringGraphics == old(data.graphics.hoveringGraphics)
    {
      for k := 0 to |fragments|
        invariant data.graphics.graphics == old(data.graphics.graphics) + TextCommands(pos, fragments[..k])
        invariant data.graphics.hoveringGraphics == old(data.graphics.hoveringGraphics)
      {
        var fragment := fragments[k];
        AddGraphic(Text(pos.Plus(Vec2(0.0, fragment.yOffset)), TextStyle.Label, fragment.text, fragment.xOffsets));
        assert TextCommands(pos, fragments[..k + 1]) == TextCommands(pos, fragments[..k]) + [TextCommands(pos, fragments[..k + 1])[k]];
      }
      assert fragments[..|fragments|] == fragments;
    }

    /** Pixels to the text of a check box or radio button: the padding and the icon. */
    function IconTextOffset(): Vec2
      reads data
    {
      data.options.buttonPadding.Plus(Vec2(data.options.startIconWidth, 0.0))
    }

    method Button(text: string) returns (response: GuiResponse)
      modifies this`cursor, this`boundingSize, this`availableSpace, data`memory, data.graphics
      ensures var size := LaidOutSize(data.font, text).Plus(Scale(2.0, data.options.buttonPadding));
        var rect := Rect(old(cursor), size);
        var r := data.Interaction(old(data.memory), rect, Some(ChildId(TextKey(text))));
        && State() == ReserveInner(dir, old(State()), size.Plus(data.options.itemSpacing))
        && data.memory == r.1 && response == Response(r.0)
        && data.graphics.graphics == old(data.graphics.graphics) + [GuiCmd.Button(r.0, rect)]
           + TextCommands(old(cursor).Plus(data.options.buttonPadding), LaidOutFragments(data.font, text))
        && data.graphics.hoveringGraphics == old(data.graphics.hoveringGraphics)
    {
      var id := ChildId(TextKey(text));
      var fragments, textSize := LayoutText(text);
      var textCursor := cursor.Plus(data.options.buttonPadding);
      var rect, interact := ReserveSpace(textSize.Plus(Scale(2.0, data.options.buttonPadding)), Some(id));
      AddGraphic(GuiCmd.Button(interact, rect));
      AddText(textCursor, fragments);
      response := Response(interact);
    }

    /** A check box: a click flips `checked`. */
    method Checkbox(text: string, checked: bool) returns (nowChecked: bool, response: GuiResponse)
      modifies this`cursor, this`boundingSize, this`availableSpace, data`memory, data.graphics
      ensures var size := IconTextOffset().Plus(LaidOutSize(data.font, text)).Plus(data.options.buttonPadding);
        var rect := Rect(old(cursor), size);
        var r := data.Interaction(old(data.memory), rect, Some(ChildId(TextKey(text))));
        && nowChecked == (if r.0.clicked then !checked else checked)
        && State() == ReserveInner(dir, old(State()), size.Plus(data.options.itemSpacing))
        && data.memory == r.1 && response == Response(r.0)
        && data.graphics.graphics == old(data.graphics.graphics) + [GuiCmd.Checkbox(nowChecked, r.0, rect)]
           + TextCommands(old(cursor).Plus(IconTextOffset()), LaidOutFragments(data.font, text))
        && data.graphics.hoveringGraphics == old(data.graphics.hoveringGraphics)
    {
      var id := ChildId(TextKey(text));
      var fragments, textSize := LayoutText(text);
      var textCursor := cursor.Plus(IconTextOffset());
      var rect, interact := ReserveSpace(IconTextOffset().Plus(textSize).Plus(data.options.buttonPadding), Some(id));
      nowChecked := checked;
      if interact.clicked {
        nowChecked := !nowChecked;
      }
      AddGraphic(GuiCmd.Checkbox(nowChecked, interact, rect));
      AddText(textCursor, fragments);
      response := Response(interact);
    }

    /** A label: text only, reserved without an interaction id. */
    method Label(text: string) returns (response: GuiResponse)
      modifies this`cursor, this`boundingSize, this`availableSpace, data`memory, data.graphics
      ensures data.memory == old(data.memory)
      ensures var size := LaidOutSize(data.font, text);
        && State() == ReserveInner(dir, old(State()), size.Plus(data.options.itemSpacing))
        && response == GuiResponse(data.Hit(Rect(old(cursor), size)), data.Hit(Rect(old(cursor), size)) && data.input.mouseClicked, false)
        && data.graphics.graphics == old(data.graphics.graphics) + TextCommands(old(cursor), LaidOutFragments(data.font, text))
        && data.graphics.hoveringGraphics == old(data.graphics.hoveringGraphics)
    {
      var fragments, textSize := LayoutText(text);
      AddText(cursor, fragments);
      var _, interact := ReserveSpace(textSize, None);
      response := Response(interact);
    }

    /** A radio button; whether it is checked is the caller's business. */
    method Radio(text: string, checked: bool) returns (response: GuiResponse)
      modifies this`cursor, this`boundingSize, this`availableSpace, data`memory, data.graphics
      ensures var size := IconTextOffset().Plus(LaidOutSize(data.font, text)).Plus(data.options.buttonPadding);
        var rect := Rect(old(cursor), size);
        var r := data.Interaction(old(data.memory), rect, Some(ChildId(TextKey(text))));
        && State() == ReserveInner(dir, old(State()), size.Plus(data.options.itemSpacing))
        && data.memory == r.1 && response == Response(r.0)
        && data.graphics.graphics == old(data.graphics.graphics) + [RadioButton(checked, r.0, rect)]
           + TextCommands(old(cursor).Plus(IconTextOffset()), LaidOutFragments(data.font, text))
        && data.graphics.hoveringGraphics == old(data.graphics.hoveringGraphics)
    {
      var id := ChildId(TextKey(text));
      var fragments, textSize := LayoutText(text);
      var textCursor := cursor.Plus(IconTextOffset());
      var rect, interact := ReserveSpace(IconTextOffset().Plus(textSize).Plus(data.options.buttonPadding), Some(id));
      AddGraphic(RadioButton(checked, interact, rect));
      AddText(textCursor, fragments);
      response := Response(interact);
    }

    /** The rect of a naked slider placed at this region's cursor: the whole available width, one line high. */
    function SliderRect(): Rect
      reads this, data
    {
      Rect(cursor, Vec2(availableSpace.x, data.font.lineSpacing))
    }

    /** A slider without a label: while active, the value follows the mouse across the slider's rect. */
    method NakedSlider(key: string, value: real, min: real, max: real) returns (newValue: real, response: GuiResponse)
      requires min <= max
      modifies this`cursor, this`boundingSize, this`availableSpace, data`memory, data.graphics
      ensures var rect := old(SliderRect());
        var r := data.Interaction(old(data.memory), rect, Some(ChildId(TextKey(key))));
        && newValue == (if r.0.active
                        then data.math.remapClamp(data.input.mousePos.x, rect.Min().x, rect.Max().x, min, max)
                        else value)
        && State() == ReserveInner(dir, old(State()), rect.size.Plus(data.options.itemSpacing))
        && data.memory == r.1 && response == Response(r.0)
        && data.graphics.graphics == old(data.graphics.graphics) + [Slider(r.0, max, min, rect, newValue)]
        && data.graphics.hoveringGraphics == old(data.graphics.hoveringGraphics)
    {
      var id := ChildId(TextKey(key));
      var sliderRect, interact := ReserveSpace(Vec2(availableSpace.x, data.font.lineSpacing), Some(id));
      newValue := value;
      if interact.active {
        newValue := data.math.remapClamp(data.input.mousePos.x, sliderRect.Min().x, sliderRect.Max().x, min, max);
      }
      AddGraphic(Slider(interact, max, min, sliderRect, newValue));
      response := Response(interact);
    }

    // ------------------------------------------------------------------------
    // Sub-regions.

    /** The region `indent` hands to its contents. */
    function IndentView(): RegionView
      reads this, data
    {
      var indent := Vec2(data.options.indent, 0.0);
      RegionView(id, dir, cursor.Plus(indent), availableSpace.Minus(indent))
    }

    /** Lays out contents in a child region indented to the right, then reserves what they took plus the indent. */
    method Indent(addContents: Contents)
      modifies this`cursor, this`boundingSize, this`availableSpace, data.graphics
      ensures var out := addContents(old(IndentView()));
        && State() == ReserveInner(dir, old(State()), Vec2(data.options.indent, 0.0).Plus(out.boundingSize))
        && data.graphics.graphics == old(data.graphics.graphics) + out.commands
        && data.graphics.hoveringGraphics == old(data.graphics.hoveringGraphics)
    {
      var indent := Vec2(data.options.indent, 0.0);
      var childRegion := new Region(data, id, dir, cursor.Plus(indent), Zero, availableSpace.Minus(indent));
      childRegion.Run(addContents);
      var size := childRegion.boundingSize;
      ReserveSpaceInner(indent.Plus(size));
    }

    /** A region of the given width, horizontally centred; it reserves nothing in this region. */
    method CenteredColumn(width: real) returns (column: Region)
      ensures fresh(column) && column.data == data && column.id == id && column.dir == dir
      ensures column.cursor == Vec2((availableSpace.x - width) / 2.0, cursor.y)
      ensures column.boundingSize == Zero && column.availableSpace == Vec2(width, availableSpace.y)
    {
      column := new Region(data, id, dir, Vec2((availableSpace.x - width) / 2.0, cursor.y), Zero,
                           Vec2(width, availableSpace.y));
    }

    /** Lays out contents in a horizontal child region at the cursor, then reserves their bounding size. */
    method Horizontal(addContents: Contents)
      modifies this`cursor, this`boundingSize, this`availableSpace, data.graphics
      ensures var out := addContents(RegionView(id, Direction.Horizontal, old(cursor), old(availableSpace)));
        && State() == ReserveInner(dir, old(State()), out.boundingSize)
        && data.graphics.graphics == old(data.graphics.graphics) + out.commands
        && data.graphics.hoveringGraphics == old(data.graphics.hoveringGraphics)
    {
      var childRegion := new Region(data, id, Direction.Horizontal, cursor, Zero, availableSpace);
      childRegion.Run(addContents);
      var size := childRegion.boundingSize;
      ReserveSpaceInner(size);
    }

    /** The `n` column regions `columns` splits this region into. */
    function ColumnViews(n: nat): (r: seq<RegionView>)
      reads this, data
      ensures |r| == n
    {
      var hasher, parent, start, available, spacing := data.hasher, id, cursor, availableSpace, data.options.itemSpacing.x;
      seq(n, i requires 0 <= i < n => ColumnView(hasher(parent, ColumnKey(i)), start, available, spacing, n, i))
    }

    /** Splits this region into `n` columns, then reserves the whole available width by the tallest column. */
    method Columns(n: nat, addContents: ColumnsContents)
      requires forall views :: |addContents(views).boundingSizes| == |views|
      modifies this`cursor, this`boundingSize, this`availableSpace, data.graphics
      ensures var out := addContents(old(ColumnViews(n)));
        && State() == ReserveInner(dir, old(State()), Vec2(old(availableSpace).x, MaxHeight(out.boundingSizes)))
        && data.graphics.graphics == old(data.graphics.graphics) + out.commands
        && data.graphics.hoveringGraphics == old(data.graphics.hoveringGraphics)
    {
      var columns := ColumnViews(n);
      var out := addContents(columns);
      data.graphics.graphics := data.graphics.graphics + out.commands;
      var maxHeight := MaxColumnHeight(out.boundingSizes);
      ReserveSpaceInner(Vec2(availableSpace.x, maxHeight));
    }

    /** A labelled slider: the value's label in the right column, the slider in the left one. */
    method SliderF32(text: string, value: real, min: real, max: real, labelText: string)
      returns (newValue: real, response: GuiResponse)
      requires min <= max
      modifies this`cursor, this`boundingSize, this`availableSpace, data`memory, data.graphics
      ensures var columns := old(ColumnViews(2));
        var sliderRect := Rect(columns[0].cursor, Vec2(columns[0].availableSpace.x, data.font.lineSpacing));
        var r := data.Interaction(old(data.memory), sliderRect, Some(data.hasher(columns[0].id, TextKey(text))));
        var labelHeight := LaidOutSize(data.font, labelText).y + data.options.itemSpacing.y;
        var sliderHeight := data.font.lineSpacing + data.options.itemSpacing.y;
        && newValue == (if r.0.active
                        then data.math.remapClamp(data.input.mousePos.x, sliderRect.Min().x, sliderRect.Max().x, min, max)
                        else value)
        && data.memory == r.1 && response == Response(r.0)
        && State() == ReserveInner(dir, old(State()), Vec2(old(availableSpace).x, MaxOf(labelHeight, MaxOf(sliderHeight, 0.0))))
        && data.graphics.graphics == old(data.graphics.graphics)
           + TextCommands(columns[1].cursor, LaidOutFragments(data.font, labelText))
           + [Slider(r.0, max, min, sliderRect, newValue)]
        && data.graphics.hoveringGraphics == old(data.graphics.hoveringGraphics)
    {
      var columns := ColumnViews(2);
      var column0 := new Region(data, columns[0].id, Vertical, columns[0].cursor, Zero, columns[0].availableSpace);
      var column1 := new Region(data, columns[1].id, Vertical, columns[1].cursor, Zero, columns[1].availableSpace);
      var _ := column1.Label(labelText);
      newValue, response := column0.NakedSlider(text, value, min, max);
      var maxHeight := MaxColumnHeight([column0.boundingSize, column1.boundingSize]);
      ReserveSpaceInner(Vec2(availableSpace.x, maxHeight));
    }

    /** The header size of a foldable with this text at the cursor: the full width, the text's height plus padding. */
    function FoldableHeaderSize(text: string): Vec2
      reads this, data
    {
      Vec2(availableSpace.x, LaidOutSize(data.font, text).y + 2.0 * data.options.buttonPadding.y)
    }

    /**
     * A collapsible section: a click on its header toggles whether it is open; when open,
     * the contents are laid out indented, with the foldable's own id as their identity root.
     */
    method Foldable(text: string, addContents: Contents) returns (response: GuiResponse)
      requires dir == Vertical
      modifies this`cursor, this`boundingSize, this`availableSpace, this`id, data`memory, data.graphics
      ensures id == old(id)
      ensures var foldableId := ChildId(TextKey(text));
        var rect := Rect(old(cursor), old(FoldableHeaderSize(text)));
        var r := data.Interaction(old(data.memory), rect, Some(foldableId));
        var memory := FoldableMemory(r.1, r.0.clicked, foldableId);
        var open := foldableId in memory.openFoldables;
        var header := ReserveInner(Vertical, old(State()), rect.size.Plus(data.options.itemSpacing));
        var indent := Vec2(data.options.indent, 0.0);
        var out := addContents(RegionView(foldableId, Vertical, header.cursor.Plus(indent), header.availableSpace.Minus(indent)));
        && data.memory == memory && response == Response(r.0)
        && State() == (if open then ReserveInner(Vertical, header, indent.Plus(out.boundingSize)) else header)
        && data.graphics.graphics == old(data.graphics.graphics) + [FoldableHeader(r.0, open, rect)]
           + TextCommands(old(cursor).Plus(data.options.buttonPadding).Plus(Vec2(data.options.startIconWidth, 0.0)),
                          LaidOutFragments(data.font, text))
           + (if open then out.commands else [])
        && data.graphics.hoveringGraphics == old(data.graphics.hoveringGraphics)
    {
      var foldableId := ChildId(TextKey(text));
      var fragments, textSize := LayoutText(text);
      var textCursor := cursor.Plus(data.options.buttonPadding);
      var rect, interact := ReserveSpace(
        Vec2(availableSpace.x, textSize.y + 2.0 * data.options.buttonPadding.y), Some(foldableId));
      if interact.clicked {
        if foldableId in data.memory.openFoldables {
          data.memory := data.memory.(openFoldables := data.memory.openFoldables - {foldableId});
        } else {
          data.memory := data.memory.(openFoldables := data.memory.openFoldables + {foldableId});
        }
      }
      var open := foldableId in data.memory.openFoldables;
      AddGraphic(FoldableHeader(interact, open, rect));
      AddText(textCursor.Plus(Vec2(data.options.startIconWidth, 0.0)), fragments);
      if open {
        var oldId := id;
        id := foldableId;
        Indent(addContents);
        id := oldId;
      }
      response := Response(interact);
    }
  }
}
