/**
 * The layout rule of a region as functions on values: a reservation advances
 * the cursor and sums sizes along the region's direction and takes the
 * maximum across it; sub-regions (columns, popups) are derived from the
 * parent's state.
 */
module LayoutRules {
  import opened Geometry
  import opened GuiTypes

  /** The three vectors a reservation updates. */
  datatype LayoutState = LayoutState(cursor: Vec2, boundingSize: Vec2, availableSpace: Vec2)

  /** The coordinate along a direction, and the one across it. */
  function Along(dir: Direction, v: Vec2): real { if dir == Horizontal then v.x else v.y }
  function Across(dir: Direction, v: Vec2): real { if dir == Horizontal then v.y else v.x }

  /**
   * `reserve_space_inner`. Note that a vertical region shrinks its available
   * height by the reserved WIDTH, as the source does.
   */
  function ReserveInner(dir: Direction, s: LayoutState, size: Vec2): (r: LayoutState)
    ensures Across(dir, r.cursor) == Across(dir, s.cursor)
    ensures Along(dir, r.cursor) == Along(dir, s.cursor) + Along(dir, size)
    ensures Along(dir, r.boundingSize) == Along(dir, s.boundingSize) + Along(dir, size)
    ensures Across(dir, r.boundingSize) == MaxOf(Across(dir, s.boundingSize), Across(dir, size))
    ensures dir == Horizontal ==> r.availableSpace == Vec2(s.availableSpace.x - size.x, s.availableSpace.y)
    ensures dir == Vertical ==> r.availableSpace == Vec2(s.availableSpace.x, s.availableSpace.y - size.x)
  {
    var LayoutState(c, b, a) := s;
    if dir == Horizontal then
      LayoutState(Vec2(c.x + size.x, c.y), Vec2(b.x + size.x, MaxOf(b.y, size.y)), Vec2(a.x - size.x, a.y))
    else
      LayoutState(Vec2(c.x, c.y + size.y), Vec2(MaxOf(b.x, size.x), b.y + size.y), Vec2(a.x, a.y - size.x))
  }

  /** The layout part of successive `reserve_space` calls: each reserves its size plus the item spacing. */
  function ReserveSpaces(dir: Direction, s: LayoutState, sizes: seq<Vec2>, spacing: Vec2): LayoutState
    decreases |sizes|
  {
    if |sizes| == 0 then s
    else ReserveSpaces(dir, ReserveInner(dir, s, sizes[0].Plus(spacing)), sizes[1..], spacing)
  }

  /** Σ (size_i + spacing) along `dir`. */
  function SumAlong(dir: Direction, sizes: seq<Vec2>, spacing: Vec2): real
    decreases |sizes|
  {
    if |sizes| == 0 then 0.0
    else Along(dir, sizes[0]) + Along(dir, spacing) + SumAlong(dir, sizes[1..], spacing)
  }

  /** `init` folded with max over (size_i + spacing) across `dir`, left to right. */
  function MaxAcross(dir: Direction, init: real, sizes: seq<Vec2>, spacing: Vec2): real
    decreases |sizes|
  {
    if |sizes| == 0 then init
    else MaxAcross(dir, MaxOf(init, Across(dir, sizes[0]) + Across(dir, spacing)), sizes[1..], spacing)
  }

  lemma {:induction false} MaxAcrossIsMax(dir: Direction, init: real, sizes: seq<Vec2>, spacing: Vec2)
    ensures MaxAcross(dir, init, sizes, spacing) >= init
    ensures forall i :: 0 <= i < |sizes| ==>
      MaxAcross(dir, init, sizes, spacing) >= Across(dir, sizes[i]) + Across(dir, spacing)
    ensures MaxAcross(dir, init, sizes, spacing) == init
         || exists i :: 0 <= i < |sizes| && MaxAcross(dir, init, sizes, spacing) == Across(dir, sizes[i]) + Across(dir, spacing)
    decreases |sizes|
  {
    if |sizes| > 0 {
      var init' := MaxOf(init, Across(dir, sizes[0]) + Across(dir, spacing));
      var r := MaxAcross(dir, init, sizes, spacing);
      MaxAcrossIsMax(dir, init', sizes[1..], spacing);
      forall i | 0 <= i < |sizes| ensures r >= Across(dir, sizes[i]) + Across(dir, spacing) {
        if i > 0 { assert sizes[i] == sizes[1..][i - 1]; }
      }
      if r != init' {
        var j :| 0 <= j < |sizes[1..]| && r == Across(dir, sizes[1..][j]) + Across(dir, spacing);
        assert sizes[1..][j] == sizes[j + 1];
      }
    }
  }

  /**
   * N reservations: along the direction the cursor and the bounding size grow by
   * Σ (size_i + spacing); across it the cursor stays and the bounding size is the
   * running maximum; the available space shrinks as `ReserveInner` says.
   */
  lemma {:induction false} ReserveSpacesAccounting(dir: Direction, s: LayoutState, sizes: seq<Vec2>, spacing: Vec2)
    ensures var r := ReserveSpaces(dir, s, sizes, spacing);
      && Along(dir, r.cursor) == Along(dir, s.cursor) + SumAlong(dir, sizes, spacing)
      && Across(dir, r.cursor) == Across(dir, s.cursor)
      && Along(dir, r.boundingSize) == Along(dir, s.boundingSize) + SumAlong(dir, sizes, spacing)
      && Across(dir, r.boundingSize) == MaxAcross(dir, Across(dir, s.boundingSize), sizes, spacing)
      && (dir == Horizontal ==>
            r.availableSpace == Vec2(s.availableSpace.x - SumAlong(Horizontal, sizes, spacing), s.availableSpace.y))
      && (dir == Vertical ==>
            r.availableSpace == Vec2(s.availableSpace.x, s.availableSpace.y - SumAlong(Horizontal, sizes, spacing)))
    decreases |sizes|
  {
    if |sizes| > 0 {
      ReserveSpacesAccounting(dir, ReserveInner(dir, s, sizes[0].Plus(spacing)), sizes[1..], spacing);
    }
  }

  /**
   * A vertical region starting from a zero bounding size, after `reserve_space(w_i, h_i)`
   * for each i: the cursor moved down by Σ (h_i + spacing.y) and not sideways, the bounding
   * height is that sum, and the bounding width is the largest w_i + spacing.x (or 0).
   */
  lemma VerticalReservations(s: LayoutState, sizes: seq<Vec2>, spacing: Vec2)
    requires s.boundingSize == Zero
    ensures var r := ReserveSpaces(Vertical, s, sizes, spacing);
      && r.cursor == Vec2(s.cursor.x, s.cursor.y + SumAlong(Vertical, sizes, spacing))
      && r.boundingSize.y == SumAlong(Vertical, sizes, spacing)
      && r.boundingSize.x >= 0.0
      && (forall i :: 0 <= i < |sizes| ==> r.boundingSize.x >= sizes[i].x + spacing.x)
      && (r.boundingSize.x == 0.0 || exists i :: 0 <= i < |sizes| && r.boundingSize.x == sizes[i].x + spacing.x)
  {
    ReserveSpacesAccounting(Vertical, s, sizes, spacing);
    MaxAcrossIsMax(Vertical, 0.0, sizes, spacing);
  }

  /** The same law for a horizontal region, with the axes swapped. */
  lemma HorizontalReservations(s: LayoutState, sizes: seq<Vec2>, spacing: Vec2)
    requires s.boundingSize == Zero
    ensures var r := ReserveSpaces(Horizontal, s, sizes, spacing);
      && r.cursor == Vec2(s.cursor.x + SumAlong(Horizontal, sizes, spacing), s.cursor.y)
      && r.availableSpace == Vec2(s.availableSpace.x - SumAlong(Horizontal, sizes, spacing), s.availableSpace.y)
      && r.boundingSize.x == SumAlong(Horizontal, sizes, spacing)
      && r.boundingSize.y >= 0.0
      && (forall i :: 0 <= i < |sizes| ==> r.boundingSize.y >= sizes[i].y + spacing.y)
      && (r.boundingSize.y == 0.0 || exists i :: 0 <= i < |sizes| && r.boundingSize.y == sizes[i].y + spacing.y)
  {
    ReserveSpacesAccounting(Horizontal, s, sizes, spacing);
    MaxAcrossIsMax(Horizontal, 0.0, sizes, spacing);
  }

  /** Two labels of sizes (20,14) and (30,14) with item spacing (8,4): the bounding size includes the spacing. */
  lemma TwoLabelsScenario(cursor: Vec2, available: Vec2)
    ensures var r := ReserveSpaces(Vertical, LayoutState(cursor, Zero, available),
                                   [Vec2(20.0, 14.0), Vec2(30.0, 14.0)], Vec2(8.0, 4.0));
      r.cursor == Vec2(cursor.x, cursor.y + 36.0) && r.boundingSize == Vec2(38.0, 36.0)
  {
  }

  /** Spacing counted once per reservation: Σ (s_i + spacing) = Σ s_i + N · spacing. */
  lemma {:induction false} SumAlongSpacing(dir: Direction, sizes: seq<Vec2>, spacing: Vec2)
    ensures SumAlong(dir, sizes, spacing) == SumAlong(dir, sizes, Zero) + |sizes| as real * Along(dir, spacing)
    decreases |sizes|
  {
    if |sizes| > 0 {
      SumAlongSpacing(dir, sizes[1..], spacing);
    }
  }

  // ------------------------------------------------------------------------
  // Caller-supplied contents and the regions they are given.

  /** What a closure that lays out contents sees of its region. */
  datatype RegionView = RegionView(id: Id, dir: Direction, cursor: Vec2, availableSpace: Vec2)

  /** What such a closure does: the commands it pushes onto the base layer and the region's final bounding size. */
  datatype Outcome = Outcome(commands: seq<GuiCmd>, boundingSize: Vec2)

  type Contents = RegionView -> Outcome

  /** The closure handed to `columns`: it sees all columns and reports each one's bounding size. */
  datatype ColumnsOutcome = ColumnsOutcome(commands: seq<GuiCmd>, boundingSizes: seq<Vec2>)

  type ColumnsContents = seq<RegionView> -> ColumnsOutcome

  // ------------------------------------------------------------------------
  // Columns.

  function ColumnWidth(availableWidth: real, spacing: real, n: nat): real
    requires n > 0
  {
    (availableWidth - spacing * (n as real - 1.0)) / (n as real)
  }

  /** The columns, side by side with `spacing` between them, exactly fill the available width. */
  lemma ColumnsFill(availableWidth: real, spacing: real, n: nat)
    requires n > 0
    ensures n as real * ColumnWidth(availableWidth, spacing, n) + (n as real - 1.0) * spacing == availableWidth
  {
  }

  /** Column `i` of `n` when a region with this cursor and available space is split. */
  function ColumnView(id: Id, cursor: Vec2, available: Vec2, spacing: real, n: nat, i: nat): (r: RegionView)
    requires i < n
    ensures r.dir == Vertical
  {
    var w := ColumnWidth(available.x, spacing, n);
    RegionView(id, Vertical, cursor.Plus(Vec2(i as real * (w + spacing), 0.0)), Vec2(w, available.y))
  }

  /** Columns tile the parent's row: each starts one width plus one spacing after the previous, and the last ends at the right edge. */
  lemma ColumnsTile(id: Id, cursor: Vec2, available: Vec2, spacing: real, n: nat)
    requires n > 0
    ensures ColumnView(id, cursor, available, spacing, n, 0).cursor == cursor
    ensures forall i {:trigger ColumnView(id, cursor, available, spacing, n, i)} :: 0 <= i < n - 1 ==>
      ColumnView(id, cursor, available, spacing, n, i).cursor.x + ColumnWidth(available.x, spacing, n) + spacing
        == ColumnView(id, cursor, available, spacing, n, i + 1).cursor.x
    ensures ColumnView(id, cursor, available, spacing, n, n - 1).cursor.x + ColumnWidth(available.x, spacing, n)
         == cursor.x + available.x
  {
    var w := ColumnWidth(available.x, spacing, n);
    ColumnsFill(available.x, spacing, n);
    forall i | 0 <= i < n - 1
      ensures ColumnView(id, cursor, available, spacing, n, i).cursor.x + w + spacing
           == ColumnView(id, cursor, available, spacing, n, i + 1).cursor.x
    {
      assert (i + 1) as real * (w + spacing) == i as real * (w + spacing) + (w + spacing);
    }
    assert (n - 1) as real * (w + spacing) + w == n as real * w + (n as real - 1.0) * spacing;
  }

  /** The tallest column (or 0), folded in column order like the loop of `columns`. */
  function MaxHeight(sizes: seq<Vec2>): real
    decreases |sizes|
  {
    if |sizes| == 0 then 0.0 else MaxOf(sizes[|sizes| - 1].y, MaxHeight(sizes[..|sizes| - 1]))
  }

  // ------------------------------------------------------------------------
  // Popups.

  /** A stand-in for the popup region's infinite available height; nothing in the model reads it. */
  const PopupAvailableHeight: real := 1_000_000_000.0

  /** The region `show_popup` runs its contents in: id 0, vertical, inside the window padding. */
  function PopupView(options: LayoutOptions, windowPos: Vec2): RegionView {
    RegionView(0, Vertical, windowPos.Plus(options.windowPadding), Vec2(400.0, PopupAvailableHeight))
  }

  /** The popup window: its contents' bounding size less one item spacing, plus the padding on both sides. */
  function PopupRect(options: LayoutOptions, windowPos: Vec2, boundingSize: Vec2): Rect {
    Rect(windowPos, boundingSize.Minus(options.itemSpacing).Plus(Scale(2.0, options.windowPadding)))
  }

  /**
   * Subtracting one item spacing removes exactly the trailing spacing: for contents of
   * N >= 1 vertical reservations of non-negative sizes, the window's inner height is
   * Σ h_i + (N - 1) · spacing.y and its inner width is the widest w_i.
   */
  lemma PopupRemovesTrailingSpacing(options: LayoutOptions, windowPos: Vec2, s: LayoutState, sizes: seq<Vec2>)
    requires s.boundingSize == Zero && |sizes| > 0
    requires options.itemSpacing.x >= 0.0
    requires forall i :: 0 <= i < |sizes| ==> sizes[i].x >= 0.0
    ensures var b := ReserveSpaces(Vertical, s, sizes, options.itemSpacing).boundingSize;
      var inner := PopupRect(options, windowPos, b).size.Minus(Scale(2.0, options.windowPadding));
      && inner.y == SumAlong(Vertical, sizes, Zero) + (|sizes| as real - 1.0) * options.itemSpacing.y
      && (forall i :: 0 <= i < |sizes| ==> inner.x >= sizes[i].x)
      && (exists i :: 0 <= i < |sizes| && inner.x == sizes[i].x)
  {
    var sp := options.itemSpacing;
    var b := ReserveSpaces(Vertical, s, sizes, sp).boundingSize;
    VerticalReservations(s, sizes, sp);
    SumAlongSpacing(Vertical, sizes, sp);
    if b.x == 0.0 {
      assert b.x >= sizes[0].x + sp.x;
      assert b.x == sizes[0].x + sp.x;
    }
    var j :| 0 <= j < |sizes| && b.x == sizes[j].x + sp.x;
  }
}
