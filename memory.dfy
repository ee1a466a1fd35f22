/**
 * The memory that survives from frame to frame: the active (grabbed) widget
 * and the set of open foldables, with the transitions the layout code makes.
 */
module Memories {
  import opened GuiTypes

  datatype Memory = Memory(activeId: Option<Id>, openFoldables: set<Id>)

  const EmptyMemory := Memory(None, {})

  /** `Data::new_frame`: a released mouse clears the active id; nothing else changes. */
  function NewFrameMemory(m: Memory, mouseDown: bool): (r: Memory)
    ensures r.openFoldables == m.openFoldables
    ensures mouseDown ==> r == m
    ensures !mouseDown ==> r.activeId == None
  {
    if mouseDown then m else m.(activeId := None)
  }

  /**
   * The interaction part of `reserve_space`: given whether the reserved rect is
   * hovered, the result and the memory afterwards.
   */
  function Interact(m: Memory, hovered: bool, mouseClicked: bool, interactionId: Option<Id>): (r: (InteractInfo, Memory))
    ensures r.0.hovered == hovered
    ensures r.0.clicked <==> hovered && mouseClicked
    ensures r.0.clicked ==> r.0.hovered
    ensures r.1.openFoldables == m.openFoldables
    ensures r.0.clicked && interactionId.Some? ==> r.1.activeId == interactionId
    ensures !(r.0.clicked && interactionId.Some?) ==> r.1 == m
    ensures r.0.active <==> interactionId.Some? && r.1.activeId == interactionId
    ensures interactionId == None ==> !r.0.active
  {
    var clicked := hovered && mouseClicked;
    if interactionId.Some? then
      var m' := if clicked then m.(activeId := interactionId) else m;
      (InteractInfo(hovered, clicked, m'.activeId == interactionId), m')
    else
      (InteractInfo(hovered, clicked, false), m)
  }

  /** Toggles the membership of `id`, as a click on a foldable header does. */
  function Toggle(open: set<Id>, id: Id): (r: set<Id>)
    ensures id in r <==> id !in open
    ensures forall other :: other != id ==> (other in r <==> other in open)
  {
    if id in open then open - {id} else open + {id}
  }

  lemma ToggleTwice(open: set<Id>, id: Id)
    ensures Toggle(Toggle(open, id), id) == open
  {
  }

  /** The memory part of `foldable` after its header was reserved. */
  function FoldableMemory(m: Memory, clicked: bool, id: Id): (r: Memory)
    ensures r.activeId == m.activeId
    ensures clicked ==> (id in r.openFoldables <==> id !in m.openFoldables)
    ensures !clicked ==> r == m
    ensures forall other :: other != id ==> (other in r.openFoldables <==> other in m.openFoldables)
  {
    if clicked then m.(openFoldables := Toggle(m.openFoldables, id)) else m
  }

  /** Two clicks on the same foldable header restore the open set. */
  lemma FoldableTwoClicks(m: Memory, id: Id)
    ensures FoldableMemory(FoldableMemory(m, true, id), true, id) == m
  {
    ToggleTwice(m.openFoldables, id);
  }

  // ------------------------------------------------------------------------
  // A frame's worth of reservations.

  /** One reservation as seen by memory: whether it was hovered, and its interaction id. */
  datatype Reservation = Reservation(hovered: bool, interactionId: Option<Id>)

  /** Memory after the reservations of one frame, in call order (the input is fixed for the frame). */
  function InteractAll(m: Memory, mouseClicked: bool, rs: seq<Reservation>): Memory
    decreases |rs|
  {
    if |rs| == 0 then m
    else InteractAll(Interact(m, rs[0].hovered, mouseClicked, rs[0].interactionId).1, mouseClicked, rs[1..])
  }

  /** The id of the last clicked reservation with an id, or `init` when there is none. */
  function LastClicked(rs: seq<Reservation>, mouseClicked: bool, init: Option<Id>): Option<Id>
    decreases |rs|
  {
    if |rs| == 0 then init
    else
      var last := rs[|rs| - 1];
      if last.hovered && mouseClicked && last.interactionId.Some? then last.interactionId
      else LastClicked(rs[..|rs| - 1], mouseClicked, init)
  }

  lemma {:induction false} InteractAllSnoc(m: Memory, mouseClicked: bool, rs: seq<Reservation>, r: Reservation)
    ensures InteractAll(m, mouseClicked, rs + [r])
         == Interact(InteractAll(m, mouseClicked, rs), r.hovered, mouseClicked, r.interactionId).1
    decreases |rs|
  {
    if |rs| == 0 {
      assert rs + [r] == [r];
    } else {
      var m1 := Interact(m, rs[0].hovered, mouseClicked, rs[0].interactionId).1;
      assert (rs + [r])[1..] == rs[1..] + [r];
      InteractAllSnoc(m1, mouseClicked, rs[1..], r);
    }
  }

  /**
   * Last click wins: after a frame's reservations the active id is that of the
   * last clicked reservation that had an id (or the old one), and the open set
   * is untouched.
   */
  lemma {:induction false} LastClickWins(m: Memory, mouseClicked: bool, rs: seq<Reservation>)
    ensures InteractAll(m, mouseClicked, rs) == Memory(LastClicked(rs, mouseClicked, m.activeId), m.openFoldables)
    decreases |rs|
  {
    if |rs| > 0 {
      var front, last := rs[..|rs| - 1], rs[|rs| - 1];
      assert rs == front + [last];
      InteractAllSnoc(m, mouseClicked, front, last);
      LastClickWins(m, mouseClicked, front);
    }
  }
}
