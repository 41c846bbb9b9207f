/**
 * The final revision of the piano-roll renderer: a full rebuild of the canvas from a note list,
 * an index from (NoteNumber, Time) to the drawn rectangle, and the two recolouring entry points.
 */
module Renderer {

  import opened Options
  import opened Colors
  import opened Notes
  import opened Layout

  /** Position `i` holds the last note of `notes` whose key is `k`. */
  ghost predicate LastWithKey(notes: seq<Note>, k: NoteKey, i: nat)
  {
    i < |notes| && KeyOf(notes[i]) == k && forall j :: i < j < |notes| ==> KeyOf(notes[j]) != k
  }

  /**
   * For each key, the position in `notes` of the rectangle the index ends up holding. The index
   * is filled with the dictionary indexer, which overwrites: the LAST note with a key wins.
   */
  function IndexPositions(notes: seq<Note>): (p: map<NoteKey, nat>)
    ensures p.Keys == KeySet(notes)
    ensures forall k :: k in p ==> LastWithKey(notes, k, p[k])
  {
    if notes == [] then map[]
    else
      var last := |notes| - 1;
      var init := notes[..last];
      var p := IndexPositions(init)[KeyOf(notes[last]) := last];
      assert KeySet(notes) == KeySet(init) + {KeyOf(notes[last])} by {
        forall k | k in KeySet(notes) ensures k in KeySet(init) + {KeyOf(notes[last])} {
          var i :| 0 <= i < |notes| && k == KeyOf(notes[i]);
          if i < last { assert k == KeyOf(init[i]); }
        }
      }
      assert forall k :: k in p ==> LastWithKey(notes, k, p[k]) by {
        forall k | k in p ensures LastWithKey(notes, k, p[k]) {
          if k != KeyOf(notes[last]) {
            assert LastWithKey(init, k, p[k]);
            assert notes[p[k]] == init[p[k]];
            forall j | p[k] < j < |notes| ensures KeyOf(notes[j]) != k {
              if j < last { assert notes[j] == init[j]; }
            }
          }
        }
      }
      p
  }

  /** A note followed later in the list by a note with the same key is not reachable from the index. */
  lemma ShadowedNoteUnreachable(notes: seq<Note>, i: nat, j: nat)
    requires i < j < |notes| && KeyOf(notes[i]) == KeyOf(notes[j])
    ensures i !in IndexPositions(notes).Values
  {
    var p := IndexPositions(notes);
    forall k | k in p ensures p[k] != i {
      if k == KeyOf(notes[i]) {
        assert p[k] >= j;
      }
    }
  }

  /** The index reaches the last note of every key, and only such notes. */
  lemma IndexedExactlyLastOfKey(notes: seq<Note>, i: nat)
    requires i < |notes|
    ensures i in IndexPositions(notes).Values <==> forall j :: i < j < |notes| ==> KeyOf(notes[j]) != KeyOf(notes[i])
  {
    var p := IndexPositions(notes);
    if forall j :: i < j < |notes| ==> KeyOf(notes[j]) != KeyOf(notes[i]) {
      var k := KeyOf(notes[i]);
      assert k in KeySet(notes);
      assert KeyOf(notes[p[k]]) == k;
      assert p[k] >= i;
      assert p[k] == i;
    } else {
      var j :| i < j < |notes| && KeyOf(notes[j]) == KeyOf(notes[i]);
      ShadowedNoteUnreachable(notes, i, j);
    }
  }

  /** `index` sends every key of `positions` to the child at that position, and has no other key. */
  ghost predicate IndexedBy(index: map<NoteKey, Rectangle>, children: seq<Rectangle>, positions: map<NoteKey, nat>)
  {
    && index.Keys == positions.Keys
    && forall k :: k in index ==> positions[k] < |children| && index[k] == children[positions[k]]
  }

  /** One pass of the drawing loop keeps the index in step with the notes drawn so far. */
  lemma IndexedByStep(index: map<NoteKey, Rectangle>, children: seq<Rectangle>, notes: seq<Note>, i: nat, r: Rectangle)
    requires i < |notes| && |children| == i
    requires IndexedBy(index, children, IndexPositions(notes[..i]))
    ensures IndexedBy(index[KeyOf(notes[i]) := r], children + [r], IndexPositions(notes[..i + 1]))
  {
    assert notes[..i + 1][..i] == notes[..i];
  }

  class PianoRollRenderer {
    /** The (NoteNumber, Time) index; None until the first Render with a canvas. */
    var index: Option<map<NoteKey, Rectangle>>

    constructor ()
      ensures index == None
    {
      index := None;
    }

    /** The rectangles the index can reach. */
    function Indexed(): set<Rectangle>
      reads this
    {
      if index.Some? then index.value.Values else {}
    }

    /** The rectangle SetNoteColor recolours for `note`: none when the index or the note is absent, or the key is not indexed. */
    function Target(note: Option<Note>): set<Rectangle>
      reads this
    {
      if index.Some? && note.Some? && KeyOf(note.value) in index.value then {index.value[KeyOf(note.value)]} else {}
    }

    /**
     * Clears the canvas and rebuilds it from `notes`: one fresh rectangle per note in list order,
     * a fresh index in which the last note of each key wins, and the canvas sized to the notes.
     * A null canvas leaves everything as it was. A null note list is the empty list here.
     */
    method Render(canvas: Canvas?, notes: seq<Note>, backgroundColor: Color, normalNoteColor: Color)
      modifies this, canvas
      ensures canvas == null ==> index == old(index)
      ensures canvas != null ==>
        && canvas.background == backgroundColor
        && ShowsNotes(canvas, notes, normalNoteColor)
        && (forall i :: 0 <= i < |canvas.children| ==> fresh(canvas.children[i]))
        && index.Some?
        && IndexedBy(index.value, canvas.children, IndexPositions(notes))
    {
      if canvas == null {
        return;
      }
      canvas.children := [];
      index := Some(map[]);
      canvas.background := backgroundColor;
      if |notes| == 0 {
        canvas.width := 0.0;
        canvas.height := 0.0;
        return;
      }
      var maxTime := DrawAndIndex(canvas, notes, normalNoteColor);
      canvas.height := TotalNoteRangeHeight;
      canvas.width := maxTime as real * TimeScale + LeftPadding + RightPadding;
    }

    /** The drawing loop of Render: one rectangle per note appended and indexed under its key; the result is the latest end tick. */
    method DrawAndIndex(canvas: Canvas, notes: seq<Note>, normalNoteColor: Color) returns (maxTime: nat)
      requires canvas.children == [] && index == Some(map[])
      modifies this, canvas
      ensures canvas.background == old(canvas.background)
      ensures DrawsNotes(canvas.children, notes, normalNoteColor)
      ensures forall j :: 0 <= j < |canvas.children| ==> fresh(canvas.children[j])
      ensures index.Some? && IndexedBy(index.value, canvas.children, IndexPositions(notes))
      ensures maxTime == MaxEnd(notes)
    {
      maxTime := 0;
      var i := 0;
      while i < |notes|
        invariant 0 <= i <= |notes|
        invariant canvas.background == old(canvas.background)
        invariant DrawsNotes(canvas.children, notes[..i], normalNoteColor)
        invariant forall j :: 0 <= j < |canvas.children| ==> fresh(canvas.children[j])
        invariant index.Some? && IndexedBy(index.value, canvas.children, IndexPositions(notes[..i]))
        invariant maxTime == MaxEnd(notes[..i])
      {
        var note := notes[i];
        ghost var drawn := canvas.children;
        var noteRectangle := AppendNoteRectangle(canvas, notes, i, normalNoteColor);
        IndexedByStep(index.value, drawn, notes, i, noteRectangle);
        index := Some(index.value[KeyOf(note) := noteRectangle]);
        var noteEndTime := note.time + note.length;
        MaxEndStep(notes, i);
        if noteEndTime > maxTime {
          maxTime := noteEndTime;
        }
        i := i + 1;
      }
      assert notes[..i] == notes;
    }

    /**
     * Recolours the one rectangle indexed under the note's key; every other rectangle and all
     * geometry stay as they were. Nothing changes when the index or the note is absent or the key is not indexed.
     */
    method SetNoteColor(note: Option<Note>, color: Color)
      modifies Target(note)`fill
      ensures index == old(index)
      ensures index.Some? && note.Some? && KeyOf(note.value) in index.value ==>
        index.value[KeyOf(note.value)].fill == color
      ensures forall r :: r in old(Indexed()) ==> r.bounds == old(r.bounds)
      ensures forall r :: r in old(Indexed()) && r !in old(Target(note)) ==> r.fill == old(r.fill)
    {
      if index.Some? && note.Some? {
        var key := KeyOf(note.value);
        if key in index.value {
          var targetRectangle := index.value[key];
          targetRectangle.fill := color;
        }
      }
    }

    /**
     * Sets the fill of every rectangle the index reaches to `color`; rectangles shadowed by a
     * later note with the same key are outside the frame and keep their fill.
     */
    method ResetAllNoteColors(color: Color)
      modifies Indexed()`fill
      ensures index == old(index)
      ensures forall r :: r in Indexed() ==> r.fill == color && r.bounds == old(r.bounds)
    {
      if index.Some? {
        var pending := index.value.Values;
        while pending != {}
          invariant pending <= index.value.Values
          invariant forall r :: r in index.value.Values - pending ==> r.fill == color
          decreases pending
        {
          var rectangle :| rectangle in pending;
          rectangle.fill := color;
          pending := pending - {rectangle};
        }
      }
    }
  }

  /** A new renderer that has drawn `notes` on a new canvas: every rectangle in the normal colour, indexed last-wins. */
  method RenderedCanvas(notes: seq<Note>, normalNoteColor: Color) returns (canvas: Canvas, renderer: PianoRollRenderer)
    ensures fresh(canvas) && fresh(renderer)
    ensures |canvas.children| == |notes| && Distinct(canvas.children)
    ensures forall i :: 0 <= i < |notes| ==> fresh(canvas.children[i]) && canvas.children[i].fill == normalNoteColor
    ensures renderer.index.Some? && IndexedBy(renderer.index.value, canvas.children, IndexPositions(notes))
  {
    canvas := new Canvas(Black);
    renderer := new PianoRollRenderer();
    renderer.Render(canvas, notes, Black, normalNoteColor);
  }

  /**
   * A render followed by one SetNoteColor on a fresh canvas: exactly the rectangle of the last
   * note with the played key takes the new colour, all others keep the normal colour.
   */
  method HighlightAfterRender(notes: seq<Note>, played: Note, normalNoteColor: Color, playingColor: Color)
    returns (fills: seq<Color>)
    ensures |fills| == |notes|
    ensures forall i :: 0 <= i < |notes| ==>
      fills[i] == if KeyOf(played) in KeySet(notes) && i == IndexPositions(notes)[KeyOf(played)]
                  then playingColor else normalNoteColor
  {
    var canvas, renderer := RenderedCanvas(notes, normalNoteColor);
    renderer.SetNoteColor(Some(played), playingColor);
    fills := Fills(canvas.children);
  }

  /**
   * A render followed by ResetAllNoteColors on a fresh canvas: the rectangles the index reaches
   * take the new colour, the shadowed ones keep the colour they were drawn with.
   */
  method ResetAfterRender(notes: seq<Note>, normalNoteColor: Color, resetColor: Color)
    returns (fills: seq<Color>)
    ensures |fills| == |notes|
    ensures forall i :: 0 <= i < |notes| ==>
      fills[i] == if i in IndexPositions(notes).Values then resetColor else normalNoteColor
  {
    var canvas, renderer := RenderedCanvas(notes, normalNoteColor);
    ghost var positions := IndexPositions(notes);
    ghost var index := renderer.index.value;
    label Drawn:
    renderer.ResetAllNoteColors(resetColor);
    fills := Fills(canvas.children);
    forall i | 0 <= i < |notes|
      ensures fills[i] == if i in positions.Values then resetColor else normalNoteColor
    {
      if i in positions.Values {
        var k :| k in positions && positions[k] == i;
        assert index[k] == canvas.children[i];
      } else {
        forall k | k in index ensures index[k] != canvas.children[i] {
          assert positions[k] != i;
        }
        assert canvas.children[i] !in old@Drawn(renderer.Indexed());
      }
    }
  }

  /** Two notes with key (60, 0): the index keeps the second, so a highlight reaches only the second rectangle. */
  method DuplicateKeyScenario() returns (fills: seq<Color>)
    ensures fills == [LightGray, White]
  {
    var first := Note(60, 0, 480, 100);
    var second := Note(60, 0, 240, 90);
    var notes := [first, second];
    assert KeyOf(first) == KeyOf(notes[1]) && KeyOf(first) in KeySet(notes);
    ShadowedNoteUnreachable(notes, 0, 1);
    fills := HighlightAfterRender(notes, first, LightGray, White);
  }

}
