/** The notes a MIDI file yields, as the piano roll sees them, and the key that identifies one on screen. */
module Notes {

  /** A MIDI seven-bit number: a note number or a velocity. */
  type SevenBit = x: int | 0 <= x < 128

  /** One note event: pitch, start tick, duration in ticks, and loudness (carried, never drawn). */
  datatype Note = Note(noteNumber: SevenBit, time: nat, length: nat, velocity: SevenBit)

  /** The pair (NoteNumber, Time) by which both revisions of the view find a note's rectangle. */
  datatype NoteKey = NoteKey(noteNumber: SevenBit, time: nat)

  function KeyOf(n: Note): NoteKey
  {
    NoteKey(n.noteNumber, n.time)
  }

  /** The keys of all notes of a list. */
  function KeySet(notes: seq<Note>): set<NoteKey>
  {
    set i | 0 <= i < |notes| :: KeyOf(notes[i])
  }

  /** The tick at which a note ends. */
  function EndTime(n: Note): nat
  {
    n.time + n.length
  }

}

/**
 * Placement of note rectangles on the canvas, shared by the renderer and the window:
 * both declare the same constants and compute the same geometry and extent.
 * Geometry is in exact reals; the source computes it in doubles.
 */
module Layout {

  import opened Options
  import opened Colors
  import opened Notes

  const NoteHeight: real := 10.0
  const TimeScale: real := 0.1
  const LeftPadding: real := 50.0
  const RightPadding: real := 100.0
  const TotalNoteRangeHeight: real := 128.0 * NoteHeight

  /** Position and size of a rectangle on the canvas. */
  datatype Bounds = Bounds(left: real, top: real, width: real, height: real)

  /** Where a note is drawn: x from its start tick, y from its pitch (high notes on top), width at least one unit. */
  function NoteBounds(n: Note): (b: Bounds)
    ensures b.left == n.time as real * TimeScale + LeftPadding
    ensures b.width >= 1.0 && b.width >= n.length as real * TimeScale
    ensures b.width == 1.0 || b.width == n.length as real * TimeScale
    ensures 0.0 <= b.top && b.top + b.height <= TotalNoteRangeHeight && b.height == NoteHeight
  {
    var w := n.length as real * TimeScale;
    Bounds(n.time as real * TimeScale + LeftPadding,
           (127 - n.noteNumber) as real * NoteHeight,
           if w < 1.0 then 1.0 else w,
           NoteHeight)
  }

  /** The largest end tick of the list (0 for no notes): the value the drawing loop's maxTime accumulator reaches. */
  function MaxEnd(notes: seq<Note>): (m: nat)
    ensures forall i :: 0 <= i < |notes| ==> EndTime(notes[i]) <= m
    ensures notes == [] ==> m == 0
    ensures notes != [] ==> exists i :: 0 <= i < |notes| && m == EndTime(notes[i])
  {
    if notes == [] then 0
    else
      var prev := MaxEnd(notes[..|notes| - 1]);
      var last := EndTime(notes[|notes| - 1]);
      if last > prev then last else prev
  }

  /** Drawing one more note raises the running maximum to that note's end when it is later. */
  lemma MaxEndStep(notes: seq<Note>, i: nat)
    requires i < |notes|
    ensures MaxEnd(notes[..i + 1]) == if EndTime(notes[i]) > MaxEnd(notes[..i]) then EndTime(notes[i]) else MaxEnd(notes[..i])
  {
    assert notes[..i + 1][..i] == notes[..i];
  }

  /** The canvas width after drawing a non-empty list. */
  function CanvasWidth(notes: seq<Note>): (w: real)
    ensures w >= LeftPadding + RightPadding
    ensures forall i :: 0 <= i < |notes| ==> NoteBounds(notes[i]).left + NoteBounds(notes[i]).width <= w
  {
    MaxEnd(notes) as real * TimeScale + LeftPadding + RightPadding
  }

  /** A note's rectangle lies in the band of its pitch, is at least one unit wide and starts right of the padding. */
  lemma NoteBoundsPlacement(n: Note)
    ensures var b := NoteBounds(n);
      && b.top == (127 - n.noteNumber) as real * NoteHeight
      && 0.0 <= b.top && b.top + b.height <= TotalNoteRangeHeight
      && b.left >= LeftPadding && b.width >= 1.0 && b.height == NoteHeight
  {
  }

  /** Rectangles of notes with different pitches never share a row. */
  lemma DistinctPitchesDistinctRows(m: Note, n: Note)
    requires m.noteNumber != n.noteNumber
    ensures NoteBounds(m).top + NoteHeight <= NoteBounds(n).top
         || NoteBounds(n).top + NoteHeight <= NoteBounds(m).top
  {
  }

  /** Every rectangle drawn for a list fits inside the canvas extent computed for that list. */
  lemma NoteFitsCanvas(notes: seq<Note>, i: nat)
    requires i < |notes|
    ensures NoteBounds(notes[i]).left + NoteBounds(notes[i]).width <= CanvasWidth(notes)
    ensures NoteBounds(notes[i]).top + NoteBounds(notes[i]).height <= TotalNoteRangeHeight
  {
    assert EndTime(notes[i]) <= MaxEnd(notes);
  }

  /** The canvas extent does not depend on the order of the notes. */
  lemma {:induction false} MaxEndPermutation(a: seq<Note>, b: seq<Note>)
    requires multiset(a) == multiset(b)
    ensures MaxEnd(a) == MaxEnd(b)
    ensures CanvasWidth(a) == CanvasWidth(b)
  {
    if a != [] {
      MaxEndBelowPermutation(a, b);
      MaxEndBelowPermutation(b, a);
    } else {
      assert |b| == |multiset(b)| == 0;
    }
  }

  /** The maximum of a list is reached by some note that also occurs in every permutation of it. */
  lemma MaxEndBelowPermutation(a: seq<Note>, b: seq<Note>)
    requires multiset(a) == multiset(b) && a != []
    ensures MaxEnd(a) <= MaxEnd(b)
  {
    var i :| 0 <= i < |a| && MaxEnd(a) == EndTime(a[i]);
    assert a[i] in multiset(b);
    var j :| 0 <= j < |b| && b[j] == a[i];
  }

  /** True when no object occurs twice in the list. */
  predicate Distinct<T(==)>(s: seq<T>)
  {
    forall i, j :: 0 <= i < j < |s| ==> s[i] != s[j]
  }

  /** A WPF Rectangle as the piano roll uses it: geometry, a fill that playback recolours, and the tagged note. */
  class Rectangle {
    var bounds: Bounds
    var fill: Color
    const tag: Option<Note>

    /** The rectangle both drawing loops create for a note. */
    constructor ForNote(note: Note, fill: Color)
      ensures bounds == NoteBounds(note) && this.fill == fill && tag == Some(note)
    {
      bounds := NoteBounds(note);
      this.fill := fill;
      tag := Some(note);
    }
  }

  /** A WPF Canvas: its child rectangles in drawing order, its size and its background. */
  class Canvas {
    var children: seq<Rectangle>
    var width: real
    var height: real
    var background: Color

    constructor (background: Color)
      ensures children == [] && width == 0.0 && height == 0.0 && this.background == background
    {
      children := [];
      width := 0.0;
      height := 0.0;
      this.background := background;
    }
  }

  /** The fills of a list of rectangles, in order. */
  function Fills(rs: seq<Rectangle>): (fs: seq<Color>)
    reads rs
    ensures |fs| == |rs| && forall i :: 0 <= i < |rs| ==> fs[i] == rs[i].fill
  {
    if rs == [] then [] else [rs[0].fill] + Fills(rs[1..])
  }

  /** The tags of a list of rectangles, in order. */
  function Tags(rs: seq<Rectangle>): (ts: seq<Option<Note>>)
    ensures |ts| == |rs| && forall i :: 0 <= i < |rs| ==> ts[i] == rs[i].tag
  {
    if rs == [] then [] else [rs[0].tag] + Tags(rs[1..])
  }

  /**
   * `children` is one distinct rectangle per note, in list order, placed by NoteBounds,
   * filled with `fill` and tagged with its note.
   */
  ghost predicate DrawsNotes(children: seq<Rectangle>, notes: seq<Note>, fill: Color)
    reads children
  {
    && |children| == |notes|
    && Distinct(children)
    && forall i :: 0 <= i < |notes| ==>
         && children[i].bounds == NoteBounds(notes[i])
         && children[i].fill == fill
         && children[i].tag == Some(notes[i])
  }

  /** Appending the rectangle of the next note extends what the children draw by that note. */
  lemma DrawsNextNote(children: seq<Rectangle>, notes: seq<Note>, i: nat, r: Rectangle, fill: Color)
    requires i < |notes| && DrawsNotes(children, notes[..i], fill) && r !in children
    requires r.bounds == NoteBounds(notes[i]) && r.fill == fill && r.tag == Some(notes[i])
    ensures DrawsNotes(children + [r], notes[..i + 1], fill)
  {
  }

  /** The body of both drawing loops: a fresh rectangle for the next note, filled and tagged, appended to the canvas. */
  method AppendNoteRectangle(canvas: Canvas, notes: seq<Note>, i: nat, fill: Color) returns (r: Rectangle)
    requires i < |notes| && DrawsNotes(canvas.children, notes[..i], fill)
    modifies canvas
    ensures fresh(r) && canvas.children == old(canvas.children) + [r]
    ensures DrawsNotes(canvas.children, notes[..i + 1], fill)
    ensures canvas.background == old(canvas.background)
  {
    r := new Rectangle.ForNote(notes[i], fill);
    DrawsNextNote(canvas.children, notes, i, r, fill);
    canvas.children := canvas.children + [r];
  }

  /**
   * The canvas shows exactly the given notes (DrawsNotes); an empty list leaves a canvas of
   * size 0, any other list the full pitch range high and as wide as CanvasWidth.
   */
  ghost predicate ShowsNotes(canvas: Canvas, notes: seq<Note>, fill: Color)
    reads canvas, canvas.children
  {
    && DrawsNotes(canvas.children, notes, fill)
    && (notes == [] ==> canvas.width == 0.0 && canvas.height == 0.0)
    && (notes != [] ==> canvas.width == CanvasWidth(notes) && canvas.height == TotalNoteRangeHeight)
  }

}
